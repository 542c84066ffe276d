/** The identity under which the Gateway asks the Sidecar for a run: create-or-read by run_request_key. */
module HarnessSidecar {
  import opened Common
  import opened Interrupts

  datatype TriggerType = ConfirmationResume | AuthorizationResume | FormResume | RunRecovery

  /** "<interrupt id>:<response id>", or a recovery event's id; both digests are of what stands here. */
  datatype TriggerId = OfResponse(interrupt: ToolCallKey, response: ResponseId) | OfRecovery(original: RunId)

  /** run_request_key hashes exactly these two. */
  datatype RunKey = RunKey(triggerType: TriggerType, triggerId: TriggerId)

  /** A run with the digest of the request it was made for: workspace revision, context, model and limits. Its binding
      freezes them. */
  datatype Entry = Entry(run: RunId, digest: nat)

  type Runs = map<RunKey, Entry>

  predicate RunIdUsed(runs: Runs, run: RunId) { exists k :: k in runs && runs[k].run == run }

  /** Create a run with an id never given out before, or read back the one with this key. */
  function CreateOrRead(runs: Runs, key: RunKey, newId: RunId, digest: nat): Runs
    requires key in runs || !RunIdUsed(runs, newId)
  {
    if key in runs then runs else runs[key := Entry(newId, digest)]
  }

  /** The Gateway accepts the answer only for the request the run was made for: register_run_binding refuses a binding that
      differs from the stored one. */
  predicate Accepts(runs: Runs, key: RunKey, digest: nat) { key in runs ==> runs[key].digest == digest }

  ghost predicate DistinctRuns(runs: Runs) {
    forall a, b :: a in runs && b in runs && runs[a].run == runs[b].run ==> a == b
  }

  lemma CreateKeepsDistinct(runs: Runs, key: RunKey, newId: RunId, digest: nat)
    requires DistinctRuns(runs) && (key in runs || !RunIdUsed(runs, newId))
    ensures DistinctRuns(CreateOrRead(runs, key, newId, digest))
  {
  }
}
