/** HarnessRecoveryService.recover against the repository and the Sidecar: an undisturbed call is one run of the recovery
    protocol. */
module HarnessRecoveryService {
  import opened Common
  import S = HarnessSidecar
  import opened HarnessRecovery
  import opened AgentToolRepository

  class Sidecar {
    var runs: S.Runs

    /** create_and_bind: the run with this key, unless it was made for another request. */
    method CreateAndBind(key: S.RunKey, newId: RunId, digest: nat) returns (run: Option<RunId>)
      requires key in runs || !S.RunIdUsed(runs, newId)
      modifies this
      ensures runs == S.CreateOrRead(old(runs), key, newId, digest)
      ensures run == if S.Accepts(old(runs), key, digest) then Some(runs[key].run) else None
    {
      if key !in runs { runs := runs[key := S.Entry(newId, digest)]; }
      return if runs[key].digest == digest then Some(runs[key].run) else None;
    }
  }

  class RecoveryService {
    const repository: SqlAgentToolRepository
    const sidecar: Sidecar

    constructor (repository: SqlAgentToolRepository, sidecar: Sidecar)
      ensures this.repository == repository && this.sidecar == sidecar
    {
      this.repository, this.sidecar := repository, sidecar;
    }

    ghost predicate StandsAt(s: State, pid: Pid, original: RunId, pc: Pc)
      reads repository, sidecar
    {
      s.rows == repository.recoveries && s.runs == sidecar.runs && pid in s.procs && s.procs[pid].original == original && s.procs[pid].pc == pc
    }

    ghost predicate Served(s: State, steps: seq<Step>, pid: Pid, original: RunId, reply: Reply)
      reads repository, sidecar
    {
      StandsAt(Run(s, steps), pid, original, Ended(reply))
    }

    /** What an undisturbed call answers, from how the record was found: one that is decided is read back; without a record, or
        with one that is pending, the answer is manual review when the run has tool calls or its sources are gone, and
        otherwise the one Sidecar run made for the recovery, unless it was made for another request or another recovery has
        it. */
    ghost predicate Recovered(
      before: Recoveries, runs: S.Runs, original: RunId, called: bool, sourced: bool, newId: RunId, digest: nat, reply: Reply)
      reads repository, sidecar
    {
      if original in before && before[original].status != Pending then
        reply == Answered(before[original]) && repository.recoveries == before && sidecar.runs == runs
      else Decided(before[original := Recovery(original, Pending, None)], runs, original, called, sourced, newId, digest, reply)
    }

    /** The same, from the pending record on. */
    ghost predicate Decided(
      before: Recoveries, runs: S.Runs, original: RunId, called: bool, sourced: bool, newId: RunId, digest: nat, reply: Reply)
      reads repository, sidecar
    {
      var manual := Recovery(original, ManualReview, None);
      var entry := if KeyOf(original) in runs then runs[KeyOf(original)] else S.Entry(newId, digest);
      if called || !sourced then
        reply == Answered(manual) && repository.recoveries == before[original := manual] && sidecar.runs == runs
      else
        && sidecar.runs == runs[KeyOf(original) := entry]
        && if entry.digest != digest then reply == Errored(Changed) && repository.recoveries == before
           else Bound(before, original, entry.run, reply)
    }

    /** Every record is under its own run and as the table's check constraint allows. */
    predicate TableSound(rows: Recoveries) {
      forall k :: k in rows ==> rows[k].original == k && Checked(rows[k])
    }

    /** `sourced` says whether the source message and the workspace of the conversation were found, `digest` stands for the
        request a successor would be made for. A run that already has tool calls is never recovered automatically. */
    method Recover(ghost s: State, ghost pid: Pid, original: RunId, sourced: bool, newId: RunId, digest: nat)
      returns (reply: Reply, ghost steps: seq<Step>)
      requires s.rows == repository.recoveries && s.runs == sidecar.runs && pid !in s.procs
      requires S.RunIdUsed(sidecar.runs, newId) ==> KeyOf(original) in sidecar.runs
      modifies repository`recoveries, sidecar
      ensures Served(s, steps, pid, original, reply)
      ensures (exists k :: k in repository.calls && k.run == original) ==> sidecar.runs == old(sidecar.runs)
      ensures TableSound(old(repository.recoveries)) ==>
                Recovered(old(repository.recoveries), old(sidecar.runs), original,
                          exists k :: k in repository.calls && k.run == original, sourced, newId, digest, reply)
    {
      ghost var before := repository.recoveries;
      ghost var begun := Next(s, Begin(pid, original));
      ghost var fetched := Next(begun, Fetch(pid));
      ghost var judging := Next(fetched, End(pid));
      var read := repository.GetRecovery(original);
      var event := repository.GetOrCreateRecoveryEvent(read, original);
      steps := [];
      match event {
        case Refused(e) => reply := Errored(e);
        case Returned(record) =>
          if record.status != Pending {
            reply := Answered(record);
          } else {
            assert TableSound(before) ==> repository.recoveries == before[original := Recovery(original, Pending, None)];
            reply, steps := Decide(judging, pid, original, sourced, newId, digest);
          }
      }
      RunCons(fetched, End(pid), steps);
      RunCons(begun, Fetch(pid), [End(pid)] + steps);
      RunCons(s, Begin(pid, original), [Fetch(pid)] + ([End(pid)] + steps));
      steps := [Begin(pid, original)] + ([Fetch(pid)] + ([End(pid)] + steps));
    }

    /** From the pending record on: manual review, or a successor. */
    method Decide(ghost s: State, ghost pid: Pid, original: RunId, sourced: bool, newId: RunId, digest: nat)
      returns (reply: Reply, ghost steps: seq<Step>)
      requires StandsAt(s, pid, original, ToDecide)
      requires S.RunIdUsed(sidecar.runs, newId) ==> KeyOf(original) in sidecar.runs
      modifies repository`recoveries, sidecar
      ensures Served(s, steps, pid, original, reply)
      ensures (exists k :: k in repository.calls && k.run == original) ==> sidecar.runs == old(sidecar.runs)
      ensures AtPending(old(repository.recoveries), original) ==>
                Decided(old(repository.recoveries), old(sidecar.runs), original,
                        exists k :: k in repository.calls && k.run == original, sourced, newId, digest, reply)
    {
      var called := repository.HasToolCalls(original);
      if called || !sourced {
        reply, steps := MarkForReview(s, pid, original);
      } else {
        reply, steps := CreateAndBind(s, pid, original, newId, digest);
      }
    }

    predicate AtPending(rows: Recoveries, original: RunId) {
      original in rows && rows[original] == Recovery(original, Pending, None)
    }

    /** The pending record got its successor, unless another record has it. */
    ghost predicate Bound(before: Recoveries, original: RunId, run: RunId, reply: Reply)
      reads repository
    {
      var created := Recovery(original, Created, Some(run));
      if exists k :: k in before && k != original && before[k].successor == Some(run) then
        reply == Errored(Integrity) && repository.recoveries == before
      else reply == Answered(created) && repository.recoveries == before[original := created]
    }

    method MarkForReview(ghost s: State, ghost pid: Pid, original: RunId) returns (reply: Reply, ghost steps: seq<Step>)
      requires StandsAt(s, pid, original, ToDecide)
      modifies repository`recoveries
      ensures Served(s, steps, pid, original, reply)
      ensures AtPending(old(repository.recoveries), original) ==>
                var manual := Recovery(original, ManualReview, None);
                reply == Answered(manual) && repository.recoveries == old(repository.recoveries)[original := manual]
    {
      ghost var judged := Next(s, Judge(pid, false));
      ghost var fetched := Next(judged, Fetch(pid));
      var read := repository.GetRecovery(original);
      var marked := repository.MarkRecoveryManualReview(read, original);
      reply := if marked.Refused? then Errored(marked.error) else Answered(marked.value);
      RunCons(fetched, End(pid), []);
      RunCons(judged, Fetch(pid), [End(pid)] + []);
      RunCons(s, Judge(pid, false), [Fetch(pid)] + ([End(pid)] + []));
      steps := [Judge(pid, false)] + ([Fetch(pid)] + ([End(pid)] + []));
    }

    method CreateAndBind(ghost s: State, ghost pid: Pid, original: RunId, newId: RunId, digest: nat)
      returns (reply: Reply, ghost steps: seq<Step>)
      requires StandsAt(s, pid, original, ToDecide)
      requires KeyOf(original) in sidecar.runs || !S.RunIdUsed(sidecar.runs, newId)
      modifies repository`recoveries, sidecar
      ensures Served(s, steps, pid, original, reply)
      ensures AtPending(old(repository.recoveries), original) ==>
                var runs := old(sidecar.runs);
                var entry := if KeyOf(original) in runs then runs[KeyOf(original)] else S.Entry(newId, digest);
                && sidecar.runs == runs[KeyOf(original) := entry]
                && if entry.digest != digest then reply == Errored(Changed) && repository.recoveries == old(repository.recoveries)
                   else Bound(old(repository.recoveries), original, entry.run, reply)
    {
      ghost var judged := Next(s, Judge(pid, true));
      ghost var created := Next(judged, Create(pid, newId, digest));
      var run := sidecar.CreateAndBind(KeyOf(original), newId, digest);
      steps := [];
      if run.None? {
        reply := Errored(Changed);
      } else {
        assert StandsAt(created, pid, original, ToBind(run.value));
        reply, steps := Bind(created, pid, original, run.value);
      }
      RunCons(judged, Create(pid, newId, digest), steps);
      RunCons(s, Judge(pid, true), [Create(pid, newId, digest)] + steps);
      steps := [Judge(pid, true)] + ([Create(pid, newId, digest)] + steps);
    }

    method Bind(ghost s: State, ghost pid: Pid, original: RunId, run: RunId) returns (reply: Reply, ghost steps: seq<Step>)
      requires StandsAt(s, pid, original, ToBind(run))
      modifies repository`recoveries
      ensures Served(s, steps, pid, original, reply)
      ensures AtPending(old(repository.recoveries), original) ==> Bound(old(repository.recoveries), original, run, reply)
    {
      ghost var fetched := Next(s, Fetch(pid));
      var read := repository.GetRecovery(original);
      var bound := repository.BindRecoveryRun(read, original, run);
      reply := if bound.Refused? then Errored(bound.error) else Answered(bound.value);
      RunCons(fetched, End(pid), []);
      RunCons(s, Fetch(pid), [End(pid)] + []);
      steps := [Fetch(pid)] + ([End(pid)] + []);
    }
  }
}
