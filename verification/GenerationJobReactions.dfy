/** How GenerationJobWorker turns a provider's answer into a repository call. */
module GenerationJobReactions {
  import opened Common
  import opened GenerationJobState

  datatype ProviderOutcome = OutcomePolling | OutcomeSucceeded | OutcomeFailed | OutcomePausedQuota | OutcomeTimeout | OutcomeExpired

  /** What a provider call ends in: a snapshot, a mapping error with its reason code, or any other exception. */
  datatype Reply =
    | Snapshot(outcome: ProviderOutcome, providerJobId: Option<string>, result: Option<map<string, string>>, reason: Option<string>)
    | MappingError(reasonCode: string)
    | OtherError

  /** Fields of the worker and the two environment facts a reaction depends on. */
  datatype Setting = Setting(worker: string, pollInterval: int, hasProvider: bool, hasCredential: bool)

  predicate SafeChar(c: char) { 'a' <= c <= 'z' || '0' <= c <= '9' || c == '_' }

  /** The reason-code pattern: 1 to 96 lower-case letters, digits or underscores. */
  predicate SafeCode(s: string) { 1 <= |s| <= 96 && forall i :: 0 <= i < |s| ==> SafeChar(s[i]) }

  function Lower(c: char): char {
    if 'A' <= c <= 'Z' then 'a' + (c - 'A') else c
  }

  function DropSpaces(s: string): string {
    if s != "" && IsSpace(s[0]) then DropSpaces(s[1..]) else s
  }

  function DropTrailingSpaces(s: string): string {
    if s != "" && IsSpace(s[|s| - 1]) then DropTrailingSpaces(s[..|s| - 1]) else s
  }

  /** _safe_provider_mapping_reason. */
  function SafeReason(code: string): (reason: string)
    ensures SafeCode(reason)
  {
    var stripped := DropTrailingSpaces(DropSpaces(code));
    var normalized := seq(|stripped|, i requires 0 <= i < |stripped| => Lower(stripped[i]));
    if SafeCode(normalized) then normalized else "response_mapping_failed"
  }

  function Fail(j: Job, w: Setting, status: Status, reason: string, now: Time): Call {
    Complete(j.id, w.worker, status, now, None, Some(reason))
  }

  /** _accept_snapshot. */
  function AcceptSnapshot(j: Job, w: Setting, phase: string, reply: Reply, now: Time): Call
    requires reply.Snapshot?
  {
    if reply.outcome == OutcomePolling then
      if !Text(reply.providerJobId) then Fail(j, w, Indeterminate, "provider_" + phase + "_job_id_missing", now)
      else Bind(j.id, reply.providerJobId.value, w.worker, now, now + w.pollInterval)
    else if reply.outcome == OutcomeSucceeded then
      if !Entries(reply.result) then Fail(j, w, Indeterminate, "provider_result_missing", now)
      else Complete(j.id, w.worker, Succeeded, now, reply.result, None)
    else
      Fail(j, w, Failed, if Text(reply.reason) then reply.reason.value else "provider_business_failed", now)
  }

  /** The repository call _start makes for the provider's answer. */
  function StartReaction(j: Job, w: Setting, reply: Reply, now: Time): Call {
    if !w.hasProvider then Fail(j, w, Failed, "provider_unavailable", now)
    else if !w.hasCredential then Fail(j, w, Indeterminate, "authorization_unavailable", now)
    else match reply
      case Snapshot(_, _, _, _) => AcceptSnapshot(j, w, "start", reply, now)
      case MappingError(code) => Fail(j, w, Indeterminate, "provider_start_" + SafeReason(code), now)
      case OtherError => StartFallback(j, w, now)
  }

  /** The call _start makes when the first one raised, or anything after it did. */
  function StartFallback(j: Job, w: Setting, now: Time): Call {
    Fail(j, w, Indeterminate, "provider_start_indeterminate", now)
  }

  /** The repository call _poll makes for the provider's answer. */
  function PollReaction(j: Job, w: Setting, reply: Reply, now: Time): Call {
    if !w.hasProvider || !Text(j.providerJobId) then Fail(j, w, Indeterminate, "provider_job_unavailable", now)
    else match reply
      case Snapshot(OutcomePolling, _, _, _) => PollFallback(j, w, now)
      case Snapshot(_, _, _, _) => AcceptSnapshot(j, w, "poll", reply, now)
      case MappingError(code) =>
        if SafeReason(code) == "provider_status_authorization_unavailable" then PollFallback(j, w, now)
        else Fail(j, w, Indeterminate, "provider_poll_" + SafeReason(code), now)
      case OtherError => PollFallback(j, w, now)
  }

  /** Release the lease and ask again later. */
  function PollFallback(j: Job, w: Setting, now: Time): Call {
    Reschedule(j.id, w.worker, now, now + w.pollInterval)
  }

  /** The argument shapes that keep the record contract when the repository copies them in unchecked. */
  predicate Argued(c: Call) {
    match c
    case Bind(_, providerJobId, _, _, _) => providerJobId != ""
    case Complete(_, _, status, _, result, failure) =>
      || (status == Succeeded && Entries(result) && failure.None?)
      || ((status == Failed || status == Indeterminate) && result.None? && Text(failure))
    case _ => true
  }

  /** Whatever the provider answers, the worker passes well-formed arguments, and never asks for timeout or expired. */
  lemma ReactionsAreArgued(j: Job, w: Setting, reply: Reply, now: Time)
    ensures Argued(StartReaction(j, w, reply, now)) && Argued(StartFallback(j, w, now))
    ensures Argued(PollReaction(j, w, reply, now)) && Argued(PollFallback(j, w, now))
  {
  }
}
