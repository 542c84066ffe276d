/** What a provider's answer does to the job's record, when the worker still has its lease as it calls the repository. */
module GenerationJobOutcomes {
  import opened Common
  import opened GenerationJobState
  import opened GenerationJobReactions
  import opened GenerationJobRuns

  /** The job is over: its status, result and reason are these, and lease and schedule are gone. Nothing else differs. */
  predicate EndedAs(
    before: Job, after: Job, status: Status, result: Option<map<string, string>>, failure: Option<string>, now: Time)
  {
    && after.status == status && after.result == result && after.failure == failure && after.updatedAt == now
    && after.nextPollAt.None? && after.leaseOwner.None? && after.leaseExpiresAt.None?
    && after.providerJobId == before.providerJobId && SameSubmission(before, after)
  }

  /** The job is polled again at the given time under the given provider job, and free until then. */
  predicate DueAgain(before: Job, after: Job, providerJobId: Option<string>, at: Time, now: Time) {
    && after.status == Polling && after.providerJobId == providerJobId && after.nextPollAt == Some(at) && after.updatedAt == now
    && after.leaseOwner.None? && after.leaseExpiresAt.None?
    && after.result == before.result && after.failure == before.failure && SameSubmission(before, after)
  }

  predicate SameSubmission(a: Job, b: Job) {
    && a.id == b.id && a.identity == b.identity && a.request == b.request && a.idempotencyKey == b.idempotencyKey
    && a.createdAt == b.createdAt
  }

  predicate Undecided(before: Job, after: Job, reason: string, now: Time) {
    EndedAs(before, after, Indeterminate, None, Some(reason), now)
  }

  /** A snapshot that says how the job ended. */
  predicate Concluded(before: Job, after: Job, reply: Reply, now: Time)
    requires reply.Snapshot?
  {
    if reply.outcome == OutcomeSucceeded then
      if reply.result.Some? && reply.result.value != map[] then EndedAs(before, after, Succeeded, reply.result, None, now)
      else Undecided(before, after, "provider_result_missing", now)
    else
      EndedAs(before, after, Failed, None,
              if reply.reason.Some? && reply.reason.value != "" then reply.reason else Some("provider_business_failed"), now)
  }

  /** How a start leaves the record. */
  predicate StartedAs(before: Job, after: Job, w: Setting, reply: Reply, now: Time) {
    if !w.hasProvider then EndedAs(before, after, Failed, None, Some("provider_unavailable"), now)
    else if !w.hasCredential then Undecided(before, after, "authorization_unavailable", now)
    else match reply
      case OtherError => Undecided(before, after, "provider_start_indeterminate", now)
      case MappingError(code) => Undecided(before, after, "provider_start_" + SafeReason(code), now)
      case Snapshot(outcome, providerJobId, _, _) =>
        if outcome != OutcomePolling then Concluded(before, after, reply, now)
        else if providerJobId.Some? && providerJobId.value != "" then
          DueAgain(before, after, providerJobId, now + w.pollInterval, now)
        else Undecided(before, after, "provider_start_job_id_missing", now)
  }

  /** How a poll leaves the record. */
  predicate PolledAs(before: Job, after: Job, w: Setting, known: Option<string>, reply: Reply, now: Time) {
    if !w.hasProvider || known.None? || known.value == "" then Undecided(before, after, "provider_job_unavailable", now)
    else match reply
      case OtherError => DueAgain(before, after, before.providerJobId, now + w.pollInterval, now)
      case MappingError(code) =>
        if SafeReason(code) == "provider_status_authorization_unavailable" then
          DueAgain(before, after, before.providerJobId, now + w.pollInterval, now)
        else Undecided(before, after, "provider_poll_" + SafeReason(code), now)
      case Snapshot(outcome, _, _, _) =>
        if outcome != OutcomePolling then Concluded(before, after, reply, now)
        else DueAgain(before, after, before.providerJobId, now + w.pollInterval, now)
  }

  /** A handler's outcome: of _start or of _poll. */
  predicate HandledAs(before: Job, after: Job, starts: bool, known: Option<string>, w: Setting, reply: Reply, now: Time) {
    if starts then StartedAs(before, after, w, reply, now) else PolledAs(before, after, w, known, reply, now)
  }

  /** The worker holds the job for a start, or for a poll. */
  predicate Holds(j: Job, starts: bool, worker: string, now: Time) {
    && j.leaseOwner == Some(worker) && j.leaseExpiresAt.Some? && j.leaseExpiresAt.value > now
    && j.status == if starts then Starting else Polling
  }

  /** A snapshot that says how the job ended, accepted. */
  lemma AcceptedLeaves(jobs: Jobs, j: Job, w: Setting, phase: string, reply: Reply, now: Time)
    requires j.id in jobs && LeaseOwned(jobs[j.id], w.worker, now) && reply.Snapshot? && reply.outcome != OutcomePolling
    ensures var after := Next(jobs, AcceptSnapshot(j, w, phase, reply, now));
            && j.id in after && after == jobs[j.id := after[j.id]]
            && Concluded(jobs[j.id], after[j.id], reply, now)
  {
  }

  lemma StartLeaves(jobs: Jobs, j: Job, w: Setting, reply: Reply, now: Time)
    requires j.id in jobs && Holds(jobs[j.id], true, w.worker, now)
    ensures var after := Next(jobs, StartReaction(j, w, reply, now));
            && j.id in after && after == jobs[j.id := after[j.id]]
            && StartedAs(jobs[j.id], after[j.id], w, reply, now)
  {
    assert "provider_" + "start" + "_job_id_missing" == "provider_start_job_id_missing";
    if reply.Snapshot? && reply.outcome != OutcomePolling { AcceptedLeaves(jobs, j, w, "start", reply, now); }
  }

  lemma PollLeaves(jobs: Jobs, j: Job, w: Setting, reply: Reply, now: Time)
    requires j.id in jobs && Holds(jobs[j.id], false, w.worker, now)
    ensures var after := Next(jobs, PollReaction(j, w, reply, now));
            && j.id in after && after == jobs[j.id := after[j.id]]
            && PolledAs(jobs[j.id], after[j.id], w, j.providerJobId, reply, now)
  {
    if reply.Snapshot? && reply.outcome != OutcomePolling {
      AcceptedLeaves(jobs, j, w, "poll", reply, now);
    } else {
      OpenPollLeaves(jobs, j, w, reply, now);
    }
  }

  lemma OpenPollLeaves(jobs: Jobs, j: Job, w: Setting, reply: Reply, now: Time)
    requires j.id in jobs && Holds(jobs[j.id], false, w.worker, now) && !(reply.Snapshot? && reply.outcome != OutcomePolling)
    ensures var after := Next(jobs, PollReaction(j, w, reply, now));
            && j.id in after && after == jobs[j.id := after[j.id]]
            && PolledAs(jobs[j.id], after[j.id], w, j.providerJobId, reply, now)
  {
  }

  /** Either way the lease is gone, so a second call of the handler is refused. */
  lemma HandledOnce(jobs: Jobs, id: JobId, before: Job, starts: bool, known: Option<string>, w: Setting, reply: Reply,
                    now: Time, again: Call)
    requires id in jobs && HandledAs(before, jobs[id], starts, known, w, reply, now) && NeedsLease(again) && again.id == id
    ensures Next(jobs, again) == jobs
  {
  }

  // ---------------------------------------------------------------- what comes after

  /** Free again: a job claimed for a start or a poll once its lease ran out, one put back from the time it is due on. */
  lemma ClaimableAgain(j: Job, worker: string, now: Time, duration: int, at: Time, t: Time)
    ensures StartEligible(StartClaimed(j, worker, now, duration), t) <==> t >= now + duration
    ensures PollEligible(j, now) && now <= t ==>
              (PollEligible(PollClaimed(j, worker, now, duration), t) <==> t >= now + duration)
    ensures j.status == Polling ==> (PollEligible(Rescheduled(j, now, at), t) <==> t >= at)
    ensures IsTerminal(j.status) ==> !StartEligible(j, t) && !PollEligible(j, t)
    ensures j.status == Queued ==> StartEligible(j, t)
  {
  }

  /** Reopening a job whose result was missing puts it back to polling under its provider job, due at once. */
  lemma ReopeningLeaves(j: Job, now: Time)
    ensures DueAgain(j.(result := None, failure := None), Reopened(j, now), j.providerJobId, now, now)
    ensures PollEligible(Reopened(j, now), now)
  {
  }

  /** What may be reopened: a job that ended undecided for want of its result, under a provider job, as long as no job of the
      same workspace item has succeeded. */
  lemma ReopenableIff(jobs: Jobs, id: JobId)
    ensures Reopenable(jobs, id)
            <==> && id in jobs && jobs[id].status == Indeterminate && Text(jobs[id].providerJobId)
                 && jobs[id].failure.Some? && jobs[id].failure.value in MISSING_MAPPED_RESULT_REASONS
                 && forall k :: k in jobs && jobs[k].status == Succeeded ==>
                      jobs[k].identity.workspace != jobs[id].identity.workspace || jobs[k].identity.item != jobs[id].identity.item
  {
    if id in jobs && SlotSucceeded(jobs, SlotOf(jobs[id])) {
      var k :| k in jobs && jobs[k].status == Succeeded && SlotOf(jobs[k]) == SlotOf(jobs[id]);
    }
    if id in jobs {
      if k :| k in jobs && jobs[k].status == Succeeded && jobs[k].identity.workspace == jobs[id].identity.workspace
              && jobs[k].identity.item == jobs[id].identity.item {
        assert SlotOf(jobs[k]) == SlotOf(jobs[id]);
      }
    }
  }

  lemma SamePrefix(prefix: string, a: string, b: string)
    ensures prefix + a == prefix + b <==> a == b
  {
    if prefix + a == prefix + b {
      assert a == (prefix + a)[|prefix|..] && b == (prefix + b)[|prefix|..];
    }
  }

  /** A poll's reason is none of the start's, nor the plain one. */
  lemma PollReasonsDiffer(code: string)
    ensures "provider_poll_" + code != "provider_start_image_result_url_missing"
    ensures "provider_poll_" + code != "provider_start_video_result_url_missing"
    ensures "provider_poll_" + code != "provider_result_missing"
  {
    assert ("provider_poll_" + code)[9] == 'p';
  }

  lemma MissingImage(code: string)
    ensures "provider_poll_" + code == "provider_poll_image_result_url_missing" <==> code == "image_result_url_missing"
  {
    SamePrefix("provider_poll_", code, "image_result_url_missing");
    assert "provider_poll_" + "image_result_url_missing" == "provider_poll_image_result_url_missing";
  }

  lemma MissingVideo(code: string)
    ensures "provider_poll_" + code == "provider_poll_video_result_url_missing" <==> code == "video_result_url_missing"
  {
    SamePrefix("provider_poll_", code, "video_result_url_missing");
    assert "provider_poll_" + "video_result_url_missing" == "provider_poll_video_result_url_missing";
  }

  lemma AuthorizationReason()
    ensures "provider_poll_" + "provider_status_authorization_unavailable"
            == "provider_poll_provider_status_authorization_unavailable"
  {
  }

  lemma MissingAuthorization(code: string)
    ensures "provider_poll_" + code == "provider_poll_provider_status_authorization_unavailable"
            <==> code == "provider_status_authorization_unavailable"
  {
    SamePrefix("provider_poll_", code, "provider_status_authorization_unavailable");
    AuthorizationReason();
  }

  lemma PollReasonIsReopenedIff(code: string)
    ensures "provider_poll_" + code in MISSING_MAPPED_RESULT_REASONS
            <==> code == "image_result_url_missing" || code == "video_result_url_missing"
                 || code == "provider_status_authorization_unavailable"
  {
    PollReasonsDiffer(code);
    MissingImage(code);
    MissingVideo(code);
    MissingAuthorization(code);
  }

  /** Of the answers to a poll, exactly a success without a result and a mapping error that misses the result's URL leave the
      job to be reopened. */
  lemma ReopenedAfterPollIff(before: Job, after: Job, w: Setting, reply: Reply, now: Time)
    requires w.hasProvider && Text(before.providerJobId) && PolledAs(before, after, w, before.providerJobId, reply, now)
    ensures IsMissingMappedResult(after)
            <==> || (reply.Snapshot? && reply.outcome == OutcomeSucceeded && !Entries(reply.result))
                 || (reply.MappingError? && (SafeReason(reply.reasonCode) == "image_result_url_missing"
                                             || SafeReason(reply.reasonCode) == "video_result_url_missing"))
  {
    if reply.MappingError? { PollReasonIsReopenedIff(SafeReason(reply.reasonCode)); }
  }

  // ---------------------------------------------------------------- the reason code

  /** str.strip().lower(). */
  ghost predicate Normalized(code: string, i: nat, j: nat, text: string) {
    && i <= j <= |code| && IsBlank(code[..i]) && IsBlank(code[j..])
    && (i < j ==> !IsSpace(code[i]) && !IsSpace(code[j - 1]))
    && |text| == j - i && forall k :: 0 <= k < |text| ==> text[k] == Lower(code[i + k])
  }

  lemma {:induction false} LeadingSpaces(s: string) returns (i: nat)
    ensures i <= |s| && DropSpaces(s) == s[i..] && IsBlank(s[..i]) && (i < |s| ==> !IsSpace(s[i]))
  {
    if s != "" && IsSpace(s[0]) {
      var k := LeadingSpaces(s[1..]);
      i := k + 1;
      assert s[1..][k..] == s[i..];
      assert forall n :: 0 < n < i ==> s[n] == s[1..][..k][n - 1];
    } else {
      i := 0;
    }
  }

  lemma {:induction false} TrailingSpaces(s: string) returns (j: nat)
    ensures j <= |s| && DropTrailingSpaces(s) == s[..j] && IsBlank(s[j..]) && (j > 0 ==> !IsSpace(s[j - 1]))
  {
    if s != "" && IsSpace(s[|s| - 1]) {
      var front := s[..|s| - 1];
      j := TrailingSpaces(front);
      assert front[..j] == s[..j];
      assert forall n :: j <= n < |s| - 1 ==> s[n] == front[j..][n - j];
    } else {
      j := |s|;
    }
  }

  /** A reason is the provider's code without surrounding spaces and in lower case, if that is a safe code; otherwise it is
      the one that says that mapping failed. */
  lemma SafeReasonIs(code: string) returns (i: nat, j: nat, text: string)
    ensures Normalized(code, i, j, text)
    ensures SafeReason(code) == if SafeCode(text) then text else "response_mapping_failed"
  {
    i := LeadingSpaces(code);
    var rest := code[i..];
    var k := TrailingSpaces(rest);
    j := i + k;
    var stripped := rest[..k];
    text := seq(|stripped|, n requires 0 <= n < |stripped| => Lower(stripped[n]));
    assert code[j..] == rest[k..];
    if i < j { assert code[i] == rest[0] && code[j - 1] == rest[k - 1] && rest != ""; }
  }
}
