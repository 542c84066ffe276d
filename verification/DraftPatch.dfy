/** The whole patch of a conversation's draft context: records, pending job, phase and resume error. */
module DraftPatch {
  import opened Common
  import opened DraftRecords

  /** The five context entries, each of the two records and pending entries under a snake-case and a camel-case name. An
      entry may be absent, or hold no dictionary. */
  datatype Context = Context(
    recordsSnake: Option<Records>, recordsCamel: Option<Records>,
    pendingSnake: Option<Draft>, pendingCamel: Option<Draft>,
    resumeError: Option<string>, rest: nat)

  datatype ErrorPatch = Unset | SetTo(error: Option<string>)

  datatype Patch = Patch(
    requestedPhase: string, job: string, pending: Option<Draft>, records: Records, resumeError: ErrorPatch)

  function RecordsIn(o: Option<Records>): Records { if o.Some? then o.value else map[] }

  /** The records that count: camel-case entries win. */
  function RecordsOf(c: Context): Records { RecordsIn(c.recordsSnake) + RecordsIn(c.recordsCamel) }

  function PendingOf(c: Context): Option<Draft> { if c.pendingCamel.Some? then c.pendingCamel else c.pendingSnake }

  function PendingJob(pending: Option<Draft>): Option<string> { if pending.Some? then NonEmpty(pending.value.jobId) else None }

  function MergedAt(records: Records, p: Patch, key: string, pendingJob: Option<string>, now: Time): Option<Value> {
    if key in p.records then Merged(Get(records, key), p.records[key], p.job, pendingJob, now) else Get(records, key)
  }

  predicate AuthorizedAt(records: Records, p: Patch, key: string, pendingJob: Option<string>, now: Time) {
    key in p.records && MergeRecord(Get(records, key), p.records[key], p.job, pendingJob, now).authorized
  }

  function MergedRecords(records: Records, p: Patch, pendingJob: Option<string>, now: Time): Records {
    map key | key in records.Keys + p.records.Keys && MergedAt(records, p, key, pendingJob, now).Some? ::
      MergedAt(records, p, key, pendingJob, now).value
  }

  predicate RecordsAuthorized(records: Records, p: Patch, pendingJob: Option<string>, now: Time) {
    exists key :: key in p.records && AuthorizedAt(records, p, key, pendingJob, now)
  }

  /** _can_set_jianying_draft_pending. */
  predicate CanSetPending(pending: Draft, job: string, pendingJob: Option<string>, records: Records, now: Time) {
    && NonEmpty(pending.jobId) == Some(job)
    && (pendingJob.None? || pendingJob == Some(job))
    && NonEmpty(pending.version).Some?
    && var record := Get(records, pending.version.value);
       && !(StatusOf(record) == Some("succeeded") && ValidSuccess(record, now))
       && !(JobOf(record) == Some(job) && IsTerminal(StatusOf(record)))
  }

  function ResolvedPending(current: Option<Draft>, p: Patch, records: Records, now: Time): Option<Draft> {
    if p.pending.None? then (if PendingJob(current) == Some(p.job) then None else current)
    else if CanSetPending(p.pending.value, p.job, PendingJob(current), records, now) then p.pending
    else current
  }

  predicate PendingAuthorized(current: Option<Draft>, p: Patch, records: Records, now: Time) {
    if p.pending.None? then PendingJob(current) == Some(p.job)
    else CanSetPending(p.pending.value, p.job, PendingJob(current), records, now)
  }

  predicate Authorized(c: Context, p: Patch, now: Time) {
    var pendingJob := PendingJob(PendingOf(c));
    || RecordsAuthorized(RecordsOf(c), p, pendingJob, now)
    || PendingAuthorized(PendingOf(c), p, MergedRecords(RecordsOf(c), p, pendingJob, now), now)
  }

  predicate SomeStatus(records: Records, keys: set<string>, status: string, now: Time) {
    exists key :: key in keys && EffectiveStatus(Get(records, key), now) == Some(status)
  }

  /** _jianying_draft_phase_after_patch. */
  function PhaseAfter(current: string, p: Patch, pending: Option<Draft>, records: Records, authorized: bool, now: Time): string {
    if !authorized then current
    else if PendingJob(pending).Some? then
      if PendingJob(pending) == Some(p.job) then "jianying_draft_running" else current
    else if SomeStatus(records, p.records.Keys, "succeeded", now) then "jianying_draft_succeeded"
    else if SomeStatus(records, p.records.Keys, "failed", now) then "jianying_draft_failed"
    else if SomeStatus(records, p.records.Keys, "timeout", now) then "jianying_draft_timeout"
    else p.requestedPhase
  }

  datatype Patched = Patched(context: Context, phase: string)

  /** _patch_jianying_draft_context. */
  function Apply(c: Context, phase: string, p: Patch, now: Time): Patched {
    var records := MergedRecords(RecordsOf(c), p, PendingJob(PendingOf(c)), now);
    var pending := ResolvedPending(PendingOf(c), p, records, now);
    var authorized := Authorized(c, p, now);
    Patched(
      c.(recordsSnake := Some(records), recordsCamel := Some(records), pendingSnake := pending, pendingCamel := pending,
         resumeError := if authorized && p.resumeError.SetTo? then p.resumeError.error else c.resumeError),
      PhaseAfter(phase, p, pending, records, authorized, now))
  }

  // ---------------------------------------------------------------- theorems about one patch

  lemma AppliedRecords(c: Context, phase: string, p: Patch, now: Time, key: string)
    ensures Get(RecordsOf(Apply(c, phase, p, now).context), key) ==
            MergedAt(RecordsOf(c), p, key, PendingJob(PendingOf(c)), now)
  {
    var records := RecordsOf(c);
    if key !in records && key in p.records {
    }
  }

  /** A patch that nothing authorizes leaves the records, the pending job, the phase and the resume error as they were. */
  lemma UnauthorizedChangesNothing(c: Context, phase: string, p: Patch, now: Time)
    requires !Authorized(c, p, now)
    ensures var after := Apply(c, phase, p, now);
            && RecordsOf(after.context) == RecordsOf(c) && PendingOf(after.context) == PendingOf(c)
            && after.context.resumeError == c.resumeError && after.phase == phase && after.context.rest == c.rest
  {
    var records, pendingJob := RecordsOf(c), PendingJob(PendingOf(c));
    forall key ensures MergedAt(records, p, key, pendingJob, now) == Get(records, key) {
      if key in p.records {
        assert !AuthorizedAt(records, p, key, pendingJob, now);
        UnauthorizedKeeps(Get(records, key), p.records[key], p.job, pendingJob, now);
      }
    }
    assert MergedRecords(records, p, pendingJob, now) == records;
  }

  /** The pending entry of another job is never displaced. */
  lemma OtherPendingStays(c: Context, phase: string, p: Patch, now: Time)
    requires PendingJob(PendingOf(c)).Some? && PendingJob(PendingOf(c)) != Some(p.job)
    ensures PendingOf(Apply(c, phase, p, now).context) == PendingOf(c)
  {
  }

  predicate NamesValidSuccess(records: Records, p: Patch, now: Time) {
    exists key :: key in p.records && ValidSuccess(Get(records, key), now)
  }

  /** No record that the patch names has ended, successfully or not. */
  predicate NamesNoneEnded(records: Records, p: Patch, now: Time) {
    forall key :: key in p.records ==> !IsTerminal(EffectiveStatus(Get(records, key), now))
  }

  /** What decides on the last branch of the phase: the patch is authorized, no job is pending once it is merged, and no
      record it names has ended once it is merged. */
  predicate LetThrough(c: Context, p: Patch, now: Time) {
    var merged := MergedRecords(RecordsOf(c), p, PendingJob(PendingOf(c)), now);
    && Authorized(c, p, now)
    && PendingJob(ResolvedPending(PendingOf(c), p, merged, now)).None?
    && NamesNoneEnded(merged, p, now)
  }

  lemma NamedStatuses(records: Records, p: Patch, now: Time)
    ensures SomeStatus(records, p.records.Keys, "succeeded", now) <==> NamesValidSuccess(records, p, now)
    ensures NamesNoneEnded(records, p, now) <==>
            forall status :: status in {"succeeded", "failed", "timeout"} ==>
              !SomeStatus(records, p.records.Keys, status, now)
  {
    if SomeStatus(records, p.records.Keys, "succeeded", now) {
      var key :| key in p.records.Keys && EffectiveStatus(Get(records, key), now) == Some("succeeded");
      assert ValidSuccess(Get(records, key), now);
    }
    if NamesValidSuccess(records, p, now) {
      var key :| key in p.records && ValidSuccess(Get(records, key), now);
      assert EffectiveStatus(Get(records, key), now) == Some("succeeded");
    }
    if !NamesNoneEnded(records, p, now) {
      var key :| key in p.records && IsTerminal(EffectiveStatus(Get(records, key), now));
      var status := EffectiveStatus(Get(records, key), now).value;
      assert SomeStatus(records, p.records.Keys, status, now);
    }
  }

  /** A patch moves the phase to succeeded over no valid success among the records it names, or to running over no pending
      job of its own, if and only if its caller asked for just that, it is authorized, no job is pending after it and no
      record that it names has ended. */
  lemma PhaseIsUnbackedIff(c: Context, phase: string, p: Patch, now: Time)
    ensures var after := Apply(c, phase, p, now);
            && (after.phase == "jianying_draft_succeeded" != phase && !NamesValidSuccess(RecordsOf(after.context), p, now)
                <==> p.requestedPhase == "jianying_draft_succeeded" != phase && LetThrough(c, p, now))
            && (after.phase == "jianying_draft_running" != phase && PendingJob(PendingOf(after.context)) != Some(p.job)
                <==> p.requestedPhase == "jianying_draft_running" != phase && LetThrough(c, p, now))
  {
    var after := Apply(c, phase, p, now);
    assert RecordsOf(after.context) == MergedRecords(RecordsOf(c), p, PendingJob(PendingOf(c)), now);
    NamedStatuses(RecordsOf(after.context), p, now);
  }

  /** Some record that the patch names has this status, or a success that is not valid any more counts as failed. */
  predicate NamesFailure(records: Records, p: Patch, now: Time) {
    exists key :: key in p.records && (StatusOf(Get(records, key)) == Some("failed")
                                       || (StatusOf(Get(records, key)) == Some("succeeded") && !ValidSuccess(Get(records, key), now)))
  }

  predicate NamesTimeout(records: Records, p: Patch) {
    exists key :: key in p.records && StatusOf(Get(records, key)) == Some("timeout")
  }

  lemma FailureIsNamed(records: Records, p: Patch, now: Time)
    ensures SomeStatus(records, p.records.Keys, "failed", now) <==> NamesFailure(records, p, now)
    ensures SomeStatus(records, p.records.Keys, "timeout", now) <==> NamesTimeout(records, p)
  {
    if key :| key in p.records.Keys && EffectiveStatus(Get(records, key), now) == Some("failed") { assert key in p.records; }
    if key :| key in p.records.Keys && EffectiveStatus(Get(records, key), now) == Some("timeout") { assert key in p.records; }
    if key :| key in p.records && (StatusOf(Get(records, key)) == Some("failed")
                                   || (StatusOf(Get(records, key)) == Some("succeeded") && !ValidSuccess(Get(records, key), now))) {
      assert EffectiveStatus(Get(records, key), now) == Some("failed");
    }
    if key :| key in p.records && StatusOf(Get(records, key)) == Some("timeout") {
      assert EffectiveStatus(Get(records, key), now) == Some("timeout");
    }
  }

  /** What the phase says after a patch: nothing new without authorization or while another job is pending; running while the
      patch's own job is; else the best end among the records it names, a valid success before a failure before a timeout; else
      what was asked for. The resume error is set exactly when the patch carries one and is authorized. */
  lemma PhaseTells(c: Context, phase: string, p: Patch, now: Time)
    ensures var after := Apply(c, phase, p, now);
            var pendingJob, records := PendingJob(PendingOf(after.context)), RecordsOf(after.context);
            && after.phase == (if !Authorized(c, p, now) then phase
                               else if pendingJob == Some(p.job) then "jianying_draft_running"
                               else if pendingJob.Some? then phase
                               else if NamesValidSuccess(records, p, now) then "jianying_draft_succeeded"
                               else if NamesFailure(records, p, now) then "jianying_draft_failed"
                               else if NamesTimeout(records, p) then "jianying_draft_timeout"
                               else p.requestedPhase)
            && after.context.resumeError == (if Authorized(c, p, now) && p.resumeError.SetTo? then p.resumeError.error
                                             else c.resumeError)
            && after.context.rest == c.rest
  {
    var after := Apply(c, phase, p, now);
    assert RecordsOf(after.context) == MergedRecords(RecordsOf(c), p, PendingJob(PendingOf(c)), now);
    NamedStatuses(RecordsOf(after.context), p, now);
    FailureIsNamed(RecordsOf(after.context), p, now);
  }

  /** The pending entry may be set: it is the patch's own, names a record, no other job is pending, and that record, once
      merged, is neither a valid success nor ended for this job. */
  predicate MaySetPending(pending: Draft, p: Patch, pendingJob: Option<string>, records: Records, now: Time) {
    && pending.jobId == Some(p.job) && p.job != ""
    && (pendingJob.Some? ==> pendingJob == Some(p.job))
    && pending.version.Some? && pending.version.value != ""
    && var record := Get(records, pending.version.value);
       !ValidSuccess(record, now) && !(JobOf(record) == Some(p.job) && IsTerminal(StatusOf(record)))
  }

  /** What becomes of the pending entry and of each record, and when a patch is authorized. Camel-case entries count before
      snake-case ones, and afterwards both names hold the same. */
  lemma PatchTells(c: Context, phase: string, p: Patch, now: Time)
    ensures var after := Apply(c, phase, p, now).context;
            var pendingJob, records := PendingJob(PendingOf(c)), RecordsOf(after);
            && after.recordsSnake == after.recordsCamel && after.pendingSnake == after.pendingCamel
            && PendingOf(after) == (if p.pending.None? then (if pendingJob == Some(p.job) then None else PendingOf(c))
                                    else if MaySetPending(p.pending.value, p, pendingJob, records, now) then p.pending
                                    else PendingOf(c))
            && (forall key :: Get(records, key) ==
                  if key in p.records && Takes(Get(RecordsOf(c), key), p.records[key], p.job, pendingJob, now)
                  then Some(p.records[key]) else Get(RecordsOf(c), key))
            && (Authorized(c, p, now)
                <==> || RecordsAuthorized(RecordsOf(c), p, pendingJob, now)
                     || (if p.pending.None? then pendingJob == Some(p.job)
                         else MaySetPending(p.pending.value, p, pendingJob, records, now)))
            && (forall key :: Get(RecordsOf(c), key) == if c.recordsCamel.Some? && key in c.recordsCamel.value
                                                        then Get(c.recordsCamel.value, key)
                                                        else if c.recordsSnake.Some? then Get(c.recordsSnake.value, key) else None)
            && PendingOf(c) == (if c.pendingCamel.Some? then c.pendingCamel else c.pendingSnake)
  {
    var after := Apply(c, phase, p, now).context;
    assert RecordsOf(after) == MergedRecords(RecordsOf(c), p, PendingJob(PendingOf(c)), now);
    forall key
      ensures Get(RecordsOf(after), key) ==
        if key in p.records && Takes(Get(RecordsOf(c), key), p.records[key], p.job, PendingJob(PendingOf(c)), now)
        then Some(p.records[key]) else Get(RecordsOf(c), key)
    {
      AppliedRecords(c, phase, p, now, key);
      if key in p.records { MergeTakesIff(Get(RecordsOf(c), key), p.records[key], p.job, PendingJob(PendingOf(c)), now); }
    }
  }

  /** Such a patch: it closes the pending job "j", names no record and asks for succeeded. */
  lemma SuccessWithoutRecord(now: Time)
    ensures var pending := Draft(Some("j"), Some("running"), false, None, Some("v"), 0);
            var c := Context(None, None, Some(pending), Some(pending), None, 0);
            var p := Patch("jianying_draft_succeeded", "j", None, map[], Unset);
            var after := Apply(c, "jianying_draft_running", p, now);
            after.phase == "jianying_draft_succeeded" && RecordsOf(after.context) == map[]
  {
    var pending := Draft(Some("j"), Some("running"), false, None, Some("v"), 0);
    var c := Context(None, None, Some(pending), Some(pending), None, 0);
    var p := Patch("jianying_draft_succeeded", "j", None, map[], Unset);
    assert PendingJob(PendingOf(c)) == Some("j");
    assert MergedRecords(RecordsOf(c), p, Some("j"), now) == map[];
  }

  /** A patch that carries no pending job, applied twice at one instant, is as good as applied once. */
  lemma ClosingPatchIsIdempotent(c: Context, phase: string, p: Patch, now: Time)
    requires p.pending.None?
    ensures var once := Apply(c, phase, p, now); Apply(once.context, once.phase, p, now) == once
  {
    var records, current := RecordsOf(c), PendingOf(c);
    var pendingJob := PendingJob(current);
    var once := Apply(c, phase, p, now);
    var merged := RecordsOf(once.context);
    var pending := PendingOf(once.context);
    assert merged == MergedRecords(records, p, pendingJob, now);
    assert PendingJob(pending) == if pendingJob == Some(p.job) then None else pendingJob;
    RecordsMergeOnce(records, p, pendingJob, now);
    assert !PendingAuthorized(pending, p, merged, now);
  }

  /** Merged again, with the job no longer pending, the records stay, and what they authorize stays. */
  lemma RecordsMergeOnce(records: Records, p: Patch, pendingJob: Option<string>, now: Time)
    ensures var merged, again := MergedRecords(records, p, pendingJob, now), if pendingJob == Some(p.job) then None else pendingJob;
            && MergedRecords(merged, p, again, now) == merged
            && (RecordsAuthorized(merged, p, again, now) <==> RecordsAuthorized(records, p, pendingJob, now))
  {
    var merged, again := MergedRecords(records, p, pendingJob, now), if pendingJob == Some(p.job) then None else pendingJob;
    forall key ensures MergedAt(merged, p, key, again, now) == Get(merged, key)
                       && AuthorizedAt(merged, p, key, again, now) == AuthorizedAt(records, p, key, pendingJob, now)
    {
      assert Get(merged, key) == MergedAt(records, p, key, pendingJob, now);
      if key in p.records { MergeTwice(Get(records, key), p.records[key], p.job, pendingJob, now); }
    }
    assert forall key :: key in merged <==> Get(merged, key).Some?;
  }

  // ---------------------------------------------------------------- runs of patches

  datatype Stamped = Stamped(patch: Patch, now: Time)

  function ApplyAll(c: Context, phase: string, patches: seq<Stamped>): Patched
    decreases |patches|
  {
    if patches == [] then Patched(c, phase)
    else
      var first := Apply(c, phase, patches[0].patch, patches[0].now);
      ApplyAll(first.context, first.phase, patches[1..])
  }

  /** A success stays in place, untouched, through any patches by any jobs until it expires. */
  lemma {:induction false} SuccessStaysUntilExpiry(c: Context, phase: string, patches: seq<Stamped>, key: string)
    requires forall i :: 0 <= i < |patches| ==> ValidSuccess(Get(RecordsOf(c), key), patches[i].now)
    ensures Get(RecordsOf(ApplyAll(c, phase, patches).context), key) == Get(RecordsOf(c), key)
    decreases |patches|
  {
    if patches != [] {
      var p, now := patches[0].patch, patches[0].now;
      var first := Apply(c, phase, p, now);
      AppliedRecords(c, phase, p, now, key);
      if key in p.records {
        ValidSuccessKeeps(Get(RecordsOf(c), key), p.records[key], p.job, PendingJob(PendingOf(c)), now);
      }
      SuccessStaysUntilExpiry(first.context, first.phase, patches[1..], key);
    }
  }

  /** The record belongs to the job before and after every patch. */
  predicate StaysWith(c: Context, phase: string, patches: seq<Stamped>, key: string, job: string)
    decreases |patches|
  {
    && JobOf(Get(RecordsOf(c), key)) == Some(job)
    && (patches != [] ==>
          var first := Apply(c, phase, patches[0].patch, patches[0].now);
          StaysWith(first.context, first.phase, patches[1..], key, job))
  }

  /** As long as a record stays with its job, its rank only grows, whatever order the reports arrive in. */
  lemma {:induction false} RankGrowsOverRuns(c: Context, phase: string, patches: seq<Stamped>, key: string, job: string)
    requires StaysWith(c, phase, patches, key, job)
    ensures Rank(Get(RecordsOf(ApplyAll(c, phase, patches).context), key)) >= Rank(Get(RecordsOf(c), key))
    decreases |patches|
  {
    if patches != [] {
      var p, now := patches[0].patch, patches[0].now;
      var first := Apply(c, phase, p, now);
      AppliedRecords(c, phase, p, now, key);
      assert JobOf(Get(RecordsOf(first.context), key)) == Some(job);
      if key in p.records {
        RankNeverFalls(Get(RecordsOf(c), key), p.records[key], p.job, PendingJob(PendingOf(c)), now);
      }
      RankGrowsOverRuns(first.context, first.phase, patches[1..], key, job);
    }
  }

  /** The pending entry of a job stays through any patches for other jobs. */
  lemma {:induction false} PendingStaysOverRuns(c: Context, phase: string, patches: seq<Stamped>)
    requires PendingJob(PendingOf(c)).Some?
    requires forall i :: 0 <= i < |patches| ==> PendingJob(PendingOf(c)) != Some(patches[i].patch.job)
    ensures PendingOf(ApplyAll(c, phase, patches).context) == PendingOf(c)
    decreases |patches|
  {
    if patches != [] {
      var first := Apply(c, phase, patches[0].patch, patches[0].now);
      OtherPendingStays(c, phase, patches[0].patch, patches[0].now);
      PendingStaysOverRuns(first.context, first.phase, patches[1..]);
    }
  }

  /** No patch is for the job, and none is for the job that is pending when it comes. */
  predicate Strangers(c: Context, phase: string, patches: seq<Stamped>, job: Option<string>)
    decreases |patches|
  {
    patches != [] ==>
      var p, now := patches[0].patch, patches[0].now;
      var first := Apply(c, phase, p, now);
      Some(p.job) != job && PendingJob(PendingOf(c)) != Some(p.job) && Strangers(first.context, first.phase, patches[1..], job)
  }

  /** A record changes, and changes hands, only by a patch for its own job or for the job pending at the time: any other
      patches, in any number, leave it as it is. */
  lemma {:induction false} StrangersLeaveRecord(c: Context, phase: string, patches: seq<Stamped>, key: string)
    requires AsDict(Get(RecordsOf(c), key)).Some? && Strangers(c, phase, patches, JobOf(Get(RecordsOf(c), key)))
    ensures Get(RecordsOf(ApplyAll(c, phase, patches).context), key) == Get(RecordsOf(c), key)
    decreases |patches|
  {
    if patches != [] {
      var p, now := patches[0].patch, patches[0].now;
      var first := Apply(c, phase, p, now);
      var current, pendingJob := Get(RecordsOf(c), key), PendingJob(PendingOf(c));
      AppliedRecords(c, phase, p, now, key);
      if key in p.records && Merged(current, p.records[key], p.job, pendingJob, now) != current {
        OnlyPendingTakesOver(current, p.records[key], p.job, pendingJob, now);
        assert false;
      }
      StrangersLeaveRecord(first.context, first.phase, patches[1..], key);
    }
  }

  // ---------------------------------------------------------------- the loop of the source

  /** The records of these keys are merged, the others untouched. */
  ghost predicate MergedFor(current: Records, merged: Records, p: Patch, keys: set<string>, pendingJob: Option<string>, now: Time) {
    forall key :: Get(merged, key) == (if key in keys then MergedAt(current, p, key, pendingJob, now) else Get(current, key))
  }

  lemma MergeOneMore(current: Records, merged: Records, p: Patch, keys: set<string>, pendingJob: Option<string>, now: Time, key: string)
    requires MergedFor(current, merged, p, keys, pendingJob, now) && key in p.records && key !in keys
    ensures var m := MergeRecord(Get(merged, key), p.records[key], p.job, pendingJob, now);
            && MergedFor(current, if m.record.Some? then merged[key := Dict(m.record.value)] else merged, p, keys + {key}, pendingJob, now)
            && (m.authorized <==> AuthorizedAt(current, p, key, pendingJob, now))
  {
    assert Get(merged, key) == Get(current, key);
    var m := MergeRecord(Get(merged, key), p.records[key], p.job, pendingJob, now);
    var after := if m.record.Some? then merged[key := Dict(m.record.value)] else merged;
    assert Get(after, key) == MergedAt(current, p, key, pendingJob, now);
    assert forall k :: k != key ==> Get(after, k) == Get(merged, k);
  }

  lemma MergedForAll(current: Records, merged: Records, p: Patch, pendingJob: Option<string>, now: Time)
    requires MergedFor(current, merged, p, p.records.Keys, pendingJob, now)
    ensures merged == MergedRecords(current, p, pendingJob, now)
  {
    assert forall key :: Get(merged, key) == MergedAt(current, p, key, pendingJob, now);
    assert forall key :: key in merged <==> Get(merged, key).Some?;
  }

  /** The loop over the incoming records, in any order of the dictionary. */
  method MergeLoop(current: Records, p: Patch, pendingJob: Option<string>, now: Time) returns (merged: Records, authorized: bool)
    ensures merged == MergedRecords(current, p, pendingJob, now)
    ensures authorized <==> RecordsAuthorized(current, p, pendingJob, now)
  {
    merged, authorized := current, false;
    var rest := p.records.Keys;
    while rest != {}
      invariant rest <= p.records.Keys && MergedFor(current, merged, p, p.records.Keys - rest, pendingJob, now)
      invariant authorized <==> exists key :: key in p.records.Keys - rest && AuthorizedAt(current, p, key, pendingJob, now)
      decreases |rest|
    {
      var key :| key in rest;
      MergeOneMore(current, merged, p, p.records.Keys - rest, pendingJob, now, key);
      assert p.records.Keys - rest + {key} == p.records.Keys - (rest - {key});
      var m := MergeRecord(Get(merged, key), p.records[key], p.job, pendingJob, now);
      if m.record.Some? { merged := merged[key := Dict(m.record.value)]; }
      authorized := authorized || m.authorized;
      rest := rest - {key};
    }
    assert p.records.Keys - rest == p.records.Keys;
    MergedForAll(current, merged, p, pendingJob, now);
  }

  /** _patch_jianying_draft_context as written. */
  method PatchDraftContext(c: Context, phase: string, p: Patch, now: Time) returns (r: Patched)
    ensures r == Apply(c, phase, p, now)
  {
    var pendingJob := PendingJob(PendingOf(c));
    var merged, authorized := MergeLoop(RecordsOf(c), p, pendingJob, now);
    var pending := PendingOf(c);
    if p.pending.None? {
      if pendingJob == Some(p.job) { pending, authorized := None, true; }
    } else if CanSetPending(p.pending.value, p.job, pendingJob, merged, now) {
      pending, authorized := p.pending, true;
    }
    var context := c.(recordsSnake := Some(merged), recordsCamel := Some(merged), pendingSnake := pending, pendingCamel := pending);
    if authorized && p.resumeError.SetTo? { context := context.(resumeError := p.resumeError.error); }
    r := Patched(context, PhaseAfter(phase, p, pending, merged, authorized, now));
  }
}
