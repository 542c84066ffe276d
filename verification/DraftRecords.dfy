/** Jianying draft records of a conversation: how a patch for one job merges into them. */
module DraftRecords {
  import opened Common

  /** The entries that code reads; `rest` stands for the others. A download URL counts as good when it is https with a
      host. */
  datatype Draft = Draft(
    jobId: Option<string>, status: Option<string>, goodUrl: bool, expireAt: Option<Time>, version: Option<string>, rest: nat)

  /** A stored value is a dictionary or something else. */
  datatype Value = Dict(draft: Draft) | Other(raw: nat)

  type Records = map<string, Value>

  function NonEmpty(o: Option<string>): Option<string> { if o.Some? && o.value != "" then o else None }

  function JobOf(v: Option<Value>): Option<string> {
    if v.Some? && v.value.Dict? then NonEmpty(v.value.draft.jobId) else None
  }

  function StatusOf(v: Option<Value>): Option<string> {
    if v.Some? && v.value.Dict? then NonEmpty(v.value.draft.status) else None
  }

  function Get(records: Records, key: string): Option<Value> { if key in records then Some(records[key]) else None }

  /** _jianying_draft_succeeded_is_valid. */
  predicate ValidSuccess(v: Option<Value>, now: Time) {
    && StatusOf(v) == Some("succeeded") && v.value.draft.goodUrl
    && (v.value.draft.expireAt.Some? ==> v.value.draft.expireAt.value > now)
  }

  function EffectiveStatus(v: Option<Value>, now: Time): Option<string> {
    if StatusOf(v) == Some("succeeded") && !ValidSuccess(v, now) then Some("failed") else StatusOf(v)
  }

  predicate IsTerminal(s: Option<string>) { s == Some("succeeded") || s == Some("failed") || s == Some("timeout") }

  function ActiveRank(s: Option<string>): int {
    if s == Some("running") then 2 else if s == Some("queued") then 1 else 0
  }

  datatype Merge = Merge(record: Option<Draft>, authorized: bool)

  function AsDict(v: Option<Value>): Option<Draft> { if v.Some? && v.value.Dict? then Some(v.value.draft) else None }

  /** _merge_jianying_draft_record. */
  function MergeRecord(current: Option<Value>, incoming: Value, job: string, pendingJob: Option<string>, now: Time): Merge {
    var old_, new_ := AsDict(current), Some(incoming);
    if !incoming.Dict? || JobOf(new_) != Some(job) then Merge(old_, false)
    else if old_.None? then Merge(Some(incoming.draft), true)
    else
      var currentStatus, incomingStatus := StatusOf(current), StatusOf(new_);
      var currentJob := JobOf(current);
      if currentJob != Some(job) && pendingJob != Some(job) then Merge(old_, false)
      else if currentStatus == Some("succeeded") && ValidSuccess(current, now) then
        Merge(old_, currentJob == Some(job) && incomingStatus == Some("succeeded"))
      else if incomingStatus == Some("succeeded") then Merge(Some(incoming.draft), true)
      else if currentJob == Some(job) then
        if IsTerminal(currentStatus) then Merge(old_, incomingStatus == currentStatus)
        else if IsTerminal(incomingStatus) then Merge(Some(incoming.draft), true)
        else if ActiveRank(incomingStatus) >= ActiveRank(currentStatus) then Merge(Some(incoming.draft), true)
        else Merge(old_, false)
      else if pendingJob == Some(job) then Merge(Some(incoming.draft), true)
      else Merge(old_, false)
  }

  /** What the record becomes. */
  function Merged(current: Option<Value>, incoming: Value, job: string, pendingJob: Option<string>, now: Time): Option<Value> {
    var m := MergeRecord(current, incoming, job, pendingJob, now);
    if m.record.Some? then Some(Dict(m.record.value)) else current
  }

  /** unknown < queued < running < failed, timeout < succeeded. */
  function Rank(v: Option<Value>): int {
    var s := StatusOf(v);
    if s == Some("succeeded") then 4
    else if s == Some("failed") || s == Some("timeout") then 3
    else ActiveRank(s)
  }

  // ---------------------------------------------------------------- one record

  lemma UnauthorizedKeeps(current: Option<Value>, incoming: Value, job: string, pendingJob: Option<string>, now: Time)
    requires !MergeRecord(current, incoming, job, pendingJob, now).authorized
    ensures Merged(current, incoming, job, pendingJob, now) == current
  {
  }

  /** A success with a good download URL counts until the moment it expires, for good if it has none; any other one never does,
      and counts as failed. */
  lemma ValidUntilExpiry(v: Option<Value>, now: Time)
    requires StatusOf(v) == Some("succeeded")
    ensures ValidSuccess(v, now) <==> v.value.draft.goodUrl && (v.value.draft.expireAt.None? || now < v.value.draft.expireAt.value)
    ensures EffectiveStatus(v, now) == Some(if ValidSuccess(v, now) then "succeeded" else "failed")
  {
  }

  /** The incoming record, a dictionary of the job, replaces the stored one: if there is none; and unless a valid success is
      stored, if the record is the job's own or its job is pending, whenever it is a success, comes from another job, or comes
      no lower in rank on a record that has not ended. Nothing else replaces it. */
  predicate Takes(current: Option<Value>, incoming: Value, job: string, pendingJob: Option<string>, now: Time) {
    && JobOf(Some(incoming)) == Some(job)
    && (AsDict(current).Some? ==>
          && !ValidSuccess(current, now) && (JobOf(current) == Some(job) || pendingJob == Some(job))
          && (|| StatusOf(Some(incoming)) == Some("succeeded")
              || JobOf(current) != Some(job)
              || (!IsTerminal(StatusOf(current)) && Rank(Some(incoming)) >= Rank(current))))
  }

  /** A report takes effect exactly when it should, and is authorized exactly when it takes effect or repeats the end that its
      own job's record already has. */
  lemma MergeTakesIff(current: Option<Value>, incoming: Value, job: string, pendingJob: Option<string>, now: Time)
    ensures Merged(current, incoming, job, pendingJob, now) ==
            if Takes(current, incoming, job, pendingJob, now) then Some(incoming) else current
    ensures MergeRecord(current, incoming, job, pendingJob, now).authorized
            <==> || Takes(current, incoming, job, pendingJob, now)
                 || (JobOf(Some(incoming)) == Some(job) == JobOf(current)
                     && IsTerminal(StatusOf(current)) && StatusOf(Some(incoming)) == StatusOf(current))
  {
  }

  /** While the record stays with its job, its rank never falls. */
  lemma RankNeverFalls(current: Option<Value>, incoming: Value, job: string, pendingJob: Option<string>, now: Time)
    requires JobOf(current).Some? && JobOf(Merged(current, incoming, job, pendingJob, now)) == JobOf(current)
    ensures Rank(Merged(current, incoming, job, pendingJob, now)) >= Rank(current)
  {
  }

  /** A success that is still valid is never displaced, by any job. */
  lemma ValidSuccessKeeps(current: Option<Value>, incoming: Value, job: string, pendingJob: Option<string>, now: Time)
    requires ValidSuccess(current, now)
    ensures Merged(current, incoming, job, pendingJob, now) == current
  {
  }

  /** A record changes hands only to the job that is pending, or when there was none. */
  lemma OnlyPendingTakesOver(current: Option<Value>, incoming: Value, job: string, pendingJob: Option<string>, now: Time)
    requires Merged(current, incoming, job, pendingJob, now) != current
    ensures JobOf(Merged(current, incoming, job, pendingJob, now)) == Some(job)
    ensures AsDict(current).None? || JobOf(current) == Some(job) || pendingJob == Some(job)
  {
  }

  /** Merging the same record again, with the job no longer pending, changes nothing and is authorized as before. */
  lemma MergeTwice(current: Option<Value>, incoming: Value, job: string, pendingJob: Option<string>, now: Time)
    ensures var once := Merged(current, incoming, job, pendingJob, now);
            var again := if pendingJob == Some(job) then None else pendingJob;
            && Merged(once, incoming, job, again, now) == once
            && MergeRecord(once, incoming, job, again, now).authorized == MergeRecord(current, incoming, job, pendingJob, now).authorized
  {
  }
}
