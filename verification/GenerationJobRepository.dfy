/** MemoryGenerationJobRepository (an insertion-ordered dictionary of records) and the worker's scan over it. */
module GenerationJobRepository {
  import opened Common
  import opened GenerationJobState
  import opened GenerationJobReactions
  import opened GenerationJobReopening
  import opened GenerationJobRuns

  /** The first `limit` members of `wanted`, in dictionary order. */
  function FirstOf(order: seq<JobId>, wanted: set<JobId>, limit: nat): seq<JobId> {
    if order == [] || limit == 0 then []
    else if order[0] in wanted then [order[0]] + FirstOf(order[1..], wanted, limit - 1)
    else FirstOf(order[1..], wanted, limit)
  }

  function StartCandidates(jobs: Jobs, now: Time): set<JobId> {
    set id | id in jobs && StartEligible(jobs[id], now)
  }

  function PollCandidates(jobs: Jobs, now: Time): set<JobId> {
    set id | id in jobs && PollEligible(jobs[id], now)
  }

  predicate Distinct(ids: seq<JobId>) { forall i, k :: 0 <= i < k < |ids| ==> ids[i] != ids[k] }

  function Members(ids: seq<JobId>): set<JobId> { set id | id in ids }

  lemma {:induction false} FirstOfBounds(order: seq<JobId>, wanted: set<JobId>, limit: nat)
    requires Distinct(order)
    ensures var f := FirstOf(order, wanted, limit);
            |f| <= limit && Distinct(f) && forall id :: id in f ==> id in wanted && id in order
  {
    if order != [] && limit > 0 {
      FirstOfBounds(order[1..], wanted, if order[0] in wanted then limit - 1 else limit);
    }
  }

  /** The wanted ids before the i-th, one id at a time. */
  lemma WantedBefore(order: seq<JobId>, wanted: set<JobId>, i: nat)
    requires Distinct(order) && 0 < i <= |order|
    ensures |Members(order[..i]) * wanted| == |Members(order[1..][..i - 1]) * wanted| + if order[0] in wanted then 1 else 0
  {
    var first, rest := order[0], order[1..];
    assert order[..i] == [first] + rest[..i - 1];
    assert first !in Members(rest[..i - 1]);
    assert Members(order[..i]) * wanted == (if first in wanted then {first} else {}) + Members(rest[..i - 1]) * wanted;
  }

  /** A wanted id is in the slice exactly when fewer than `limit` wanted ones come before it in the dictionary. */
  lemma {:induction false} FirstOfIsExact(order: seq<JobId>, wanted: set<JobId>, limit: nat, i: nat)
    requires Distinct(order) && i < |order| && order[i] in wanted
    ensures order[i] in FirstOf(order, wanted, limit) <==> |Members(order[..i]) * wanted| < limit
  {
    if limit == 0 {
    } else if i == 0 {
      assert order[..0] == [] && Members(order[..0]) * wanted == {};
    } else {
      FirstOfIsExact(order[1..], wanted, if order[0] in wanted then limit - 1 else limit, i - 1);
      assert order[1..][i - 1] == order[i] && order[0] != order[i];
      WantedBefore(order, wanted, i);
    }
  }

  lemma {:induction false} FirstOfSnoc(order: seq<JobId>, id: JobId, wanted: set<JobId>, limit: nat)
    ensures var f := FirstOf(order, wanted, limit);
            FirstOf(order + [id], wanted, limit) == if |f| < limit && id in wanted then f + [id] else f
    decreases |order|
  {
    if order == [] {
      assert order + [id] == [id];
      assert FirstOf([id][1..], wanted, limit) == [];
      if limit > 0 && id in wanted { assert FirstOf([id][1..], wanted, limit - 1) == []; }
    } else {
      assert (order + [id])[0] == order[0] && (order + [id])[1..] == order[1..] + [id];
      if limit > 0 {
        FirstOfSnoc(order[1..], id, wanted, if order[0] in wanted then limit - 1 else limit);
      }
    }
  }

  function Clamp(limit: int, n: nat): (r: nat)
    ensures r <= n && (0 <= limit ==> r <= limit) && (r == n || r == limit || (r == 0 && limit < 0))
  {
    if limit <= 0 then 0 else if n <= limit then n else limit
  }

  lemma ReopenAnother(jobs: Jobs, now: Time, ids: set<JobId>, id: JobId)
    requires id in jobs && id !in ids
    ensures Next(jobs, Reopen(now, ids))[id] == jobs[id]
    ensures Next(jobs, Reopen(now, ids))[id := Reopened(jobs[id], now)] == Next(jobs, Reopen(now, ids + {id}))
  {
  }

  /** The n-th item's job is a further one. */
  lemma ChooseOne(jobs: Jobs, order: seq<JobId>, wanted: set<JobId>, n: nat)
    requires wanted <= jobs.Keys && n < |SlotsInOrder(jobs, order, wanted)|
    ensures var slots := SlotsInOrder(jobs, order, wanted);
            var newest := Newest(jobs, order, wanted, slots[n]);
            && newest.Some? && newest.value !in Chosen(jobs, order, wanted, slots[..n])
            && Chosen(jobs, order, wanted, slots[..n + 1]) == Chosen(jobs, order, wanted, slots[..n]) + {newest.value}
  {
    var slots := SlotsInOrder(jobs, order, wanted);
    MetIffNewest(jobs, order, wanted, slots[n]);
    assert slots[..n + 1][..n] == slots[..n];
    PrefixIsChosen(jobs, order, wanted, n);
    PrefixIsChosen(jobs, order, wanted, n + 1);
  }

  class MemoryGenerationJobRepository {
    var records: Jobs
    var order: seq<JobId>

    ghost predicate Valid()
      reads this
    {
      && Members(order) == records.Keys && Distinct(order)
      && forall id :: id in records ==> records[id].id == id
    }

    constructor ()
      ensures Valid() && records == map[]
    {
      records, order := map[], [];
    }

    method CreateOrRead(candidate: Job) returns (r: Attempt<Job, ()>)
      requires Valid()
      modifies this
      ensures Valid() && records == Next(old(records), Create(candidate))
      ensures if KeyTaken(old(records), candidate.idempotencyKey) then
                exists id :: id in records && records[id].idempotencyKey == candidate.idempotencyKey
                             && r == if records[id].identity == candidate.identity then Returned(records[id]) else Refused(())
              else r == Returned(candidate)
    {
      var i := 0;
      while i < |order|
        invariant 0 <= i <= |order|
        invariant forall k :: 0 <= k < i ==> records[order[k]].idempotencyKey != candidate.idempotencyKey
      {
        assert order[i] in Members(order);
        var existing := records[order[i]];
        if existing.idempotencyKey == candidate.idempotencyKey {
          assert records[order[i]].idempotencyKey == candidate.idempotencyKey;
          return if existing.identity == candidate.identity then Returned(existing) else Refused(());
        }
        i := i + 1;
      }
      assert !KeyTaken(records, candidate.idempotencyKey) by {
        forall id | id in records ensures records[id].idempotencyKey != candidate.idempotencyKey {
          assert id in Members(order);
        }
      }
      if candidate.id !in records {
        assert candidate.id !in Members(order);
        order := order + [candidate.id];
      }
      records := records[candidate.id := candidate];
      return Returned(candidate);
    }

    /** First `limit` wanted keys in dictionary order. */
    method Take(wanted: set<JobId>, limit: nat) returns (ids: seq<JobId>)
      ensures ids == FirstOf(order, wanted, limit)
    {
      ids := [];
      var i := 0;
      while i < |order|
        invariant 0 <= i <= |order|
        invariant ids == FirstOf(order[..i], wanted, limit)
      {
        FirstOfSnoc(order[..i], order[i], wanted, limit);
        assert order[..i + 1] == order[..i] + [order[i]];
        FirstOfLength(order[..i], wanted, limit);
        if |ids| < limit && order[i] in wanted { ids := ids + [order[i]]; }
        i := i + 1;
      }
      assert order[..i] == order;
    }

    method ClaimStartJobs(worker: string, now: Time, duration: int, limit: int) returns (r: Attempt<seq<JobId>, ()>)
      requires Valid()
      modifies this`records
      ensures Valid()
      ensures r.Refused? <==> !ClaimInputs(worker, duration, limit)
      ensures r.Refused? ==> records == old(records)
      ensures r.Returned? ==>
                && limit >= 0
                && r.value == FirstOf(order, StartCandidates(old(records), now), limit)
                && records == Next(old(records), ClaimStart(worker, now, duration, Members(r.value)))
    {
      if !ClaimInputs(worker, duration, limit) { return Refused(()); }
      var candidates := Take(StartCandidates(records, now), limit);
      FirstOfBounds(order, StartCandidates(records, now), limit);
      ghost var before := records;
      var i := 0;
      while i < |candidates|
        invariant 0 <= i <= |candidates| && records.Keys == before.Keys
        invariant forall id :: id in records ==>
          records[id] == if id in candidates[..i] then StartClaimed(before[id], worker, now, duration) else before[id]
      {
        var id := candidates[i];
        records := records[id := StartClaimed(records[id], worker, now, duration)];
        i := i + 1;
      }
      assert candidates[..i] == candidates;
      return Returned(candidates);
    }

    method ClaimPollJobs(worker: string, now: Time, duration: int, limit: int) returns (r: Attempt<seq<JobId>, ()>)
      requires Valid()
      modifies this`records
      ensures Valid()
      ensures r.Refused? <==> !ClaimInputs(worker, duration, limit)
      ensures r.Refused? ==> records == old(records)
      ensures r.Returned? ==>
                && limit >= 0
                && r.value == FirstOf(order, PollCandidates(old(records), now), limit)
                && records == Next(old(records), ClaimPoll(worker, now, duration, Members(r.value)))
    {
      if !ClaimInputs(worker, duration, limit) { return Refused(()); }
      var candidates := Take(PollCandidates(records, now), limit);
      FirstOfBounds(order, PollCandidates(records, now), limit);
      ghost var before := records;
      var i := 0;
      while i < |candidates|
        invariant 0 <= i <= |candidates| && records.Keys == before.Keys
        invariant forall id :: id in records ==>
          records[id] == if id in candidates[..i] then PollClaimed(before[id], worker, now, duration) else before[id]
      {
        var id := candidates[i];
        records := records[id := PollClaimed(records[id], worker, now, duration)];
        i := i + 1;
      }
      assert candidates[..i] == candidates;
      return Returned(candidates);
    }

    /** reopen_missing_image_results: of the first `limit` workspace items without a success, in the order in which the
        dictionary first has a missing result of theirs, the missing result created last. */
    method ReopenMissingImageResults(now: Time, limit: int) returns (reopened: nat, ghost ids: set<JobId>)
      requires Valid()
      modifies this`records
      ensures Valid()
      ensures var slots := SlotsInOrder(old(records), order, Reopenables(old(records)));
              && reopened == Clamp(limit, |slots|) == |ids|
              && ids == Chosen(old(records), order, Reopenables(old(records)), slots[..reopened])
      ensures LatestOfSlots(old(records), ids) && records == Next(old(records), Reopen(now, ids))
    {
      ChosenAreLatest(records, order, Clamp(limit, |SlotsInOrder(records, order, Reopenables(records))|));
      if limit <= 0 { return 0, {}; }
      var latest, slots := LatestBySlot(Reopenables(records));
      reopened, ids := ReopenFirst(now, limit, latest, slots, Reopenables(records));
    }

    /** Reopen the jobs of the first `limit` slots. */
    method ReopenFirst(now: Time, limit: nat, latest: map<Slot, JobId>, slots: seq<Slot>, ghost wanted: set<JobId>)
      returns (reopened: nat, ghost ids: set<JobId>)
      requires wanted <= records.Keys && Tabulates(latest, records, order, wanted)
      requires slots == SlotsInOrder(records, order, wanted)
      modifies this`records
      ensures reopened == Clamp(limit, |slots|) && ids == Chosen(old(records), order, wanted, slots[..reopened])
      ensures records == Next(old(records), Reopen(now, ids))
    {
      reopened, ids := 0, {};
      ghost var before := records;
      while reopened < |slots| && reopened < limit
        invariant reopened <= limit && reopened <= |slots| && ids == Chosen(before, order, wanted, slots[..reopened])
        invariant records == Next(before, Reopen(now, ids))
      {
        var slot := slots[reopened];
        ChooseOne(before, order, wanted, reopened);
        assert Newest(before, order, wanted, slot) == if slot in latest then Some(latest[slot]) else None;
        ReopenAnother(before, now, ids, latest[slot]);
        ReopenOne(latest[slot], now);
        ids := ids + {latest[slot]};
        reopened := reopened + 1;
      }
    }

    method ReopenOne(id: JobId, now: Time)
      requires id in records
      modifies this`records
      ensures records == old(records)[id := Reopened(old(records)[id], now)]
    {
      records := records[id := records[id].(
        status := Polling, failure := None, result := None, leaseOwner := None, leaseExpiresAt := None,
        nextPollAt := Some(now), updatedAt := now)];
    }

    /** The dictionary `latest` of the source, with its insertion order. */
    method LatestBySlot(wanted: set<JobId>) returns (latest: map<Slot, JobId>, slots: seq<Slot>)
      requires Valid() && wanted <= records.Keys
      ensures Tabulates(latest, records, order, wanted) && slots == SlotsInOrder(records, order, wanted)
    {
      latest, slots := map[], [];
      var i := 0;
      while i < |order|
        invariant 0 <= i <= |order| && Tabulates(latest, records, order[..i], wanted)
        invariant slots == SlotsInOrder(records, order[..i], wanted)
      {
        assert order[i] in Members(order);
        var id, slot := order[i], SlotOf(records[order[i]]);
        assert order[..i + 1] == order[..i] + [id];
        ScanOne(latest, records, order[..i], id, wanted);
        MeetOne(latest, records, order[..i], id, wanted);
        if id in wanted && slot !in latest {
          latest, slots := latest[slot := id], slots + [slot];
        } else if id in wanted && records[id].createdAt > records[latest[slot]].createdAt {
          latest := latest[slot := id];
        }
        i := i + 1;
      }
      assert order[..i] == order;
    }

    /** bind_provider_job, reschedule_poll and complete, by the call they are given. */
    method Commit(c: Call) returns (accepted: bool)
      requires Valid() && NeedsLease(c)
      modifies this`records
      ensures Valid() && accepted == Accepted(old(records), c) && records == Next(old(records), c)
    {
      if c.id !in records { return false; }
      var item := records[c.id];
      match c {
        case Bind(id, providerJobId, worker, now, nextPollAt) =>
          if !LeaseOwned(item, worker, now) || item.status != Starting { return false; }
          records := records[id := item.(
            status := Polling, providerJobId := Some(providerJobId), nextPollAt := Some(nextPollAt),
            leaseOwner := None, leaseExpiresAt := None, updatedAt := now)];
        case Reschedule(id, worker, now, nextPollAt) =>
          if !LeaseOwned(item, worker, now) || item.status != Polling { return false; }
          records := records[id := item.(
            nextPollAt := Some(nextPollAt), leaseOwner := None, leaseExpiresAt := None, updatedAt := now)];
        case Complete(id, worker, status, now, result, failure) =>
          if !LeaseOwned(item, worker, now) { return false; }
          records := records[id := item.(
            status := status, result := result, failure := failure, nextPollAt := None,
            leaseOwner := None, leaseExpiresAt := None, updatedAt := now)];
      }
      return true;
    }
  }

  lemma {:induction false} FirstOfLength(order: seq<JobId>, wanted: set<JobId>, limit: nat)
    ensures |FirstOf(order, wanted, limit)| <= limit
  {
    if order != [] && limit > 0 {
      FirstOfLength(order[1..], wanted, if order[0] in wanted then limit - 1 else limit);
    }
  }
}
