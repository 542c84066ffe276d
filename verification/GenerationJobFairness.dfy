/** The SQL claim takes the oldest jobs first, so a queued job waits for a bounded number of claims. */
module GenerationJobFairness {
  import opened Common
  import opened GenerationJobState
  import opened GenerationJobReactions
  import opened GenerationJobRuns

  /** ORDER BY created_at, generation_job_id. */
  predicate Older(a: Job, b: Job) {
    a.createdAt < b.createdAt || (a.createdAt == b.createdAt && a.id < b.id)
  }

  function Eligible(jobs: Jobs, now: Time): set<JobId> {
    set id | id in jobs && StartEligible(jobs[id], now)
  }

  function Min(a: nat, b: nat): nat { if a <= b then a else b }

  /** The rows that the query with LIMIT returns: as many as there are up to the limit, and none left out is older. */
  ghost predicate OldestFirst(jobs: Jobs, now: Time, limit: nat, ids: set<JobId>) {
    && ids <= Eligible(jobs, now)
    && |ids| == Min(limit, |Eligible(jobs, now)|)
    && forall a, b :: a in ids && b in Eligible(jobs, now) && b !in ids ==>
         jobs[a].createdAt <= jobs[b].createdAt && (jobs[a].createdAt == jobs[b].createdAt ==> jobs[a].id < jobs[b].id)
  }

  /** There is no other choice: the query's answer is determined. */
  lemma OldestFirstIsUnique(jobs: Jobs, now: Time, limit: nat, ids: set<JobId>, other: set<JobId>)
    requires forall id :: id in jobs ==> jobs[id].id == id
    requires OldestFirst(jobs, now, limit, ids) && OldestFirst(jobs, now, limit, other)
    ensures ids == other
  {
    assert ids == (ids * other) + (ids - other) && other == (ids * other) + (other - ids);
    assert |ids - other| == |other - ids|;
    assert ids - other == {} <==> other - ids == {};
    forall a, b | a in ids - other && b in other - ids ensures false {
    }
    assert ids - other == {} || other - ids == {};
  }

  class SqlGenerationJobRepository {
    var rows: Jobs

    /** SELECT ... WHERE queued or start lease expired ORDER BY created_at, id LIMIT limit. */
    method SelectOldest(now: Time, limit: nat) returns (ids: set<JobId>)
      requires forall id :: id in rows ==> rows[id].id == id
      ensures OldestFirst(rows, now, limit, ids)
    {
      ids := {};
      var rest := Eligible(rows, now);
      while |ids| < limit && rest != {}
        invariant ids !! rest && ids + rest == Eligible(rows, now)
        invariant |ids| <= limit
        invariant forall a, b :: a in ids && b in rest ==> Older(rows[a], rows[b])
        decreases |rest|
      {
        var first := Oldest(rest);
        ids, rest := ids + {first}, rest - {first};
      }
      assert |Eligible(rows, now)| == |ids| + |rest|;
    }

    method Oldest(ids: set<JobId>) returns (first: JobId)
      requires ids != {} && ids <= rows.Keys && forall id :: id in rows ==> rows[id].id == id
      ensures first in ids && forall id :: id in ids && id != first ==> Older(rows[first], rows[id])
    {
      first :| first in ids;
      var rest := ids - {first};
      while rest != {}
        invariant rest <= ids && first in ids - rest
        invariant forall id :: id in ids - rest && id != first ==> Older(rows[first], rows[id])
        decreases |rest|
      {
        var id :| id in rest;
        rest := rest - {id};
        if Older(rows[id], rows[first]) { first := id; }
      }
    }

    /** claim_start_jobs. */
    method ClaimStartJobs(worker: string, now: Time, duration: int, limit: int)
      returns (r: Attempt<set<JobId>, ()>)
      requires forall id :: id in rows ==> rows[id].id == id
      modifies this
      ensures r.Refused? <==> !ClaimInputs(worker, duration, limit)
      ensures r.Refused? ==> rows == old(rows)
      ensures r.Returned? ==> limit >= 0 && OldestFirst(old(rows), now, limit, r.value)
                              && rows == Next(old(rows), ClaimStart(worker, now, duration, r.value))
    {
      if !ClaimInputs(worker, duration, limit) { return Refused(()); }
      var ids := SelectOldest(now, limit);
      ghost var before := rows;
      var rest := ids;
      while rest != {}
        invariant rest <= ids <= rows.Keys == before.Keys
        invariant forall id :: id in rows ==>
          rows[id] == if id in ids - rest then StartClaimed(before[id], worker, now, duration) else before[id]
        decreases |rest|
      {
        var id :| id in rest;
        rest := rest - {id};
        rows := rows[id := StartClaimed(rows[id], worker, now, duration)];
      }
      return Returned(ids);
    }
  }

  // ---------------------------------------------------------------- bounded waiting

  /** The queued jobs that are older than the given one. */
  function QueuedBefore(jobs: Jobs, id: JobId): set<JobId>
    requires id in jobs
  {
    set x | x in jobs && jobs[x].status == Queued && Older(jobs[x], jobs[id])
  }

  /** Claims take the oldest six, no start lease expires, and jobs submitted meanwhile are younger. */
  ghost predicate Orderly(jobs: Jobs, c: Call, id: JobId)
    requires id in jobs
  {
    && Legal(jobs, c)
    && (c.ClaimStart? ==>
          && OldestFirst(jobs, c.now, 6, c.ids)
          && forall x :: x in jobs && StartEligible(jobs[x], c.now) ==> jobs[x].status == Queued)
    && (c.Create? ==> !Older(c.candidate, jobs[id]))
  }

  ghost predicate OrderlyRun(jobs: Jobs, calls: seq<Call>, id: JobId)
    requires id in jobs
    decreases |calls|
  {
    calls == [] || (Orderly(jobs, calls[0], id) && id in Next(jobs, calls[0])
                    && OrderlyRun(Next(jobs, calls[0]), calls[1..], id))
  }

  function StartClaims(calls: seq<Call>): nat
    decreases |calls|
  {
    if calls == [] then 0 else (if calls[0].ClaimStart? then 1 else 0) + StartClaims(calls[1..])
  }

  /** A claim that leaves the job out takes six jobs queued before it. */
  lemma ClaimShortensQueue(jobs: Jobs, c: Call, id: JobId)
    requires AllSound(jobs) && id in jobs && jobs[id].status == Queued
    requires c.ClaimStart? && Orderly(jobs, c, id) && id !in c.ids
    ensures id in Next(jobs, c) && Next(jobs, c)[id] == jobs[id]
    ensures |QueuedBefore(Next(jobs, c), id)| + 6 == |QueuedBefore(jobs, id)|
  {
    var q, e := QueuedBefore(jobs, id), Eligible(jobs, c.now);
    assert id in e;
    assert c.ids < e;
    StrictlyFewer(c.ids, e);
    assert |c.ids| == 6;
    assert c.ids <= q;
    assert QueuedBefore(Next(jobs, c), id) == q - c.ids;
  }

  lemma StrictlyFewer<T>(a: set<T>, b: set<T>)
    requires a < b
    ensures |a| < |b|
  {
    assert b == a + (b - a);
    assert a + {} == a;
  }

  lemma OtherCallsDoNotJumpQueue(jobs: Jobs, c: Call, id: JobId)
    requires AllSound(jobs) && id in jobs && jobs[id].status == Queued
    requires !c.ClaimStart? && Orderly(jobs, c, id)
    ensures id in Next(jobs, c) && Next(jobs, c)[id] == jobs[id]
    ensures QueuedBefore(Next(jobs, c), id) <= QueuedBefore(jobs, id)
  {
    var after := Next(jobs, c);
    assert Sound(jobs[id]);
    forall x | x in QueuedBefore(after, id) ensures x in QueuedBefore(jobs, id) {
      if x in jobs { assert Sound(jobs[x]); }
    }
  }

  /** A queued job with k older queued jobs is claimed by the (k / 6 + 1)-th claim at the latest. */
  lemma {:induction false} ClaimedInTime(jobs: Jobs, calls: seq<Call>, id: JobId) returns (n: nat)
    requires AllSound(jobs) && id in jobs && jobs[id].status == Queued && OrderlyRun(jobs, calls, id)
    requires StartClaims(calls) >= |QueuedBefore(jobs, id)| / 6 + 1
    ensures n < |calls| && calls[n].ClaimStart? && id in calls[n].ids
    ensures StartClaims(calls[..n]) <= |QueuedBefore(jobs, id)| / 6
    decreases |calls|
  {
    if calls[0].ClaimStart? && id in calls[0].ids {
      n := 0;
      assert calls[..0] == [];
    } else {
      StepKeepsSound(jobs, calls[0]);
      if calls[0].ClaimStart? {
        ClaimShortensQueue(jobs, calls[0], id);
      } else {
        OtherCallsDoNotJumpQueue(jobs, calls[0], id);
        SmallerOrEqual(QueuedBefore(Next(jobs, calls[0]), id), QueuedBefore(jobs, id));
      }
      var m := ClaimedInTime(Next(jobs, calls[0]), calls[1..], id);
      n := m + 1;
      assert calls[..n][0] == calls[0] && calls[..n][1..] == calls[1..][..m];
    }
  }

  lemma SmallerOrEqual<T>(a: set<T>, b: set<T>)
    requires a <= b
    ensures |a| <= |b|
  {
    assert b == a + (b - a);
  }
}
