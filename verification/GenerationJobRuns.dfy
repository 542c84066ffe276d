/** Safety of GenerationJobs over arbitrary runs of repository calls by any number of workers: the record contract, the
    history of a job, and the lease discipline. */
module GenerationJobRuns {
  import opened Common
  import opened GenerationJobState
  import opened GenerationJobReactions

  /** A record as GenerationJobService submits it. */
  predicate Submitted(j: Job) {
    && j.status == Queued && j.providerJobId.None? && j.result.None? && j.failure.None?
    && j.nextPollAt.None? && j.leaseOwner.None? && j.leaseExpiresAt.None?
  }

  /** What the callers of the repository keep to: ids are fresh, claims and reopening select eligible jobs under
      validated inputs, and workers pass the arguments their reactions produce. */
  predicate Legal(jobs: Jobs, c: Call) {
    && Argued(c)
    && match c
       case Create(candidate) => Submitted(candidate) && candidate.id !in jobs
       case ClaimStart(worker, now, duration, ids) =>
         ClaimInputs(worker, duration, 1) && forall id :: id in ids ==> id in jobs && StartEligible(jobs[id], now)
       case ClaimPoll(worker, now, duration, ids) =>
         ClaimInputs(worker, duration, 1) && forall id :: id in ids ==> id in jobs && PollEligible(jobs[id], now)
       case Reopen(_, ids) => forall id :: id in ids ==> Reopenable(jobs, id)
       case _ => true
  }

  predicate LegalRun(jobs: Jobs, calls: seq<Call>)
    decreases |calls|
  {
    calls == [] || (Legal(jobs, calls[0]) && LegalRun(Next(jobs, calls[0]), calls[1..]))
  }

  predicate NeedsLease(c: Call) { c.Bind? || c.Reschedule? || c.Complete? }

  predicate HasLease(j: Job) { j.leaseOwner.Some? || j.leaseExpiresAt.Some? }

  /** The contract, and what it does not say but its preservation needs: a lease is whole and lives in starting or
      polling only, a job not yet bound has no provider job, and the worker's two unused statuses never occur. */
  predicate Sound(j: Job) {
    && Contract(j)
    && (j.leaseOwner.Some? <==> j.leaseExpiresAt.Some?)
    && (HasLease(j) ==> j.status == Starting || j.status == Polling)
    && (j.status == Queued || j.status == Starting ==> j.providerJobId.None?)
    && j.status != Timeout && j.status != Expired
  }

  predicate UniqueKeys(jobs: Jobs) {
    forall a, b :: a in jobs && b in jobs && jobs[a].idempotencyKey == jobs[b].idempotencyKey ==> a == b
  }

  predicate AllSound(jobs: Jobs) {
    && (forall id :: id in jobs ==> jobs[id].id == id && Sound(jobs[id]))
    && UniqueKeys(jobs)
  }

  /** Each field update turns a sound record into a sound record, under its guard and its arguments. */
  lemma UpdatesKeepSound(j: Job, worker: string, now: Time, duration: int)
    requires Sound(j) && worker != ""
    ensures StartEligible(j, now) ==> Sound(StartClaimed(j, worker, now, duration))
    ensures j.status == Polling ==> Sound(PollClaimed(j, worker, now, duration))
    ensures IsMissingMappedResult(j) ==> Sound(Reopened(j, now))
  {
  }

  lemma OwnedUpdatesKeepSound(j: Job, c: Call)
    requires Sound(j) && Argued(c) && NeedsLease(c) && c.id == j.id
    requires Accepted(map[j.id := j], c)
    ensures Sound(Next(map[j.id := j], c)[j.id])
  {
  }

  lemma StepKeepsRecordSound(jobs: Jobs, c: Call, id: JobId)
    requires AllSound(jobs) && Legal(jobs, c) && id in Next(jobs, c)
    ensures Next(jobs, c)[id].id == id && Sound(Next(jobs, c)[id])
  {
    if id in jobs {
      var j := jobs[id];
      assert Sound(j) && j.id == id;
      if c.ClaimStart? || c.ClaimPoll? {
        NonBlankIsText(c.worker);
        UpdatesKeepSound(j, c.worker, c.now, c.duration);
      } else if c.Reopen? {
        UpdatesKeepSound(j, "w", c.now, 0);
      } else if NeedsLease(c) && c.id == id && Accepted(jobs, c) {
        OwnedUpdatesKeepSound(j, c);
        assert Next(jobs, c)[id] == Next(map[id := j], c)[id];
      }
    }
  }

  lemma StepKeepsKeys(jobs: Jobs, c: Call)
    requires UniqueKeys(jobs)
    ensures UniqueKeys(Next(jobs, c))
  {
    var after := Next(jobs, c);
    if c.Create? {
      forall a, b | a in after && b in after && after[a].idempotencyKey == after[b].idempotencyKey ensures a == b {
      }
    } else {
      assert forall id :: id in after ==> id in jobs && after[id].idempotencyKey == jobs[id].idempotencyKey;
    }
  }

  lemma StepKeepsSound(jobs: Jobs, c: Call)
    requires AllSound(jobs) && Legal(jobs, c)
    ensures AllSound(Next(jobs, c))
  {
    forall id | id in Next(jobs, c) ensures Next(jobs, c)[id].id == id && Sound(Next(jobs, c)[id]) {
      StepKeepsRecordSound(jobs, c, id);
    }
    StepKeepsKeys(jobs, c);
  }

  lemma NonBlankIsText(s: string)
    ensures !IsBlank(s) ==> s != ""
  {
  }

  /** Although no transition runs the validator, every job a run reaches satisfies the status contract; a lease exists
      only in starting or polling, and timeout and expired never occur. */
  lemma {:induction false} RunKeepsContract(jobs: Jobs, calls: seq<Call>)
    requires AllSound(jobs) && LegalRun(jobs, calls)
    ensures AllSound(Run(jobs, calls))
    decreases |calls|
  {
    if calls != [] {
      StepKeepsSound(jobs, calls[0]);
      RunKeepsContract(Next(jobs, calls[0]), calls[1..]);
    }
  }

  // ---------------------------------------------------------------- history of one job

  predicate IsAbsorbing(s: Status) { s == Succeeded || s == Failed || s == Timeout || s == Expired }

  /** Which status may follow which in one step. */
  predicate MayFollow(a: Status, b: Status) {
    || a == b
    || (a == Queued && b == Starting)
    || (a == Starting && b in {Polling, Succeeded, Failed, Indeterminate})
    || (a == Polling && b in {Succeeded, Failed, Indeterminate})
    || (a == Indeterminate && b == Polling)
  }

  /** What never changes about a job, and what changes once. */
  ghost predicate History(a: Job, b: Job) {
    && b.id == a.id && b.identity == a.identity && b.request == a.request && b.createdAt == a.createdAt
    && b.idempotencyKey == a.idempotencyKey
    && (a.providerJobId.Some? ==> b.providerJobId == a.providerJobId)
    && (IsAbsorbing(a.status) ==> b == a)
  }

  lemma StepHistory(jobs: Jobs, c: Call, id: JobId)
    requires AllSound(jobs) && Legal(jobs, c) && id in jobs
    ensures var after := Next(jobs, c);
            && id in after
            && History(jobs[id], after[id])
            && MayFollow(jobs[id].status, after[id].status)
            && (jobs[id].status == Indeterminate && after[id].status == Polling ==>
                  c.Reopen? && Text(jobs[id].providerJobId) && after[id].providerJobId == jobs[id].providerJobId)
  {
    assert Sound(jobs[id]);
  }

  /** Over every run a job keeps its identity, request and idempotency key, gets a provider job at most once, and stays
      as it is once succeeded or failed. */
  lemma {:induction false} RunHistory(jobs: Jobs, calls: seq<Call>, id: JobId)
    requires AllSound(jobs) && LegalRun(jobs, calls) && id in jobs
    ensures id in Run(jobs, calls) && History(jobs[id], Run(jobs, calls)[id])
    decreases |calls|
  {
    if calls != [] {
      StepHistory(jobs, calls[0], id);
      StepKeepsSound(jobs, calls[0]);
      RunHistory(Next(jobs, calls[0]), calls[1..], id);
    }
  }

  /** A submitted job is stored as it was given unless its key is taken, and stays under its key; submitting the key again
      never adds or changes a job. */
  lemma SubmittingTwiceIsOnce(jobs: Jobs, calls: seq<Call>, first: Job, again: Job)
    requires AllSound(jobs) && Legal(jobs, Create(first)) && LegalRun(Next(jobs, Create(first)), calls)
    requires again.idempotencyKey == first.idempotencyKey
    ensures var after := Run(Next(jobs, Create(first)), calls);
            && Next(after, Create(again)) == after
            && (exists id :: id in after && after[id].idempotencyKey == first.idempotencyKey)
            && (!KeyTaken(jobs, first.idempotencyKey) ==>
                  && Next(jobs, Create(first)) == jobs[first.id := first]
                  && first.id in after && after[first.id].identity == first.identity && after[first.id].request == first.request)
  {
    var created := Next(jobs, Create(first));
    StepKeepsSound(jobs, Create(first));
    assert KeyTaken(created, first.idempotencyKey) by {
      if !KeyTaken(jobs, first.idempotencyKey) { assert created[first.id] == first; }
      else {
        var id :| id in jobs && jobs[id].idempotencyKey == first.idempotencyKey;
        assert created[id].idempotencyKey == first.idempotencyKey;
      }
    }
    var id :| id in created && created[id].idempotencyKey == first.idempotencyKey;
    RunHistory(created, calls, id);
    assert Run(created, calls)[id].idempotencyKey == again.idempotencyKey;
    if !KeyTaken(jobs, first.idempotencyKey) { RunHistory(created, calls, first.id); }
  }

  // ---------------------------------------------------------------- leases

  /** State before the n-th call of the run. */
  function At(jobs: Jobs, calls: seq<Call>, n: nat): Jobs
    requires n <= |calls|
  {
    Run(jobs, calls[..n])
  }

  lemma {:induction false} AtNext(jobs: Jobs, calls: seq<Call>, n: nat)
    requires n < |calls|
    ensures At(jobs, calls, n + 1) == Next(At(jobs, calls, n), calls[n])
    decreases n
  {
    if n == 0 {
      assert calls[..1] == [calls[0]] && calls[..1][1..] == [];
      assert Run(Next(jobs, calls[0]), calls[..1][1..]) == Next(jobs, calls[0]);
    } else {
      assert calls[..n][0] == calls[0] && calls[..n][1..] == calls[1..][..n - 1];
      assert calls[..n + 1][0] == calls[0] && calls[..n + 1][1..] == calls[1..][..n];
      AtNext(Next(jobs, calls[0]), calls[1..], n - 1);
    }
  }

  lemma {:induction false} AtLegal(jobs: Jobs, calls: seq<Call>, n: nat)
    requires AllSound(jobs) && LegalRun(jobs, calls) && n <= |calls|
    ensures AllSound(At(jobs, calls, n))
    ensures n < |calls| ==> Legal(At(jobs, calls, n), calls[n])
    decreases n
  {
    if n == 0 {
      assert calls[..0] == [];
    } else {
      assert calls[..n][0] == calls[0] && calls[..n][1..] == calls[1..][..n - 1];
      StepKeepsSound(jobs, calls[0]);
      AtLegal(Next(jobs, calls[0]), calls[1..], n - 1);
    }
  }

  /** At every point of every run, the status that a call leaves may follow the one it found, and only reopening takes a job
      out of indeterminate, back into polling for the same provider job. */
  lemma StatusesFollow(jobs: Jobs, calls: seq<Call>, n: nat, id: JobId)
    requires AllSound(jobs) && LegalRun(jobs, calls) && n < |calls| && id in At(jobs, calls, n)
    ensures id in At(jobs, calls, n + 1)
    ensures var a, b := At(jobs, calls, n)[id], At(jobs, calls, n + 1)[id];
            && MayFollow(a.status, b.status)
            && (a.status == Indeterminate != b.status ==>
                  calls[n].Reopen? && Text(a.providerJobId) && b.providerJobId == a.providerJobId)
  {
    AtLegal(jobs, calls, n);
    AtNext(jobs, calls, n);
    StepHistory(At(jobs, calls, n), calls[n], id);
  }

  /** The call claims the job for the worker until the given time. */
  predicate Claims(c: Call, id: JobId, worker: string, until: Time) {
    || (c.ClaimStart? && id in c.ids && c.worker == worker && c.now + c.duration == until)
    || (c.ClaimPoll? && id in c.ids && c.worker == worker && c.now + c.duration == until)
  }

  /** Call m claimed the job, and nothing touched the job from then until just before call n. */
  predicate ClaimedSince(jobs: Jobs, calls: seq<Call>, m: nat, n: nat, id: JobId, worker: string, until: Time)
    requires n <= |calls|
  {
    && m < n
    && Claims(calls[m], id, worker, until)
    && forall i :: m < i <= n ==> id in At(jobs, calls, i) && id in At(jobs, calls, n)
                                  && At(jobs, calls, i)[id] == At(jobs, calls, n)[id]
  }

  lemma LeaseComesFromClaim(jobs: Jobs, c: Call, id: JobId)
    requires AllSound(jobs) && Legal(jobs, c) && id in Next(jobs, c) && HasLease(Next(jobs, c)[id])
    requires id !in jobs || Next(jobs, c)[id] != jobs[id]
    ensures var j := Next(jobs, c)[id];
            j.leaseOwner.Some? && j.leaseExpiresAt.Some? && Claims(c, id, j.leaseOwner.value, j.leaseExpiresAt.value)
  {
  }

  lemma ClaimedLonger(jobs: Jobs, calls: seq<Call>, m: nat, n: nat, id: JobId, worker: string, until: Time)
    requires 0 < n <= |calls| && ClaimedSince(jobs, calls, m, n - 1, id, worker, until)
    requires id in At(jobs, calls, n) && id in At(jobs, calls, n - 1) && At(jobs, calls, n)[id] == At(jobs, calls, n - 1)[id]
    ensures ClaimedSince(jobs, calls, m, n, id, worker, until)
  {
  }

  /** A lease found in a run was put there by a claim, and the job has not been touched since. */
  lemma {:induction false} LeaseHasClaim(jobs: Jobs, calls: seq<Call>, n: nat, id: JobId)
    requires AllSound(jobs) && LegalRun(jobs, calls) && n <= |calls|
    requires forall i :: i in jobs ==> !HasLease(jobs[i])
    requires id in At(jobs, calls, n) && HasLease(At(jobs, calls, n)[id])
    ensures var j := At(jobs, calls, n)[id];
            && j.leaseOwner.Some? && j.leaseExpiresAt.Some?
            && exists m :: ClaimedSince(jobs, calls, m, n, id, j.leaseOwner.value, j.leaseExpiresAt.value)
    decreases n
  {
    assert calls[..0] == [];
    if n > 0 {
      AtNext(jobs, calls, n - 1);
      AtLegal(jobs, calls, n - 1);
      AtLegal(jobs, calls, n);
      var before, j := At(jobs, calls, n - 1), At(jobs, calls, n)[id];
      if id in before && before[id] == j {
        LeaseHasClaim(jobs, calls, n - 1, id);
        var m :| ClaimedSince(jobs, calls, m, n - 1, id, j.leaseOwner.value, j.leaseExpiresAt.value);
        ClaimedLonger(jobs, calls, m, n, id, j.leaseOwner.value, j.leaseExpiresAt.value);
      } else {
        LeaseComesFromClaim(before, calls[n - 1], id);
        assert ClaimedSince(jobs, calls, n - 1, n, id, j.leaseOwner.value, j.leaseExpiresAt.value);
      }
    }
  }

  /** Every bind, reschedule or complete that commits follows that worker's own claim of the job, still unexpired, and
      between the two no call, another worker's claim in particular, touched the job. */
  lemma CommitFollowsOwnClaim(jobs: Jobs, calls: seq<Call>, n: nat)
    requires AllSound(jobs) && LegalRun(jobs, calls) && n < |calls|
    requires forall i :: i in jobs ==> !HasLease(jobs[i])
    requires NeedsLease(calls[n]) && Accepted(At(jobs, calls, n), calls[n])
    ensures exists m, until :: until > calls[n].now
                               && ClaimedSince(jobs, calls, m, n, calls[n].id, calls[n].worker, until)
  {
    var id := calls[n].id;
    LeaseHasClaim(jobs, calls, n, id);
    var j := At(jobs, calls, n)[id];
    var m :| ClaimedSince(jobs, calls, m, n, id, j.leaseOwner.value, j.leaseExpiresAt.value);
    assert j.leaseExpiresAt.value > calls[n].now;
  }
}
