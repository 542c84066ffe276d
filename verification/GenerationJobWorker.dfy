/** GenerationJobWorker.run_once over the memory repository: one scan is a legal run of repository calls. */
module GenerationJobWorker {
  import opened Common
  import opened GenerationJobState
  import opened GenerationJobReactions
  import opened GenerationJobReopening
  import opened GenerationJobRuns
  import opened GenerationJobOutcomes
  import opened GenerationJobRepository

  lemma {:induction false} RunAppend(jobs: Jobs, first: seq<Call>, second: seq<Call>)
    ensures Run(jobs, first + second) == Run(Run(jobs, first), second)
    ensures LegalRun(jobs, first) && LegalRun(Run(jobs, first), second) ==> LegalRun(jobs, first + second)
    decreases |first|
  {
    if first == [] {
      assert first + second == second;
    } else {
      assert (first + second)[0] == first[0] && (first + second)[1..] == first[1..] + second;
      RunAppend(Next(jobs, first[0]), first[1..], second);
    }
  }

  lemma RunOne(jobs: Jobs, c: Call)
    ensures Run(jobs, [c]) == Next(jobs, c)
    ensures Legal(jobs, c) ==> LegalRun(jobs, [c])
  {
    assert [c][1..] == [];
    assert Run(Next(jobs, c), [c][1..]) == Next(jobs, c);
  }

  lemma RunOneMore(jobs: Jobs, calls: seq<Call>, c: Call)
    ensures Run(jobs, calls + [c]) == Next(Run(jobs, calls), c)
    ensures LegalRun(jobs, calls) && Legal(Run(jobs, calls), c) ==> LegalRun(jobs, calls + [c])
  {
    RunOne(Run(jobs, calls), c);
    RunAppend(jobs, calls, [c]);
  }

  /** A started job is not due for polling, so the two claims of one scan never share a job. */
  lemma ClaimsAreDisjoint(jobs: Jobs, worker: string, now: Time, duration: int, started: set<JobId>, polled: set<JobId>)
    requires polled <= PollCandidates(Next(jobs, ClaimStart(worker, now, duration, started)), now)
    ensures started !! polled
  {
  }

  /** What the environment does while one job is handled: the provider's answer, the two clock readings, and whether
      something after the repository call raises (the projection, or the provider's own state). */
  datatype Answer = Answer(hasProvider: bool, hasCredential: bool, reply: Reply, now: Time, later: Time, raisesAfter: bool)

  /** One coroutine of the scan: _start or _poll, for the job as it was claimed. */
  datatype Handler = Handler(job: Job, starts: bool)

  predicate Concerns(c: Call, id: JobId) { NeedsLease(c) && c.id == id }

  /** The calls about one job, in order. */
  function CallsFor(calls: seq<Call>, id: JobId): seq<Call> {
    if calls == [] then []
    else
      var front := CallsFor(calls[..|calls| - 1], id);
      if Concerns(calls[|calls| - 1], id) then front + [calls[|calls| - 1]] else front
  }

  /** Whether the repository accepted the first call about the job. */
  ghost predicate FirstAccepted(jobs: Jobs, calls: seq<Call>, id: JobId) {
    calls == [] ||
    var front, last := calls[..|calls| - 1], calls[|calls| - 1];
    if CallsFor(front, id) == [] && Concerns(last, id) then Accepted(Run(jobs, front), last) else FirstAccepted(jobs, front, id)
  }

  /** What a handler may call: its reaction, and its last resort when the provider answered with a snapshot and the reaction
      was refused or something after it raised. */
  datatype Plan = Plan(reaction: Call, lastResort: Call, guarded: bool, raisesAfter: bool) {
    predicate FallsBackAfter(accepted: bool) { guarded && (!accepted || raisesAfter) }
  }

  /** The calls that a finished handler made. */
  function Planned(plan: Plan, accepted: bool): seq<Call> {
    if plan.FallsBackAfter(accepted) then [plan.reaction, plan.lastResort] else [plan.reaction]
  }

  /** A handler has still to respond, or to fall back, or is done. */
  ghost predicate Follows(jobs: Jobs, scan: seq<Call>, id: JobId, plan: Plan, unheard: bool, raised: bool) {
    && Concerns(plan.reaction, id) && Concerns(plan.lastResort, id)
    && (unheard ==> CallsFor(scan, id) == [])
    && (raised && !unheard ==> CallsFor(scan, id) == [plan.reaction])
    && (!raised && !unheard ==> CallsFor(scan, id) == Planned(plan, FirstAccepted(jobs, scan, id)))
    && (raised && !unheard ==> plan.FallsBackAfter(FirstAccepted(jobs, scan, id)))
  }

  ghost predicate AboutPlans(scan: seq<Call>, plans: map<JobId, Plan>) {
    forall c :: c in scan ==> NeedsLease(c) && c.id in plans
  }

  /** The calls made so far by the handlers of a scan. */
  ghost predicate Underway(jobs: Jobs, scan: seq<Call>, plans: map<JobId, Plan>, unheard: set<JobId>, raised: set<JobId>) {
    && unheard <= plans.Keys && raised <= plans.Keys && unheard !! raised
    && AboutPlans(scan, plans)
    && forall id :: id in plans ==> Follows(jobs, scan, id, plans[id], id in unheard, id in raised)
  }

  lemma OthersFollow(jobs: Jobs, scan: seq<Call>, c: Call, id: JobId, plan: Plan, unheard: bool, raised: bool)
    requires Follows(jobs, scan, id, plan, unheard, raised) && !Concerns(c, id)
    ensures Follows(jobs, scan + [c], id, plan, unheard, raised)
  {
    CallsForSnoc(scan, c, id);
    FirstAcceptedSnoc(jobs, scan, c, id);
  }

  lemma AllOthersFollow(
    jobs: Jobs, scan: seq<Call>, c: Call, plans: map<JobId, Plan>, unheard: set<JobId>, raised: set<JobId>, id: JobId)
    requires Underway(jobs, scan, plans, unheard, raised) && id in plans && Concerns(c, id)
    ensures AboutPlans(scan + [c], plans)
    ensures forall k :: k in plans && k != id ==> Follows(jobs, scan + [c], k, plans[k], k in unheard, k in raised)
  {
    forall k | k in plans && k != id ensures Follows(jobs, scan + [c], k, plans[k], k in unheard, k in raised) {
      OthersFollow(jobs, scan, c, k, plans[k], k in unheard, k in raised);
    }
  }

  lemma OneResponds(jobs: Jobs, scan: seq<Call>, id: JobId, plan: Plan)
    requires Follows(jobs, scan, id, plan, true, false)
    ensures Follows(jobs, scan + [plan.reaction], id, plan, false, plan.FallsBackAfter(Accepted(Run(jobs, scan), plan.reaction)))
  {
    CallsForSnoc(scan, plan.reaction, id);
    FirstAcceptedSnoc(jobs, scan, plan.reaction, id);
  }

  lemma OneFallsBack(jobs: Jobs, scan: seq<Call>, id: JobId, plan: Plan)
    requires Follows(jobs, scan, id, plan, false, true)
    ensures Follows(jobs, scan + [plan.lastResort], id, plan, false, false)
  {
    CallsForSnoc(scan, plan.lastResort, id);
    FirstAcceptedSnoc(jobs, scan, plan.lastResort, id);
  }

  lemma Responds(jobs: Jobs, scan: seq<Call>, plans: map<JobId, Plan>, unheard: set<JobId>, raised: set<JobId>, id: JobId)
    requires Underway(jobs, scan, plans, unheard, raised) && id in unheard
    ensures var again := plans[id].FallsBackAfter(Accepted(Run(jobs, scan), plans[id].reaction));
            Underway(jobs, scan + [plans[id].reaction], plans, unheard - {id}, if again then raised + {id} else raised)
  {
    var plan, again := plans[id], plans[id].FallsBackAfter(Accepted(Run(jobs, scan), plans[id].reaction));
    assert Follows(jobs, scan, id, plan, true, false);
    OneResponds(jobs, scan, id, plan);
    AllOthersFollow(jobs, scan, plan.reaction, plans, unheard, raised, id);
    Moved(jobs, scan + [plan.reaction], plans, unheard, raised, id, again);
  }

  lemma Moved(jobs: Jobs, scan: seq<Call>, plans: map<JobId, Plan>, unheard: set<JobId>, raised: set<JobId>, id: JobId, again: bool)
    requires unheard <= plans.Keys && raised <= plans.Keys && unheard !! raised && id in unheard && AboutPlans(scan, plans)
    requires Follows(jobs, scan, id, plans[id], false, again)
    requires forall k :: k in plans && k != id ==> Follows(jobs, scan, k, plans[k], k in unheard, k in raised)
    ensures Underway(jobs, scan, plans, unheard - {id}, if again then raised + {id} else raised)
  {
  }

  lemma FallsBack(jobs: Jobs, scan: seq<Call>, plans: map<JobId, Plan>, unheard: set<JobId>, raised: set<JobId>, id: JobId)
    requires Underway(jobs, scan, plans, unheard, raised) && id in raised
    ensures Underway(jobs, scan + [plans[id].lastResort], plans, unheard, raised - {id})
  {
    assert Follows(jobs, scan, id, plans[id], false, true);
    OneFallsBack(jobs, scan, id, plans[id]);
    AllOthersFollow(jobs, scan, plans[id].lastResort, plans, unheard, raised, id);
  }

  lemma FirstAcceptedSnoc(jobs: Jobs, calls: seq<Call>, c: Call, id: JobId)
    ensures FirstAccepted(jobs, calls + [c], id) ==
            if CallsFor(calls, id) == [] && Concerns(c, id) then Accepted(Run(jobs, calls), c) else FirstAccepted(jobs, calls, id)
  {
    assert (calls + [c])[..|calls|] == calls;
  }

  lemma StartConcerns(j: Job, w: Setting, reply: Reply, now: Time, later: Time)
    ensures Concerns(StartReaction(j, w, reply, now), j.id) && Concerns(StartFallback(j, w, later), j.id)
  {
  }

  lemma PollConcerns(j: Job, w: Setting, reply: Reply, now: Time, later: Time)
    ensures Concerns(PollReaction(j, w, reply, now), j.id) && Concerns(PollFallback(j, w, later), j.id)
  {
  }

  lemma CallsForSnoc(calls: seq<Call>, c: Call, id: JobId)
    ensures CallsFor(calls + [c], id) == if Concerns(c, id) then CallsFor(calls, id) + [c] else CallsFor(calls, id)
  {
    assert (calls + [c])[..|calls|] == calls;
  }

  lemma NextStaysTotal(jobs: Jobs, c: Call)
    requires NeedsLease(c)
    ensures Next(jobs, c).Keys == jobs.Keys && forall id :: id in jobs && id != c.id ==> Next(jobs, c)[id] == jobs[id]
  {
  }

  lemma {:induction false} KeysStay(jobs: Jobs, scan: seq<Call>)
    requires forall c :: c in scan ==> NeedsLease(c)
    ensures Run(jobs, scan).Keys == jobs.Keys
    decreases |scan|
  {
    if scan != [] {
      NextStaysTotal(jobs, scan[0]);
      KeysStay(Next(jobs, scan[0]), scan[1..]);
    }
  }

  lemma NextAlone(jobs: Jobs, c: Call, id: JobId)
    requires NeedsLease(c) && c.id == id && id in jobs
    ensures id in Next(jobs, c) && Next(map[id := jobs[id]], c) == map[id := Next(jobs, c)[id]]
  {
  }

  /** What a scan does to one job is what the calls about it do to it alone. */
  lemma {:induction false} OneJobAlone(jobs: Jobs, scan: seq<Call>, id: JobId)
    requires id in jobs && forall c :: c in scan ==> NeedsLease(c)
    ensures id in Run(jobs, scan)
    ensures Run(map[id := jobs[id]], CallsFor(scan, id)) == map[id := Run(jobs, scan)[id]]
  {
    if scan != [] {
      var front, last := scan[..|scan| - 1], scan[|scan| - 1];
      assert scan == front + [last];
      OneJobAlone(jobs, front, id);
      RunOneMore(jobs, front, last);
      NextStaysTotal(Run(jobs, front), last);
      if Concerns(last, id) {
        RunOneMore(map[id := jobs[id]], CallsFor(front, id), last);
        NextAlone(Run(jobs, front), last, id);
      }
    }
  }

  class Worker {
    const jobs: MemoryGenerationJobRepository
    const workerId: string
    const pollInterval: int
    const leaseDuration: int

    predicate Valid() { !IsBlank(workerId) && pollInterval > 0 && leaseDuration > 0 }

    constructor (jobs: MemoryGenerationJobRepository, workerId: string, pollInterval: int, leaseDuration: int)
      requires !IsBlank(workerId) && pollInterval > 0 && leaseDuration > 0
      ensures Valid() && this.jobs == jobs
    {
      this.jobs, this.workerId, this.pollInterval, this.leaseDuration := jobs, workerId, pollInterval, leaseDuration;
    }

    function SettingOf(a: Answer): Setting { Setting(workerId, pollInterval, a.hasProvider, a.hasCredential) }

    function FirstCall(h: Handler, a: Answer): Call {
      if h.starts then StartReaction(h.job, SettingOf(a), a.reply, a.now) else PollReaction(h.job, SettingOf(a), a.reply, a.now)
    }

    function LastResort(h: Handler, a: Answer): Call {
      if h.starts then StartFallback(h.job, SettingOf(a), a.later) else PollFallback(h.job, SettingOf(a), a.later)
    }

    /** Whether the handler of last resort is around the repository call: the provider was asked and sent a snapshot. */
    predicate Guarded(h: Handler, a: Answer) {
      a.hasProvider && (if h.starts then a.hasCredential else Text(h.job.providerJobId)) && a.reply.Snapshot?
    }

    function PlanOf(h: Handler, a: Answer): Plan {
      Plan(FirstCall(h, a), LastResort(h, a), Guarded(h, a), a.raisesAfter)
    }

    lemma PlanConcernsJob(h: Handler, a: Answer)
      ensures Concerns(PlanOf(h, a).reaction, h.job.id) && Concerns(PlanOf(h, a).lastResort, h.job.id)
    {
      if h.starts {
        StartConcerns(h.job, SettingOf(a), a.reply, a.now, a.later);
      } else {
        PollConcerns(h.job, SettingOf(a), a.reply, a.now, a.later);
      }
    }

    lemma PlanIsArgued(h: Handler, a: Answer)
      ensures Argued(FirstCall(h, a)) && Argued(LastResort(h, a))
    {
      ReactionsAreArgued(h.job, SettingOf(a), a.reply, a.now);
      ReactionsAreArgued(h.job, SettingOf(a), a.reply, a.later);
    }

    /** The record is as the handler's answer says. */
    predicate Outcome(before: Job, after: Job, h: Handler, a: Answer) {
      HandledAs(before, after, h.starts, h.job.providerJobId, SettingOf(a), a.reply, a.now)
    }

    lemma FirstCallLeaves(records: Jobs, h: Handler, a: Answer)
      requires h.job.id in records && Holds(records[h.job.id], h.starts, workerId, a.now)
      ensures var after := Next(records, FirstCall(h, a));
              && h.job.id in after && after == records[h.job.id := after[h.job.id]]
              && Outcome(records[h.job.id], after[h.job.id], h, a)
    {
      if h.starts {
        StartLeaves(records, h.job, SettingOf(a), a.reply, a.now);
      } else {
        PollLeaves(records, h.job, SettingOf(a), a.reply, a.now);
      }
    }

    /** A handler that still has its lease when it first calls the repository leaves its answer's outcome, whether its last
        resort follows or not. */
    lemma PlanLeaves(records: Jobs, h: Handler, a: Answer, accepted: bool)
      requires h.job.id in records && Holds(records[h.job.id], h.starts, workerId, a.now)
      ensures var after := Run(records, Planned(PlanOf(h, a), accepted));
              && h.job.id in after && after == records[h.job.id := after[h.job.id]]
              && Outcome(records[h.job.id], after[h.job.id], h, a)
    {
      var once := Next(records, FirstCall(h, a));
      FirstCallLeaves(records, h, a);
      PlanConcernsJob(h, a);
      HandledOnce(once, h.job.id, records[h.job.id], h.starts, h.job.providerJobId, SettingOf(a), a.reply, a.now, LastResort(h, a));
      RunOne(records, FirstCall(h, a));
      RunOneMore(records, [FirstCall(h, a)], LastResort(h, a));
      assert [FirstCall(h, a)] + [LastResort(h, a)] == [FirstCall(h, a), LastResort(h, a)];
    }

    /** A handler up to its first repository call, after the provider answered. */
    method Respond(h: Handler, a: Answer) returns (again: bool)
      requires jobs.Valid()
      modifies jobs`records
      ensures jobs.Valid() && Legal(old(jobs.records), FirstCall(h, a))
      ensures jobs.records == Next(old(jobs.records), FirstCall(h, a))
      ensures again == PlanOf(h, a).FallsBackAfter(Accepted(old(jobs.records), FirstCall(h, a)))
    {
      PlanConcernsJob(h, a);
      PlanIsArgued(h, a);
      var accepted := jobs.Commit(FirstCall(h, a));
      again := Guarded(h, a) && (!accepted || a.raisesAfter);
    }

    /** The rest of the handler, if anything raised. */
    method FallBack(h: Handler, a: Answer)
      requires jobs.Valid()
      modifies jobs`records
      ensures jobs.Valid() && Legal(old(jobs.records), LastResort(h, a))
      ensures jobs.records == Next(old(jobs.records), LastResort(h, a))
    {
      PlanConcernsJob(h, a);
      PlanIsArgued(h, a);
      var _ := jobs.Commit(LastResort(h, a));
    }

    /** A whole handler, undisturbed: _start or _poll. */
    method Handle(h: Handler, a: Answer) returns (ghost calls: seq<Call>)
      requires jobs.Valid()
      modifies jobs`records
      ensures jobs.Valid() && jobs.records == Run(old(jobs.records), calls) && LegalRun(old(jobs.records), calls)
      ensures calls == Planned(PlanOf(h, a), Accepted(old(jobs.records), FirstCall(h, a)))
      ensures var id := h.job.id;
              id in old(jobs.records) && Holds(old(jobs.records)[id], h.starts, workerId, a.now) ==>
                && id in jobs.records && jobs.records == old(jobs.records)[id := jobs.records[id]]
                && Outcome(old(jobs.records)[id], jobs.records[id], h, a)
    {
      if h.job.id in jobs.records && Holds(jobs.records[h.job.id], h.starts, workerId, a.now) {
        PlanLeaves(jobs.records, h, a, Accepted(jobs.records, FirstCall(h, a)));
      }
      var again := Respond(h, a);
      calls := [FirstCall(h, a)];
      RunOne(old(jobs.records), calls[0]);
      if again {
        ghost var middle := jobs.records;
        FallBack(h, a);
        RunOne(middle, LastResort(h, a));
        RunAppend(old(jobs.records), calls, [LastResort(h, a)]);
        calls := calls + [LastResort(h, a)];
      }
    }

    /** _start: the fallback follows exactly when the provider was asked, sent a snapshot, and the reaction was refused or
        something after it raised. */
    method Start(job: Job, a: Answer) returns (ghost calls: seq<Call>)
      requires jobs.Valid()
      modifies jobs`records
      ensures jobs.Valid() && jobs.records == Run(old(jobs.records), calls) && LegalRun(old(jobs.records), calls)
      ensures var reaction := StartReaction(job, SettingOf(a), a.reply, a.now);
              var raised := a.hasProvider && a.hasCredential && a.reply.Snapshot?
                            && (!Accepted(old(jobs.records), reaction) || a.raisesAfter);
              calls == [reaction] + if raised then [StartFallback(job, SettingOf(a), a.later)] else []
      ensures job.id in old(jobs.records) && Holds(old(jobs.records)[job.id], true, workerId, a.now) ==>
                && job.id in jobs.records && jobs.records == old(jobs.records)[job.id := jobs.records[job.id]]
                && StartedAs(old(jobs.records)[job.id], jobs.records[job.id], SettingOf(a), a.reply, a.now)
    {
      calls := Handle(Handler(job, true), a);
    }

    /** _poll: the same with the rescheduling fallback. */
    method Poll(job: Job, a: Answer) returns (ghost calls: seq<Call>)
      requires jobs.Valid()
      modifies jobs`records
      ensures jobs.Valid() && jobs.records == Run(old(jobs.records), calls) && LegalRun(old(jobs.records), calls)
      ensures var reaction := PollReaction(job, SettingOf(a), a.reply, a.now);
              var raised := a.hasProvider && Text(job.providerJobId) && a.reply.Snapshot?
                            && (!Accepted(old(jobs.records), reaction) || a.raisesAfter);
              calls == [reaction] + if raised then [PollFallback(job, SettingOf(a), a.later)] else []
      ensures job.id in old(jobs.records) && Holds(old(jobs.records)[job.id], false, workerId, a.now) ==>
                && job.id in jobs.records && jobs.records == old(jobs.records)[job.id := jobs.records[job.id]]
                && PolledAs(old(jobs.records)[job.id], jobs.records[job.id], SettingOf(a), job.providerJobId, a.reply, a.now)
    {
      calls := Handle(Handler(job, false), a);
    }

    method ClaimStarts(now: Time) returns (starts: seq<JobId>, ghost call: Call)
      requires Valid() && jobs.Valid()
      modifies jobs`records
      ensures jobs.Valid() && starts == FirstOf(jobs.order, StartCandidates(old(jobs.records), now), 6)
      ensures call == ClaimStart(workerId, now, leaseDuration, Members(starts))
      ensures Legal(old(jobs.records), call) && jobs.records == Next(old(jobs.records), call)
    {
      var claimed := jobs.ClaimStartJobs(workerId, now, leaseDuration, 6);
      starts := claimed.value;
      FirstOfBounds(jobs.order, StartCandidates(old(jobs.records), now), 6);
      call := ClaimStart(workerId, now, leaseDuration, Members(starts));
    }

    method ClaimPolls(now: Time, limit: nat) returns (polls: seq<JobId>, ghost call: Call)
      requires Valid() && jobs.Valid() && 1 <= limit <= 6
      modifies jobs`records
      ensures jobs.Valid() && polls == FirstOf(jobs.order, PollCandidates(old(jobs.records), now), limit)
      ensures call == ClaimPoll(workerId, now, leaseDuration, Members(polls))
      ensures Legal(old(jobs.records), call) && jobs.records == Next(old(jobs.records), call)
    {
      var claimed := jobs.ClaimPollJobs(workerId, now, leaseDuration, limit);
      polls := claimed.value;
      FirstOfBounds(jobs.order, PollCandidates(old(jobs.records), now), limit);
      call := ClaimPoll(workerId, now, leaseDuration, Members(polls));
    }

    method ReopenFew(now: Time) returns (ghost call: Call)
      requires jobs.Valid()
      modifies jobs`records
      ensures jobs.Valid() && call == ReopenCall(old(jobs.records), jobs.order, now)
      ensures Legal(old(jobs.records), call) && jobs.records == Next(old(jobs.records), call)
    {
      var reopened, ids := jobs.ReopenMissingImageResults(now, 6);
      call := Reopen(now, ids);
    }

    /** The calls that a scan begins with, and the jobs that they claim. */
    ghost predicate ScanClaims(before: Jobs, now: Time, starts: seq<JobId>, polls: seq<JobId>, calls: seq<Call>)
      reads jobs`order
    {
      var reopen := ReopenCall(before, jobs.order, now);
      var start := ClaimStart(workerId, now, leaseDuration, Members(starts));
      var reopened := Next(before, reopen);
      && starts == FirstOf(jobs.order, StartCandidates(reopened, now), 6)
      && polls == (if |starts| < 6 then FirstOf(jobs.order, PollCandidates(Next(reopened, start), now), 6 - |starts|) else [])
      && calls == [reopen] + [start]
                  + if |starts| < 6 then [ClaimPoll(workerId, now, leaseDuration, Members(polls))] else []
    }

    lemma ClaimedTogether(before: Jobs, now: Time, starts: seq<JobId>, polls: seq<JobId>, calls: seq<Call>)
      requires Distinct(jobs.order) && ScanClaims(before, now, starts, polls, calls)
      ensures |starts| + |polls| <= 6 && Distinct(starts) && Distinct(polls) && Members(starts) !! Members(polls)
    {
      var reopened := Next(before, ReopenCall(before, jobs.order, now));
      var started := Next(reopened, ClaimStart(workerId, now, leaseDuration, Members(starts)));
      FirstOfBounds(jobs.order, StartCandidates(reopened, now), 6);
      if |starts| < 6 {
        FirstOfBounds(jobs.order, PollCandidates(started, now), 6 - |starts|);
        ClaimsAreDisjoint(reopened, workerId, now, leaseDuration, Members(starts), Members(polls));
      }
    }

    /** Up to six jobs in all. */
    method FillUp(now: Time, starts: seq<JobId>) returns (polls: seq<JobId>, ghost more: seq<Call>)
      requires Valid() && jobs.Valid() && |starts| <= 6
      modifies jobs`records
      ensures jobs.Valid() && jobs.records == Run(old(jobs.records), more) && LegalRun(old(jobs.records), more)
      ensures polls == if |starts| < 6 then FirstOf(jobs.order, PollCandidates(old(jobs.records), now), 6 - |starts|) else []
      ensures more == if |starts| < 6 then [ClaimPoll(workerId, now, leaseDuration, Members(polls))] else []
    {
      polls, more := [], [];
      if |starts| < 6 {
        ghost var poll;
        polls, poll := ClaimPolls(now, 6 - |starts|);
        RunOne(old(jobs.records), poll);
        more := [poll];
      }
    }

    /** reopen, claim up to six start jobs, fill up with due polls. */
    method Claim(now: Time) returns (starts: seq<JobId>, polls: seq<JobId>, ghost calls: seq<Call>)
      requires Valid() && jobs.Valid()
      modifies jobs`records
      ensures jobs.Valid() && jobs.records == Run(old(jobs.records), calls) && LegalRun(old(jobs.records), calls)
      ensures ScanClaims(old(jobs.records), now, starts, polls, calls)
      ensures |starts| + |polls| <= 6 && Distinct(starts) && Distinct(polls) && Members(starts) !! Members(polls)
      ensures Members(starts) + Members(polls) <= jobs.records.Keys
    {
      ghost var before := jobs.records;
      ghost var reopen := ReopenFew(now);
      RunOne(before, reopen);
      ghost var reopened := jobs.records;
      ghost var start, more;
      starts, start := ClaimStarts(now);
      FirstOfBounds(jobs.order, StartCandidates(reopened, now), 6);
      RunOne(reopened, start);
      RunAppend(before, [reopen], [start]);
      ghost var started := jobs.records;
      polls, more := FillUp(now, starts);
      RunAppend(before, [reopen] + [start], more);
      calls := [reopen] + [start] + more;
      ClaimedTogether(before, now, starts, polls, calls);
      AllAreStored(jobs.records, reopened, started, now, starts, polls);
    }

    lemma AllAreStored(
      records: Jobs, reopened: Jobs, started: Jobs, now: Time, starts: seq<JobId>, polls: seq<JobId>)
      requires Distinct(jobs.order) && Members(jobs.order) == records.Keys && |starts| <= 6
      requires starts == FirstOf(jobs.order, StartCandidates(reopened, now), 6)
      requires polls == if |starts| < 6 then FirstOf(jobs.order, PollCandidates(started, now), 6 - |starts|) else []
      ensures Members(starts) + Members(polls) <= records.Keys
    {
      FirstOfBounds(jobs.order, StartCandidates(reopened, now), 6);
      if |starts| < 6 { FirstOfBounds(jobs.order, PollCandidates(started, now), 6 - |starts|); }
    }

    ghost function Plans(handlers: map<JobId, Handler>, answers: JobId -> Answer): map<JobId, Plan> {
      map id | id in handlers :: PlanOf(handlers[id], answers(id))
    }

    lemma NoneHeard(records: Jobs, handlers: map<JobId, Handler>, answers: JobId -> Answer)
      requires forall id :: id in handlers ==> handlers[id].job.id == id
      ensures Underway(records, [], Plans(handlers, answers), handlers.Keys, {})
    {
      forall id | id in handlers
        ensures Concerns(Plans(handlers, answers)[id].reaction, id) && Concerns(Plans(handlers, answers)[id].lastResort, id)
      {
        PlanConcernsJob(handlers[id], answers(id));
      }
    }

    /** The handlers run side by side: whichever is ready makes its next call. */
    method Gather(handlers: map<JobId, Handler>, answers: JobId -> Answer) returns (ghost scan: seq<Call>)
      requires jobs.Valid() && forall id :: id in handlers ==> handlers[id].job.id == id
      modifies jobs`records
      ensures jobs.Valid() && jobs.records == Run(old(jobs.records), scan) && LegalRun(old(jobs.records), scan)
      ensures Underway(old(jobs.records), scan, Plans(handlers, answers), {}, {})
    {
      scan := [];
      var unheard: set<JobId>, raised: set<JobId> := handlers.Keys, {};
      ghost var plans, claimed := Plans(handlers, answers), jobs.records;
      NoneHeard(claimed, handlers, answers);
      while unheard != {} || raised != {}
        invariant jobs.Valid() && jobs.records == Run(claimed, scan) && LegalRun(claimed, scan)
        invariant Underway(claimed, scan, plans, unheard, raised) && plans == Plans(handlers, answers)
        decreases 2 * |unheard| + |raised|
      {
        var id :| id in unheard || id in raised;
        assert plans[id] == PlanOf(handlers[id], answers(id));
        ghost var c;
        if id in unheard {
          var again;
          again, c := HearOne(handlers[id], answers(id), claimed, scan);
          Responds(claimed, scan, plans, unheard, raised, id);
          unheard, raised := unheard - {id}, if again then raised + {id} else raised;
        } else {
          c := FallBackOne(handlers[id], answers(id), claimed, scan);
          FallsBack(claimed, scan, plans, unheard, raised, id);
          raised := raised - {id};
        }
        scan := scan + [c];
      }
    }

    method HearOne(h: Handler, a: Answer, ghost claimed: Jobs, ghost scan: seq<Call>) returns (again: bool, ghost c: Call)
      requires jobs.Valid() && jobs.records == Run(claimed, scan) && LegalRun(claimed, scan)
      modifies jobs`records
      ensures c == PlanOf(h, a).reaction && again == PlanOf(h, a).FallsBackAfter(Accepted(Run(claimed, scan), c))
      ensures jobs.Valid() && jobs.records == Run(claimed, scan + [c]) && LegalRun(claimed, scan + [c])
    {
      c := FirstCall(h, a);
      again := Respond(h, a);
      RunOneMore(claimed, scan, c);
    }

    method FallBackOne(h: Handler, a: Answer, ghost claimed: Jobs, ghost scan: seq<Call>) returns (ghost c: Call)
      requires jobs.Valid() && jobs.records == Run(claimed, scan) && LegalRun(claimed, scan)
      modifies jobs`records
      ensures c == PlanOf(h, a).lastResort
      ensures jobs.Valid() && jobs.records == Run(claimed, scan + [c]) && LegalRun(claimed, scan + [c])
    {
      c := LastResort(h, a);
      FallBack(h, a);
      RunOneMore(claimed, scan, c);
    }

    /** The claimed jobs carry the worker's lease, in the status of their claim. */
    predicate Leased(claimed: Jobs, starts: seq<JobId>, polls: seq<JobId>, now: Time) {
      && Members(starts) + Members(polls) <= claimed.Keys
      && forall id :: id in Members(starts) + Members(polls) ==>
           && claimed[id].leaseOwner == Some(workerId) && claimed[id].leaseExpiresAt == Some(now + leaseDuration)
           && claimed[id].status == if id in Members(starts) then Starting else Polling
    }

    lemma StartsLease(jobs_: Jobs, now: Time, starts: seq<JobId>)
      requires Members(starts) <= jobs_.Keys
      ensures Leased(Next(jobs_, ClaimStart(workerId, now, leaseDuration, Members(starts))), starts, [], now)
    {
    }

    lemma PollsLease(jobs_: Jobs, now: Time, starts: seq<JobId>, polls: seq<JobId>)
      requires Leased(jobs_, starts, [], now) && Members(starts) !! Members(polls)
      requires Members(polls) <= PollCandidates(jobs_, now)
      ensures Leased(Next(jobs_, ClaimPoll(workerId, now, leaseDuration, Members(polls))), starts, polls, now)
    {
    }

    lemma ClaimsLease(before: Jobs, now: Time, starts: seq<JobId>, polls: seq<JobId>, calls: seq<Call>)
      requires Distinct(jobs.order) && ScanClaims(before, now, starts, polls, calls)
      ensures Leased(Run(before, calls), starts, polls, now)
    {
      var reopen := ReopenCall(before, jobs.order, now);
      var start := ClaimStart(workerId, now, leaseDuration, Members(starts));
      var reopened := Next(before, reopen);
      var started := Next(reopened, start);
      FirstOfBounds(jobs.order, StartCandidates(reopened, now), 6);
      StartsLease(reopened, now, starts);
      RunOne(before, reopen);
      RunOneMore(before, [reopen], start);
      if |starts| < 6 {
        ClaimedTogether(before, now, starts, polls, calls);
        FirstOfBounds(jobs.order, PollCandidates(started, now), 6 - |starts|);
        PollsLease(started, now, starts, polls);
        RunOneMore(before, [reopen] + [start], ClaimPoll(workerId, now, leaseDuration, Members(polls)));
      } else {
        assert calls == [reopen] + [start];
      }
    }

    /** When the scan is over, each claimed job whose provider answered within the lease is as that answer says, and every
        other job as it was after the claims. */
    ghost predicate ScanOutcome(
      claimed: Jobs, after: Jobs, starts: seq<JobId>, polls: seq<JobId>, answers: JobId -> Answer, now: Time)
    {
      && after.Keys == claimed.Keys && Members(starts) + Members(polls) <= claimed.Keys
      && (forall id :: id in claimed && id !in Members(starts) + Members(polls) ==> after[id] == claimed[id])
      && (forall id :: id in Members(starts) && answers(id).now < now + leaseDuration ==>
            StartedAs(claimed[id], after[id], SettingOf(answers(id)), answers(id).reply, answers(id).now))
      && (forall id :: id in Members(polls) && answers(id).now < now + leaseDuration ==>
            PolledAs(claimed[id], after[id], SettingOf(answers(id)), claimed[id].providerJobId, answers(id).reply, answers(id).now))
    }

    lemma HandlerLeaves(claimed: Jobs, scan: seq<Call>, h: Handler, a: Answer)
      requires h.job.id in claimed && Holds(claimed[h.job.id], h.starts, workerId, a.now)
      requires forall c :: c in scan ==> NeedsLease(c)
      requires Follows(claimed, scan, h.job.id, PlanOf(h, a), false, false)
      ensures h.job.id in Run(claimed, scan) && Outcome(claimed[h.job.id], Run(claimed, scan)[h.job.id], h, a)
    {
      var id := h.job.id;
      OneJobAlone(claimed, scan, id);
      PlanLeaves(map[id := claimed[id]], h, a, FirstAccepted(claimed, scan, id));
    }

    lemma {:induction false} UntouchedHasNoCalls(scan: seq<Call>, id: JobId)
      requires forall c :: c in scan ==> !Concerns(c, id)
      ensures CallsFor(scan, id) == []
    {
      if scan != [] { UntouchedHasNoCalls(scan[..|scan| - 1], id); }
    }

    lemma ClaimedJobLeaves(claimed: Jobs, scan: seq<Call>, starts: seq<JobId>, polls: seq<JobId>, answers: JobId -> Answer,
                           now: Time, id: JobId)
      requires Leased(claimed, starts, polls, now) && id in Members(starts) + Members(polls) && claimed[id].id == id
      requires Underway(claimed, scan, Plans(HandlersOf(claimed, starts, polls), answers), {}, {})
      requires answers(id).now < now + leaseDuration
      ensures id in Run(claimed, scan)
      ensures Outcome(claimed[id], Run(claimed, scan)[id], Handler(claimed[id], id in Members(starts)), answers(id))
    {
      var h := Handler(claimed[id], id in Members(starts));
      var plans := Plans(HandlersOf(claimed, starts, polls), answers);
      assert plans[id] == PlanOf(h, answers(id));
      assert Follows(claimed, scan, id, plans[id], false, false);
      HandlerLeaves(claimed, scan, h, answers(id));
    }

    lemma OtherJobStays(claimed: Jobs, scan: seq<Call>, plans: map<JobId, Plan>, id: JobId)
      requires id in claimed && id !in plans && AboutPlans(scan, plans)
      ensures id in Run(claimed, scan) && Run(claimed, scan)[id] == claimed[id]
    {
      UntouchedHasNoCalls(scan, id);
      OneJobAlone(claimed, scan, id);
      assert map[id := claimed[id]][id] == claimed[id];
    }

    lemma ScanLeaves(claimed: Jobs, scan: seq<Call>, starts: seq<JobId>, polls: seq<JobId>, answers: JobId -> Answer, now: Time)
      requires Leased(claimed, starts, polls, now) && Members(starts) !! Members(polls)
      requires forall id :: id in claimed ==> claimed[id].id == id
      requires Underway(claimed, scan, Plans(HandlersOf(claimed, starts, polls), answers), {}, {})
      ensures ScanOutcome(claimed, Run(claimed, scan), starts, polls, answers, now)
    {
      var plans := Plans(HandlersOf(claimed, starts, polls), answers);
      var after := Run(claimed, scan);
      KeysStay(claimed, scan);
      forall id | id in claimed && id !in Members(starts) + Members(polls) ensures after[id] == claimed[id] {
        OtherJobStays(claimed, scan, plans, id);
      }
      forall id | id in Members(starts) + Members(polls) && answers(id).now < now + leaseDuration
        ensures Outcome(claimed[id], after[id], Handler(claimed[id], id in Members(starts)), answers(id))
      {
        ClaimedJobLeaves(claimed, scan, starts, polls, answers, now, id);
      }
    }

    /** run_once: whatever the providers answer and however the handlers interleave, the scan is a legal run of repository
        calls, so every contract a run keeps it keeps. It handles exactly the jobs it claimed, at most six, each as it was
        claimed; when it ends each handler has made its reaction's call and, exactly when something raised, its last resort. */
    method RunOnce(now: Time, answers: JobId -> Answer)
      returns (handled: nat, ghost starts: seq<JobId>, ghost polls: seq<JobId>, ghost claims: seq<Call>, ghost scan: seq<Call>)
      requires Valid() && jobs.Valid()
      modifies jobs`records
      ensures jobs.Valid() && handled == |starts| + |polls| <= 6
      ensures jobs.records == Run(old(jobs.records), claims + scan) && LegalRun(old(jobs.records), claims + scan)
      ensures ScanClaims(old(jobs.records), now, starts, polls, claims)
      ensures var claimed := Run(old(jobs.records), claims);
              && Members(starts) + Members(polls) <= claimed.Keys
              && Underway(claimed, scan, Plans(HandlersOf(claimed, starts, polls), answers), {}, {})
      ensures ScanOutcome(Run(old(jobs.records), claims), jobs.records, starts, polls, answers, now)
      ensures AllSound(old(jobs.records)) ==> AllSound(jobs.records)
    {
      var toStart, toPoll;
      toStart, toPoll, claims := Claim(now);
      starts, polls := toStart, toPoll;
      handled := |toStart| + |toPoll|;
      ClaimsLease(old(jobs.records), now, starts, polls, claims);
      scan := Gather(HandlersOf(jobs.records, toStart, toPoll), answers);
      ScanLeaves(Run(old(jobs.records), claims), scan, starts, polls, answers, now);
      RunAppend(old(jobs.records), claims, scan);
      if AllSound(old(jobs.records)) { RunKeepsContract(old(jobs.records), claims + scan); }
    }
  }

  /** One handler for each claimed job, as it was claimed. */
  function HandlersOf(claimed: Jobs, starts: seq<JobId>, polls: seq<JobId>): map<JobId, Handler>
    requires Members(starts) + Members(polls) <= claimed.Keys
  {
    map id | id in Members(starts) + Members(polls) :: Handler(claimed[id], id in Members(starts))
  }

  /** The call of reopen_missing_image_results that a scan makes. */
  function ReopenCall(jobs: Jobs, order: seq<JobId>, now: Time): Call {
    var slots := SlotsInOrder(jobs, order, Reopenables(jobs));
    Reopen(now, Chosen(jobs, order, Reopenables(jobs), slots[..Clamp(6, |slots|)]))
  }
}
