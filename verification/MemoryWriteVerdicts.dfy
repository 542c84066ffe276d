/** Why a Mem0 write ends where it ends: each final status goes back to what the adapter told a claim of the write, over
    every run; and what one undisturbed delivery does with each answer. */
module MemoryWriteVerdicts {
  import opened Common
  import opened MemoryWriteState
  import opened MemoryWriteRuns
  import D = MemoryWriteDelivery

  /** What the adapter told a claim: the answer of get_event and the worker's limit of attempts, or the answer of add. */
  datatype Said = Polled(answer: PollAnswer, limit: nat) | Submitted(reply: AddAnswer)

  /** The history of answers by claim, after one more step. */
  function Heard(told: map<nat, Said>, s: State, step: Step): map<nat, Said> {
    match step
    case Poll(claim, answer, limit) =>
      if At(s, claim) && s.procs[claim].intent == Some(PollEvent) then told[claim := Polled(answer, limit)] else told
    case Add(claim, reply) =>
      if At(s, claim) && s.procs[claim].intent == Some(AddMemory) then told[claim := Submitted(reply)] else told
    case _ => told
  }

  function Told(told: map<nat, Said>, s: State, steps: seq<Step>): map<nat, Said>
    decreases |steps|
  {
    if steps == [] then told else Told(Heard(told, s, steps[0]), Next(s, steps[0]), steps[1..])
  }

  /** get_event found the event that the claim carries stable. */
  predicate SawStable(told: map<nat, Said>, i: nat) {
    i in told && told[i].Polled? && told[i].answer == Stable
  }

  /** What sends a claim to manual review, and under which failure code. */
  predicate Troubled(told: map<nat, Said>, p: Proc, i: nat, code: string) {
    if i !in told then p.eventId.None? && p.attempts > 1 && code == "mem0_add_submit_boundary_unknown"
    else
      match told[i]
      case Polled(PollRaised, _) => code == "mem0_add_submit_boundary_unknown"
      case Polled(StillPending, limit) => p.attempts >= limit && code == "mem0_event_poll_attempts_exhausted"
      case Polled(Stable, _) => false
      case Submitted(AddRaised) => code == "mem0_add_submit_boundary_unknown"
      case Submitted(Added(id)) => id == "" && code == "mem0_add_event_id_missing"
  }

  /** What may send a claim back to pending: a new event id, or an event that is pending below the limit. */
  predicate MayRetry(told: map<nat, Said>, p: Proc, i: nat) {
    && i in told
    && match told[i]
       case Polled(answer, limit) => answer == StillPending && p.attempts < limit
       case Submitted(reply) => reply.Added? && reply.eventId != ""
  }

  /** A claim's intent follows from what it was told, and it is told once. */
  predicate Explained(told: map<nat, Said>, p: Proc, i: nat) {
    p.intent.Some? ==>
      match p.intent.value
      case PollEvent => i !in told && p.eventId.Some?
      case AddMemory => i !in told && p.eventId.None? && p.attempts == 1
      case SaveEvent(id) => i in told && told[i] == Submitted(Added(id)) && id != ""
      case Retry => MayRetry(told, p, i)
      case Review(code) => Troubled(told, p, i, code)
      case Complete => SawStable(told, i) && p.eventId.Some?
  }

  /** Some claim of the key that carried a stored event id found it stable. */
  ghost predicate FoundStable(s: State, told: map<nat, Said>, key: WriteKey) {
    exists i :: 0 <= i < |s.procs| && s.procs[i].key == key && s.procs[i].eventId.Some? && SawStable(told, i)
  }

  /** Some claim of the key got into trouble. */
  ghost predicate RanIntoTrouble(s: State, told: map<nat, Said>, key: WriteKey) {
    exists i, code :: 0 <= i < |s.procs| && s.procs[i].key == key && Troubled(told, s.procs[i], i, code)
  }

  ghost predicate StatusExplained(s: State, told: map<nat, Said>, key: WriteKey) {
    && key in s.rows
    && (s.rows[key].status == Completed ==> FoundStable(s, told, key))
    && (s.rows[key].status == ManualReview ==> RanIntoTrouble(s, told, key))
  }

  ghost predicate AllExplained(s: State, told: map<nat, Said>) {
    && (forall i :: i in told ==> i < |s.procs|)
    && (forall i :: 0 <= i < |s.procs| ==> Explained(told, s.procs[i], i))
    && (forall key :: key in s.rows ==> StatusExplained(s, told, key))
  }

  /** Claims are only added, and only change their intent; answers are only added to claims without one. */
  ghost predicate HistoryGrows(s: State, told: map<nat, Said>, t: State, after: map<nat, Said>) {
    && |s.procs| <= |t.procs|
    && (forall i :: 0 <= i < |s.procs| ==>
          t.procs[i].key == s.procs[i].key && t.procs[i].attempts == s.procs[i].attempts && t.procs[i].eventId == s.procs[i].eventId)
    && (forall i :: i in told ==> i in after && after[i] == told[i])
    && (forall i :: i in after && i !in told ==>
          i < |s.procs| && (s.procs[i].intent == Some(PollEvent) || s.procs[i].intent == Some(AddMemory)))
  }

  lemma StepGrowsHistory(s: State, told: map<nat, Said>, step: Step)
    requires AllExplained(s, told)
    ensures HistoryGrows(s, told, Next(s, step), Heard(told, s, step))
  {
    if (step.Poll? || step.Add?) && At(s, step.claim) { assert Explained(told, s.procs[step.claim], step.claim); }
  }

  /** The claim whose step it is. */
  predicate Drives(step: Step, i: nat) {
    match step
    case Poll(claim, _, _) => claim == i
    case Add(claim, _) => claim == i
    case Fetch(claim) => claim == i
    case Save(claim, _, _) => claim == i
    case Release(claim, _, _) => claim == i
    case Die(claim) => claim == i
    case _ => false
  }

  lemma OtherProcsStay(s: State, told: map<nat, Said>, step: Step, i: nat)
    requires i < |s.procs| && !Drives(step, i)
    ensures i < |Next(s, step).procs| && Next(s, step).procs[i] == s.procs[i]
    ensures (i in Heard(told, s, step) <==> i in told) && (i in told ==> Heard(told, s, step)[i] == told[i])
  {
  }

  lemma DrivenIsExplained(s: State, told: map<nat, Said>, step: Step, i: nat)
    requires i < |s.procs| && Drives(step, i) && Explained(told, s.procs[i], i) && ProcSound(s.rows, s.procs[i])
    ensures Explained(Heard(told, s, step), Next(s, step).procs[i], i)
  {
    match step
    case Poll(_, _, _) => case Add(_, _) => case Fetch(_) => case Save(_, _, _) => case Release(_, _, _) => case Die(_) =>
  }

  lemma NewClaimIsExplained(s: State, told: map<nat, Said>, selection: nat)
    requires Sound(s) && AllExplained(s, told) && selection < |s.selections| && s.selections[selection].key in s.rows
    ensures Explained(told, ClaimOf(s.selections[selection]), |s.procs|)
  {
    assert EventKept(s.rows, s.selections[selection].key, s.selections[selection].read);
  }

  lemma StepExplainsProcs(s: State, told: map<nat, Said>, step: Step, i: nat)
    requires Sound(s) && AllExplained(s, told) && i < |Next(s, step).procs|
    ensures Explained(Heard(told, s, step), Next(s, step).procs[i], i)
  {
    if i < |s.procs| {
      assert Explained(told, s.procs[i], i) && ProcSound(s.rows, s.procs[i]);
      if Drives(step, i) { DrivenIsExplained(s, told, step, i); } else { OtherProcsStay(s, told, step, i); }
    } else {
      assert step.EndClaim? && i == |s.procs| && Next(s, step).procs[i] == ClaimOf(s.selections[step.selection]);
      NewClaimIsExplained(s, told, step.selection);
    }
  }

  /** A row gets a final status only when a claim with that intent ends. */
  lemma FinalStatusIsReleased(s: State, step: Step, key: WriteKey)
    requires key in Next(s, step).rows
    requires key in s.rows ==> s.rows[key].status != Next(s, step).rows[key].status
    ensures var status := Next(s, step).rows[key].status;
            status == Completed || status == ManualReview ==>
              && step.Release? && At(s, step.claim) && s.procs[step.claim].key == key
              && (if status == Completed then s.procs[step.claim].intent == Some(Complete)
                  else s.procs[step.claim].intent.value.Review?)
  {
  }

  lemma ReasonsStay(s: State, told: map<nat, Said>, t: State, after: map<nat, Said>, key: WriteKey)
    requires AllExplained(s, told) && HistoryGrows(s, told, t, after)
    ensures FoundStable(s, told, key) ==> FoundStable(t, after, key)
    ensures RanIntoTrouble(s, told, key) ==> RanIntoTrouble(t, after, key)
  {
    if FoundStable(s, told, key) {
      var i :| 0 <= i < |s.procs| && s.procs[i].key == key && s.procs[i].eventId.Some? && SawStable(told, i);
      assert SawStable(after, i) && t.procs[i].key == key;
    }
    if RanIntoTrouble(s, told, key) {
      var i, code :| 0 <= i < |s.procs| && s.procs[i].key == key && Troubled(told, s.procs[i], i, code);
      assert Explained(told, s.procs[i], i);
      assert Troubled(after, t.procs[i], i, code);
    }
  }

  lemma StepExplainsStatus(s: State, told: map<nat, Said>, step: Step, key: WriteKey)
    requires Sound(s) && AllExplained(s, told) && key in Next(s, step).rows
    ensures StatusExplained(Next(s, step), Heard(told, s, step), key)
  {
    var t, after := Next(s, step), Heard(told, s, step);
    StepGrowsHistory(s, told, step);
    if key in s.rows && s.rows[key].status == t.rows[key].status {
      assert StatusExplained(s, told, key);
    } else {
      FinalStatusIsReleased(s, step, key);
      if t.rows[key].status == Completed {
        assert Explained(told, s.procs[step.claim], step.claim);
        assert FoundStable(s, told, key);
      } else if t.rows[key].status == ManualReview {
        assert Explained(told, s.procs[step.claim], step.claim);
        assert Troubled(told, s.procs[step.claim], step.claim, s.procs[step.claim].intent.value.code);
        assert RanIntoTrouble(s, told, key);
      }
    }
    ReasonsStay(s, told, t, after, key);
  }

  lemma StepExplains(s: State, told: map<nat, Said>, step: Step)
    requires Sound(s) && AllExplained(s, told)
    ensures AllExplained(Next(s, step), Heard(told, s, step))
  {
    var t, after := Next(s, step), Heard(told, s, step);
    StepGrowsHistory(s, told, step);
    forall i | 0 <= i < |t.procs| ensures Explained(after, t.procs[i], i) { StepExplainsProcs(s, told, step, i); }
    forall key | key in t.rows ensures StatusExplained(t, after, key) { StepExplainsStatus(s, told, step, key); }
  }

  lemma {:induction false} RunExplains(s: State, told: map<nat, Said>, steps: seq<Step>)
    requires Sound(s) && AllExplained(s, told)
    ensures AllExplained(Run(s, steps), Told(told, s, steps))
    decreases |steps|
  {
    if steps != [] {
      StepExplains(s, told, steps[0]);
      StepKeepsSound(s, steps[0]);
      RunExplains(Next(s, steps[0]), Heard(told, s, steps[0]), steps[1..]);
    }
  }

  /** Over every run from the empty table, with crashes, takeovers and overlapping transactions: a write is completed only if
      some claim of it that carried a stored event id was told by get_event that the memory is stable; and in manual review
      only if some claim of it ran into trouble: get_event or add raised, add gave no event id, the event was still pending
      at the limit of attempts, or a second claim found no event id. */
  lemma FinalStatusesAreTold(steps: seq<Step>, key: WriteKey)
    requires key in Run(EMPTY, steps).rows
    ensures var t, told := Run(EMPTY, steps), Told(map[], EMPTY, steps);
            && (t.rows[key].status == Completed ==> FoundStable(t, told, key))
            && (t.rows[key].status == ManualReview ==> RanIntoTrouble(t, told, key))
  {
    RunExplains(EMPTY, map[], steps);
    assert StatusExplained(Run(EMPTY, steps), Told(map[], EMPTY, steps), key);
  }

  /** After any run, the last transaction of a claim that still has its lease writes what the claim was told: completed under
      its event id exactly when it was told stable, manual review under the code of its trouble, or pending until the given
      time. */
  lemma VerdictIsWritten(steps: seq<Step>, i: nat, notBefore: Time, code: string)
    requires var t := Run(EMPTY, steps);
             && Fetched(t, i) && Releases(t.procs[i].intent.value)
             && t.procs[i].read == Some(t.rows[t.procs[i].key])
             && t.procs[i].read.value.status == Processing && t.procs[i].read.value.leaseOwner == Some(t.procs[i].worker)
    ensures var t, told := Run(EMPTY, steps), Told(map[], EMPTY, steps);
            var p := t.procs[i];
            var after := Next(t, Release(i, notBefore, code)).rows[p.key];
            && after.leaseOwner.None? && after.leaseExpiresAt.None?
            && (after.status == Completed <==> SawStable(told, i))
            && (after.status == Completed ==> after.eventId == p.eventId && after.failure.None? && after.retryNotBefore.None?)
            && (after.status == ManualReview <==> exists why :: Troubled(told, p, i, why))
            && (after.status == ManualReview ==> after.failure.Some? && Troubled(told, p, i, after.failure.value))
            && (after.status == Pending <==> MayRetry(told, p, i))
            && (after.status == Pending ==> after.retryNotBefore == Some(notBefore) && after.failure == Some(code))
            && (after.status != Completed ==> after.eventId == t.rows[p.key].eventId)
  {
    RunExplains(EMPTY, map[], steps);
    var t, told := Run(EMPTY, steps), Told(map[], EMPTY, steps);
    assert Explained(told, t.procs[i], i);
  }

  // ---------------------------------------------------------------- one undisturbed delivery

  /** The columns that no delivery touches. */
  predicate SameWrite(a: Row, b: Row) {
    a.user == b.user && a.category == b.category && a.content == b.content && a.createdAt == b.createdAt
  }

  predicate InReview(r: Row, code: string) {
    && r.status == ManualReview && r.failure == Some(code)
    && r.leaseOwner.None? && r.leaseExpiresAt.None? && r.retryNotBefore.None?
  }

  predicate InRetry(r: Row, notBefore: Time) {
    && r.status == Pending && r.failure == Some("mem0_event_pending") && r.retryNotBefore == Some(notBefore)
    && r.leaseOwner.None? && r.leaseExpiresAt.None?
  }

  predicate IsDone(r: Row) {
    && r.status == Completed && r.failure.None?
    && r.leaseOwner.None? && r.leaseExpiresAt.None? && r.retryNotBefore.None?
  }

  /** What one undisturbed delivery leaves, by what the row had and what the adapter answered. */
  lemma ServedAsAnswered(r: Row, c: D.Settings, lease: int, a: D.Answers)
    requires D.InRange(c) && (r.eventId.Some? ==> r.eventId.value != "")
    ensures var after := D.Serve(r, c, lease, a);
            var next := a.releasedAt + D.Delay(c, r.attempts + 1);
            && SameWrite(r, after) && after.attempts == r.attempts + 1
            && (if r.eventId.Some? then
                  && after.eventId == r.eventId
                  && (a.poll == Stable ==> IsDone(after))
                  && (a.poll == PollRaised ==> InReview(after, "mem0_add_submit_boundary_unknown"))
                  && (a.poll == StillPending ==>
                        if r.attempts + 1 < c.maxAttempts then InRetry(after, next)
                        else InReview(after, "mem0_event_poll_attempts_exhausted"))
                else if r.attempts > 0 then
                  InReview(after, "mem0_add_submit_boundary_unknown") && after.eventId.None?
                else
                  && (a.add.AddRaised? ==> InReview(after, "mem0_add_submit_boundary_unknown") && after.eventId.None?)
                  && (a.add == Added("") ==> InReview(after, "mem0_add_event_id_missing") && after.eventId.None?)
                  && (a.add.Added? && a.add.eventId != "" ==> InRetry(after, next) && after.eventId == Some(a.add.eventId)))
  {
    D.DelaysGrowToCap(c, r.attempts + 1);
  }

  /** When a row can be claimed again: a claimed one once its lease ran out, which saving an event id prolongs; one put back
      from its retry time on; a requeued one at once, as a first claim if it has no event id; a finished one never. */
  lemma ClaimableAgain(r: Row, worker: WorkerId, now: Time, lease: int, notBefore: Time, code: string, t: Time, eventId: string)
    ensures Claimable(Claimed(r, worker, now, lease), t) <==> t >= now + lease
    ensures Claimable(Saved(Claimed(r, worker, now, 0), eventId, now, lease), t) <==> t >= now + lease
    ensures Claimable(Retried(r, notBefore, code), t) <==> t >= notBefore
    ensures Claimable(Requeued(r), t)
    ensures FirstIntent(r.eventId, Requeued(r).attempts + 1) == AddMemory <==> r.eventId.None?
    ensures r.status == Completed || r.status == ManualReview ==> !Claimable(r, t)
  {
  }

  /** The i-th answer is the first that does not say pending, it says stable, and every claim before it is below the limit. */
  predicate StableAt(c: D.Settings, attempts: nat, answers: seq<D.Answers>, i: nat) {
    && i < |answers| && answers[i].poll == Stable
    && forall j :: 0 <= j < i ==> answers[j].poll == StillPending && attempts + j + 1 < c.maxAttempts
  }

  lemma ServeAllStep(r: Row, c: D.Settings, lease: int, answers: seq<D.Answers>)
    requires answers != [] && !D.Settled(r)
    ensures var after := D.Serve(r, c, lease, answers[0]);
            D.ServeAll(r, c, lease, answers) == if D.Settled(after) then after else D.ServeAll(after, c, lease, answers[1..])
  {
    var after := D.Serve(r, c, lease, answers[0]);
    if D.Settled(after) { assert D.ServeAll(after, c, lease, answers[1..]) == after; }
  }

  lemma {:induction false} PollsCompleteIff(r: Row, c: D.Settings, lease: int, answers: seq<D.Answers>)
    requires D.InRange(c) && D.Waiting(r) && r.eventId.Some?
    ensures D.ServeAll(r, c, lease, answers).status == Completed <==> exists i :: StableAt(c, r.attempts, answers, i)
    ensures D.ServeAll(r, c, lease, answers).eventId == r.eventId
    decreases |answers|
  {
    if answers != [] {
      var after := D.Serve(r, c, lease, answers[0]);
      ServedAsAnswered(r, c, lease, answers[0]);
      ServeAllStep(r, c, lease, answers);
      match answers[0].poll
      case Stable => assert StableAt(c, r.attempts, answers, 0);
      case PollRaised => assert forall i :: StableAt(c, r.attempts, answers, i) ==> i == 0;
      case StillPending =>
        if r.attempts + 1 < c.maxAttempts {
          PollsCompleteIff(after, c, lease, answers[1..]);
          if i: nat :| StableAt(c, after.attempts, answers[1..], i) { LaterStable(c, r.attempts, answers, i); }
          if i: nat :| StableAt(c, r.attempts, answers, i) {
            EarlierStable(c, r.attempts, answers, i);
          }
        } else {
          assert forall i :: StableAt(c, r.attempts, answers, i) ==> i == 0;
        }
    }
  }

  lemma LaterStable(c: D.Settings, attempts: nat, answers: seq<D.Answers>, i: nat)
    requires answers != [] && answers[0].poll == StillPending && attempts + 1 < c.maxAttempts
    requires StableAt(c, attempts + 1, answers[1..], i)
    ensures StableAt(c, attempts, answers, i + 1)
  {
    forall j | 0 <= j < i + 1 ensures answers[j].poll == StillPending && attempts + j + 1 < c.maxAttempts {
      if j > 0 { assert answers[1..][j - 1] == answers[j]; }
    }
  }

  lemma EarlierStable(c: D.Settings, attempts: nat, answers: seq<D.Answers>, i: nat)
    requires answers != [] && answers[0].poll == StillPending && StableAt(c, attempts, answers, i)
    ensures i > 0 && StableAt(c, attempts + 1, answers[1..], i - 1)
  {
    assert answers[1..][i - 1] == answers[i];
    forall j | 0 <= j < i - 1 ensures answers[1..][j].poll == StillPending && attempts + 1 + j + 1 < c.maxAttempts {
      assert answers[1..][j] == answers[j + 1];
    }
  }

  /** With one worker and no crash, a write is completed if and only if add gave it an event id, or it had one, and get_event
      found that event stable before it raised and before the attempts ran out. */
  lemma CompletedIff(r: Row, c: D.Settings, lease: int, answers: seq<D.Answers>)
    requires D.InRange(c) && D.Waiting(r) && answers != []
    ensures D.ServeAll(r, c, lease, answers).status == Completed
            <==> if r.eventId.Some? then exists i :: StableAt(c, r.attempts, answers, i)
                 else && r.attempts == 0 && answers[0].add.Added? && answers[0].add.eventId != ""
                      && exists i :: StableAt(c, 1, answers[1..], i)
  {
    if r.eventId.Some? {
      PollsCompleteIff(r, c, lease, answers);
    } else {
      var after := D.Serve(r, c, lease, answers[0]);
      ServedAsAnswered(r, c, lease, answers[0]);
      ServeAllStep(r, c, lease, answers);
      if !D.Settled(after) { PollsCompleteIff(after, c, lease, answers[1..]); }
    }
  }
}
