/** Duplicate submission to Mem0: any number of workers, crashed claims and expired leases, and owners who requeue. No
    transaction locks the row it reads, so each reads in one step and ends in another. */
module MemoryWriteRuns {
  import opened Common
  import opened MemoryWriteState

  /** A claim under way: the row as the worker selected it. */
  datatype Selection = Selection(key: WriteKey, read: Row, worker: WorkerId, now: Time, lease: int, open: bool)

  /** A committed claim and where its processing stands; no intent once it ended or died. `read` is the row as the
      transaction under way read it. */
  datatype Proc = Proc(
    key: WriteKey, worker: WorkerId, attempts: nat, eventId: Option<string>, intent: Option<Intent>, read: Option<Row>)

  datatype Requeueing = Requeueing(key: WriteKey, user: UserId, read: Row, open: bool)

  /** `added` holds the claims that called adapter.add, `resets` the requeues that read no event id, `overlaps` the first
      claims that ended on a row which was claimed since they selected it. */
  datatype State = State(
    rows: Rows, selections: seq<Selection>, procs: seq<Proc>, requeues: seq<Requeueing>,
    added: set<nat>, resets: seq<WriteKey>, overlaps: seq<WriteKey>)

  const EMPTY := State(map[], [], [], [], {}, [], [])

  datatype Step =
    | Enqueue(key: WriteKey, user: UserId, category: string, content: string, createdAt: Time)
    | Select(key: WriteKey, worker: WorkerId, now: Time, lease: int)
    | EndClaim(selection: nat)
    | Poll(claim: nat, answer: PollAnswer, maxAttempts: nat)
    | Add(claim: nat, reply: AddAnswer)
    | Fetch(claim: nat)
    | Save(claim: nat, now: Time, lease: int)
    | Release(claim: nat, notBefore: Time, code: string)
    | Die(claim: nat)
    | ReadRequeue(key: WriteKey, user: UserId)
    | EndRequeue(requeue: nat)

  predicate At(s: State, claim: nat) { claim < |s.procs| && s.procs[claim].intent.Some? }

  predicate Releases(i: Intent) { i.Retry? || i.Review? || i.Complete? }

  function Moved(s: State, claim: nat, intent: Option<Intent>): State
    requires claim < |s.procs|
  {
    s.(procs := s.procs[claim := s.procs[claim].(intent := intent, read := None)])
  }

  /** The row after the last transaction of a claim: retry, manual review or completion. */
  function Released(r: Row, p: Proc, intent: Intent, notBefore: Time, code: string): Row {
    match intent
    case Retry => Retried(r, notBefore, code)
    case Review(why) => Reviewed(r, why)
    case Complete => Finished(r, p.eventId)
    case _ => r
  }

  function Wanted(c: Selection): Row { Claimed(c.read, c.worker, c.now, c.lease) }

  function ClaimOf(c: Selection): Proc {
    Proc(c.key, c.worker, c.read.attempts + 1, c.read.eventId, Some(FirstIntent(c.read.eventId, c.read.attempts + 1)), None)
  }

  /** The claim commits on the row as it is now. */
  function AfterClaim(s: State, i: nat): State
    requires i < |s.selections| && s.selections[i].key in s.rows
  {
    var c := s.selections[i];
    s.(rows := s.rows[c.key := Overlay(c.read, Wanted(c), s.rows[c.key])],
       selections := s.selections[i := c.(open := false)],
       procs := s.procs + [ClaimOf(c)],
       overlaps := if c.read.attempts == 0 && s.rows[c.key].attempts != 0 then s.overlaps + [c.key] else s.overlaps)
  }

  /** A transaction of a claim ends; it writes if the lease was the claim's worker's when it read the row. */
  function Written(s: State, p: Proc, wanted: Row): State
    requires p.read.Some? && p.key in s.rows
  {
    if p.read.value.leaseOwner == Some(p.worker) then
      s.(rows := s.rows[p.key := Overlay(p.read.value, wanted, s.rows[p.key])])
    else s
  }

  function AfterSave(s: State, claim: nat, now: Time, lease: int): State
    requires At(s, claim) && s.procs[claim].intent.value.SaveEvent? && s.procs[claim].read.Some? && s.procs[claim].key in s.rows
  {
    var p := s.procs[claim];
    Moved(Written(s, p, Saved(p.read.value, p.intent.value.eventId, now, lease)), claim,
          if p.read.value.leaseOwner == Some(p.worker) then Some(Retry) else None)
  }

  function AfterRelease(s: State, claim: nat, notBefore: Time, code: string): State
    requires At(s, claim) && s.procs[claim].read.Some? && s.procs[claim].key in s.rows
  {
    var p := s.procs[claim];
    Moved(Written(s, p, Released(p.read.value, p, p.intent.value, notBefore, code)), claim, None)
  }

  function AfterRequeue(s: State, i: nat): State
    requires i < |s.requeues| && s.requeues[i].key in s.rows
  {
    var q := s.requeues[i];
    var t := s.(requeues := s.requeues[i := q.(open := false)]);
    if q.read.user != q.user || q.read.status != ManualReview then t
    else
      t.(rows := t.rows[q.key := Overlay(q.read, Requeued(q.read), t.rows[q.key])],
         resets := if q.read.eventId.None? then t.resets + [q.key] else t.resets)
  }

  predicate Fetched(s: State, claim: nat) { At(s, claim) && s.procs[claim].read.Some? && s.procs[claim].key in s.rows }

  function Next(s: State, step: Step): State {
    match step
    case Enqueue(key, user, category, content, createdAt) =>
      if key in s.rows then s else s.(rows := s.rows[key := NewRow(user, category, content, createdAt)])
    case Select(key, worker, now, lease) =>
      if key in s.rows && Claimable(s.rows[key], now) then
        s.(selections := s.selections + [Selection(key, s.rows[key], worker, now, lease, true)])
      else s
    case EndClaim(i) =>
      if i < |s.selections| && s.selections[i].open && s.selections[i].key in s.rows then AfterClaim(s, i) else s
    case Poll(claim, answer, maxAttempts) =>
      if At(s, claim) && s.procs[claim].intent.value.PollEvent? then
        Moved(s, claim, Some(AfterPoll(answer, s.procs[claim].attempts, maxAttempts)))
      else s
    case Add(claim, reply) =>
      if At(s, claim) && s.procs[claim].intent.value.AddMemory? then
        Moved(s.(added := s.added + {claim}), claim, Some(AfterAdd(reply)))
      else s
    case Fetch(claim) =>
      if At(s, claim) && s.procs[claim].key in s.rows then
        s.(procs := s.procs[claim := s.procs[claim].(read := Some(s.rows[s.procs[claim].key]))])
      else s
    case Save(claim, now, lease) =>
      if Fetched(s, claim) && s.procs[claim].intent.value.SaveEvent? then AfterSave(s, claim, now, lease) else s
    case Release(claim, notBefore, code) =>
      if Fetched(s, claim) && Releases(s.procs[claim].intent.value) then AfterRelease(s, claim, notBefore, code) else s
    case Die(claim) => if At(s, claim) then Moved(s, claim, None) else s
    case ReadRequeue(key, user) =>
      if key in s.rows then s.(requeues := s.requeues + [Requeueing(key, user, s.rows[key], true)]) else s
    case EndRequeue(i) =>
      if i < |s.requeues| && s.requeues[i].open && s.requeues[i].key in s.rows then AfterRequeue(s, i) else s
  }

  function Run(s: State, steps: seq<Step>): State
    decreases |steps|
  {
    if steps == [] then s else Run(Next(s, steps[0]), steps[1..])
  }

  // ---------------------------------------------------------------- counting

  function Count(keys: seq<WriteKey>, key: WriteKey): nat {
    if keys == [] then 0 else Count(keys[..|keys| - 1], key) + if keys[|keys| - 1] == key then 1 else 0
  }

  /** Claims of the key that may submit, or have submitted: those whose worker read no attempts. */
  function FirstClaims(procs: seq<Proc>, key: WriteKey): set<nat> {
    set i | 0 <= i < |procs| && procs[i].key == key && procs[i].attempts <= 1
  }

  /** The adapter.add calls made for the key. */
  function Adds(s: State, key: WriteKey): set<nat>
    requires forall i :: i in s.added ==> i < |s.procs|
  {
    set i | i in s.added && s.procs[i].key == key
  }

  /** An event id that a reading shows is still there. */
  predicate EventKept(rows: Rows, key: WriteKey, read: Row) {
    key in rows && (read.eventId.Some? ==> read.eventId.value != "" && rows[key].eventId.Some?)
  }

  predicate ProcSound(rows: Rows, p: Proc) {
    && p.key in rows && p.attempts >= 1
    && (p.eventId.Some? ==> p.eventId.value != "")
    && (p.intent == Some(AddMemory) ==> p.attempts == 1 && p.eventId.None?)
    && (p.intent.Some? && p.intent.value.SaveEvent? ==> p.intent.value.eventId != "")
    && (p.intent == Some(Complete) || p.intent == Some(PollEvent) ==> p.eventId.Some?)
    && (p.read.Some? ==> EventKept(rows, p.key, p.read.value))
  }

  predicate RowSound(s: State, key: WriteKey) {
    && key in s.rows
    && |FirstClaims(s.procs, key)| <= Count(s.resets, key) + Count(s.overlaps, key) + (if s.rows[key].attempts == 0 then 0 else 1)
    && (s.rows[key].eventId.Some? ==> s.rows[key].eventId.value != "")
  }

  ghost predicate ReadsSound(s: State) {
    && (forall i :: 0 <= i < |s.selections| ==> EventKept(s.rows, s.selections[i].key, s.selections[i].read))
    && (forall i :: 0 <= i < |s.requeues| ==> EventKept(s.rows, s.requeues[i].key, s.requeues[i].read))
  }

  ghost predicate ProcsSound(s: State) {
    && (forall i :: 0 <= i < |s.procs| ==> ProcSound(s.rows, s.procs[i]))
    && (forall i :: i in s.added ==> i < |s.procs| && s.procs[i].attempts == 1 && s.procs[i].intent != Some(AddMemory))
  }

  ghost predicate Sound(s: State) {
    (forall key :: key in s.rows ==> RowSound(s, key)) && ReadsSound(s) && ProcsSound(s)
  }

  lemma CountSnoc(keys: seq<WriteKey>, k: WriteKey, key: WriteKey)
    ensures Count(keys + [k], key) == Count(keys, key) + if k == key then 1 else 0
  {
    assert (keys + [k])[..|keys|] == keys;
  }

  lemma FirstClaimsSnoc(procs: seq<Proc>, p: Proc, key: WriteKey)
    ensures |FirstClaims(procs + [p], key)| ==
            |FirstClaims(procs, key)| + if p.key == key && p.attempts <= 1 then 1 else 0
  {
    var before, after := FirstClaims(procs, key), FirstClaims(procs + [p], key);
    if p.key == key && p.attempts <= 1 {
      assert after == before + {|procs|};
    } else {
      assert after == before;
    }
  }

  /** A claim's processing moves on; rows, readings and counts are as before. */
  lemma ProcMove(s: State, claim: nat, p: Proc)
    requires Sound(s) && claim < |s.procs| && p.key == s.procs[claim].key && p.attempts == s.procs[claim].attempts
    requires ProcSound(s.rows, p) && (claim in s.added ==> p.intent != Some(AddMemory))
    ensures Sound(s.(procs := s.procs[claim := p]))
  {
    var t := s.(procs := s.procs[claim := p]);
    forall key | key in s.rows ensures RowSound(t, key) {
      assert RowSound(s, key);
      assert FirstClaims(t.procs, key) == FirstClaims(s.procs, key);
    }
  }

  /** One row changes without losing its event or its attempts. */
  lemma RowMove(s: State, key: WriteKey, row: Row)
    requires Sound(s) && key in s.rows && row.attempts == s.rows[key].attempts
    requires (s.rows[key].eventId.Some? ==> row.eventId.Some?) && (row.eventId.Some? ==> row.eventId.value != "")
    ensures Sound(s.(rows := s.rows[key := row]))
  {
    var t := s.(rows := s.rows[key := row]);
    forall k | k in t.rows ensures RowSound(t, k) { assert RowSound(s, k); }
    RowsKeepReads(s, t);
  }

  lemma RowsKeepReads(s: State, t: State)
    requires ReadsSound(s) && ProcsSound(s)
    requires t.selections == s.selections && t.requeues == s.requeues && t.procs == s.procs && t.added == s.added
    requires forall k :: k in s.rows ==> k in t.rows && (s.rows[k].eventId.Some? ==> t.rows[k].eventId.Some?)
    ensures ReadsSound(t) && ProcsSound(t)
  {
    forall i | 0 <= i < |s.procs| ensures ProcSound(t.rows, s.procs[i]) { assert ProcSound(s.rows, s.procs[i]); }
  }

  lemma SelectKeepsSound(s: State, c: Selection)
    requires Sound(s) && c.key in s.rows && c.read == s.rows[c.key]
    ensures Sound(s.(selections := s.selections + [c]))
  {
    var t := s.(selections := s.selections + [c]);
    assert RowSound(s, c.key);
    forall k | k in t.rows ensures RowSound(t, k) { assert RowSound(s, k); }
  }

  lemma ReadRequeueKeepsSound(s: State, q: Requeueing)
    requires Sound(s) && q.key in s.rows && q.read == s.rows[q.key]
    ensures Sound(s.(requeues := s.requeues + [q]))
  {
    var t := s.(requeues := s.requeues + [q]);
    assert RowSound(s, q.key);
    forall k | k in t.rows ensures RowSound(t, k) { assert RowSound(s, k); }
  }

  lemma ClaimKeepsRows(s: State, i: nat)
    requires Sound(s) && i < |s.selections| && s.selections[i].key in s.rows
    ensures forall k :: k in AfterClaim(s, i).rows ==> RowSound(AfterClaim(s, i), k)
  {
    var c, t := s.selections[i], AfterClaim(s, i);
    forall k | k in t.rows ensures RowSound(t, k) {
      assert RowSound(s, k);
      FirstClaimsSnoc(s.procs, ClaimOf(c), k);
      CountSnoc(s.overlaps, c.key, k);
    }
  }

  lemma ClaimKeepsSound(s: State, i: nat)
    requires Sound(s) && i < |s.selections| && s.selections[i].key in s.rows
    ensures Sound(AfterClaim(s, i))
  {
    var c, t := s.selections[i], AfterClaim(s, i);
    ClaimKeepsRows(s, i);
    var u := s.(rows := t.rows);
    assert RowSound(s, c.key);
    RowsKeepReads(s, u);
    assert EventKept(s.rows, c.key, c.read);
    assert ProcSound(t.rows, ClaimOf(c));
  }

  lemma RequeueKeepsSound(s: State, i: nat)
    requires Sound(s) && i < |s.requeues| && s.requeues[i].key in s.rows
    ensures Sound(AfterRequeue(s, i))
  {
    var q, t := s.requeues[i], AfterRequeue(s, i);
    forall k | k in t.rows ensures RowSound(t, k) {
      assert RowSound(s, k);
      CountSnoc(s.resets, q.key, k);
    }
    assert EventKept(s.rows, q.key, q.read);
    RowsKeepReads(s, s.(rows := t.rows));
  }

  /** The write of a save, retry, review or completion keeps events and attempts. */
  lemma WrittenKeepsSound(s: State, p: Proc, wanted: Row)
    requires Sound(s) && p.read.Some? && p.key in s.rows && EventKept(s.rows, p.key, p.read.value)
    requires wanted.attempts == p.read.value.attempts
    requires wanted.eventId != p.read.value.eventId ==> wanted.eventId.Some? && wanted.eventId.value != ""
    ensures Sound(Written(s, p, wanted))
  {
    assert RowSound(s, p.key);
    if p.read.value.leaseOwner == Some(p.worker) { RowMove(s, p.key, Overlay(p.read.value, wanted, s.rows[p.key])); }
  }

  lemma EnqueueKeepsSound(s: State, key: WriteKey, row: Row)
    requires Sound(s) && key !in s.rows && row.attempts == 0 && row.eventId.None?
    ensures Sound(s.(rows := s.rows[key := row]))
  {
    var t := s.(rows := s.rows[key := row]);
    forall k | k in t.rows ensures RowSound(t, k) {
      if k in s.rows {
        assert RowSound(s, k);
      } else {
        assert forall i :: 0 <= i < |s.procs| ==> ProcSound(s.rows, s.procs[i]);
        assert FirstClaims(s.procs, k) == {};
      }
    }
    RowsKeepReads(s, t);
  }

  lemma SaveKeepsSound(s: State, claim: nat, now: Time, lease: int)
    requires Sound(s) && Fetched(s, claim) && s.procs[claim].intent.value.SaveEvent?
    ensures Sound(AfterSave(s, claim, now, lease))
  {
    var p := s.procs[claim];
    assert ProcSound(s.rows, p);
    var t := Written(s, p, Saved(p.read.value, p.intent.value.eventId, now, lease));
    WrittenKeepsSound(s, p, Saved(p.read.value, p.intent.value.eventId, now, lease));
    ProcMove(t, claim, p.(intent := if p.read.value.leaseOwner == Some(p.worker) then Some(Retry) else None, read := None));
  }

  lemma ReleaseKeepsSound(s: State, claim: nat, notBefore: Time, code: string)
    requires Sound(s) && Fetched(s, claim) && Releases(s.procs[claim].intent.value)
    ensures Sound(AfterRelease(s, claim, notBefore, code))
  {
    var p := s.procs[claim];
    assert ProcSound(s.rows, p);
    var wanted := Released(p.read.value, p, p.intent.value, notBefore, code);
    WrittenKeepsSound(s, p, wanted);
    ProcMove(Written(s, p, wanted), claim, p.(intent := None, read := None));
  }

  lemma AddKeepsSound(s: State, claim: nat, reply: AddAnswer)
    requires Sound(s) && At(s, claim) && s.procs[claim].intent.value.AddMemory?
    ensures Sound(Moved(s.(added := s.added + {claim}), claim, Some(AfterAdd(reply))))
  {
    var p := s.procs[claim];
    assert ProcSound(s.rows, p);
    var t := s.(procs := s.procs[claim := p.(intent := Some(AfterAdd(reply)), read := None)]);
    ProcMove(s, claim, p.(intent := Some(AfterAdd(reply)), read := None));
    forall k | k in s.rows ensures RowSound(t.(added := s.added + {claim}), k) { assert RowSound(t, k); }
  }

  lemma StepKeepsSound(s: State, step: Step)
    requires Sound(s)
    ensures Sound(Next(s, step))
  {
    match step
    case Enqueue(key, user, category, content, createdAt) =>
      if key !in s.rows { EnqueueKeepsSound(s, key, NewRow(user, category, content, createdAt)); }
    case Select(key, worker, now, lease) =>
      if key in s.rows { SelectKeepsSound(s, Selection(key, s.rows[key], worker, now, lease, true)); }
    case EndClaim(i) => if i < |s.selections| && s.selections[i].key in s.rows { ClaimKeepsSound(s, i); }
    case Save(claim, now, lease) =>
      if Fetched(s, claim) && s.procs[claim].intent.value.SaveEvent? { SaveKeepsSound(s, claim, now, lease); }
    case Release(claim, notBefore, code) =>
      if Fetched(s, claim) && Releases(s.procs[claim].intent.value) { ReleaseKeepsSound(s, claim, notBefore, code); }
    case ReadRequeue(key, user) => if key in s.rows { ReadRequeueKeepsSound(s, Requeueing(key, user, s.rows[key], true)); }
    case EndRequeue(i) => if i < |s.requeues| && s.requeues[i].key in s.rows { RequeueKeepsSound(s, i); }
    case _ => ProcStepKeepsSound(s, step);
  }

  lemma ProcStepKeepsSound(s: State, step: Step)
    requires Sound(s) && (step.Poll? || step.Add? || step.Fetch? || step.Die?)
    ensures Sound(Next(s, step))
  {
    var claim := step.claim;
    if At(s, claim) {
      var p := s.procs[claim];
      assert ProcSound(s.rows, p) && RowSound(s, p.key);
      match step
      case Poll(_, answer, maxAttempts) =>
        if p.intent.value.PollEvent? {
          ProcMove(s, claim, p.(intent := Some(AfterPoll(answer, p.attempts, maxAttempts)), read := None));
        }
      case Add(_, reply) => if p.intent.value.AddMemory? { AddKeepsSound(s, claim, reply); }
      case Fetch(_) => ProcMove(s, claim, p.(read := Some(s.rows[p.key])));
      case Die(_) => ProcMove(s, claim, p.(intent := None, read := None));
    }
  }

  lemma {:induction false} RunKeepsSound(s: State, steps: seq<Step>)
    requires Sound(s)
    ensures Sound(Run(s, steps))
    decreases |steps|
  {
    if steps != [] {
      StepKeepsSound(s, steps[0]);
      RunKeepsSound(Next(s, steps[0]), steps[1..]);
    }
  }

  // ---------------------------------------------------------------- theorems for every run

  lemma SubsetSize<T>(a: set<T>, b: set<T>)
    requires a <= b
    ensures |a| <= |b|
  {
    assert b == a + (b - a);
  }

  /** Over every run, with any crashes, expired leases, takeovers and overlapping transactions: adapter.add is called for a
      write at most once, plus once for each requeue made without an event id, plus once for each first claim that ended on a
      row which was claimed since it selected it. */
  lemma AddsAreBounded(steps: seq<Step>, key: WriteKey)
    requires key in Run(EMPTY, steps).rows
    ensures var t := Run(EMPTY, steps);
            && (forall i :: i in t.added ==> i < |t.procs|)
            && |Adds(t, key)| <= 1 + Count(t.resets, key) + Count(t.overlaps, key)
            && (key !in t.overlaps ==> |Adds(t, key)| <= 1 + Count(t.resets, key))
  {
    var t := Run(EMPTY, steps);
    RunKeepsSound(EMPTY, steps);
    assert RowSound(t, key);
    SubsetSize(Adds(t, key), FirstClaims(t.procs, key));
    CountAbsent(t.overlaps, key);
  }

  lemma {:induction false} CountAbsent(keys: seq<WriteKey>, key: WriteKey)
    ensures key !in keys ==> Count(keys, key) == 0
  {
    if keys != [] { CountAbsent(keys[..|keys| - 1], key); }
  }

  /** An event id, once stored, stays stored. */
  lemma {:induction false} EventStays(s: State, key: WriteKey, steps: seq<Step>)
    requires Sound(s) && key in s.rows && s.rows[key].eventId.Some?
    ensures key in Run(s, steps).rows && Run(s, steps).rows[key].eventId.Some?
    decreases |steps|
  {
    if steps != [] {
      StepKeepsEvent(s, key, steps[0]);
      StepKeepsSound(s, steps[0]);
      EventStays(Next(s, steps[0]), key, steps[1..]);
    }
  }

  lemma StepKeepsEvent(s: State, key: WriteKey, step: Step)
    requires Sound(s) && key in s.rows && s.rows[key].eventId.Some?
    ensures key in Next(s, step).rows && Next(s, step).rows[key].eventId.Some?
  {
    if step.Release? && At(s, step.claim) { assert ProcSound(s.rows, s.procs[step.claim]); }
  }

  lemma {:induction false} SelectionStays(s: State, steps: seq<Step>, i: nat)
    requires i < |s.selections|
    ensures i < |Run(s, steps).selections| && Run(s, steps).selections[i].read == s.selections[i].read
    ensures Run(s, steps).selections[i].key == s.selections[i].key
    decreases |steps|
  {
    if steps != [] { SelectionStays(Next(s, steps[0]), steps[1..], i); }
  }

  /** A claim may call add exactly when the row its worker selected had no event id and no attempts. */
  lemma MayAddIff(s: State, i: nat)
    requires Sound(s) && i < |s.selections| && s.selections[i].open && s.selections[i].key in s.rows
    ensures var t := Next(s, EndClaim(i));
            |t.procs| == |s.procs| + 1
            && (t.procs[|s.procs|].intent == Some(AddMemory) <==>
                  s.selections[i].read.eventId.None? && s.selections[i].read.attempts == 0)
  {
    assert EventKept(s.rows, s.selections[i].key, s.selections[i].read);
  }

  /** No claim whose worker selected the row after an event id was stored, however much later, ever leads to add. */
  lemma ClaimAfterEventNeverAdds(
    s: State, key: WriteKey, before: seq<Step>, worker: WorkerId, now: Time, lease: int, between: seq<Step>, after: seq<Step>)
    requires Sound(s) && key in s.rows && s.rows[key].eventId.Some?
    requires key in Run(s, before).rows && Claimable(Run(s, before).rows[key], now)
    requires var selected := Next(Run(s, before), Select(key, worker, now, lease));
             var t := Run(selected, between);
             |Run(s, before).selections| < |t.selections| && t.selections[|Run(s, before).selections|].open
    ensures var i := |Run(s, before).selections|;
            var t := Run(Next(Run(s, before), Select(key, worker, now, lease)), between);
            |t.procs| !in Run(Next(t, EndClaim(i)), after).added
  {
    var u := Run(s, before);
    var i, selected := |u.selections|, Next(u, Select(key, worker, now, lease));
    EventStays(s, key, before);
    RunKeepsSound(s, before);
    StepKeepsSound(u, Select(key, worker, now, lease));
    RunKeepsSound(selected, between);
    SelectionStays(selected, between, i);
    var t := Run(selected, between);
    assert EventKept(t.rows, t.selections[i].key, t.selections[i].read);
    MayAddIff(t, i);
    ClaimStaysAway(Next(t, EndClaim(i)), |t.procs|, after);
  }

  predicate CannotAdd(s: State, claim: nat) {
    claim < |s.procs| && s.procs[claim].intent != Some(AddMemory) && claim !in s.added
  }

  lemma {:induction false} ClaimStaysAway(s: State, claim: nat, steps: seq<Step>)
    requires CannotAdd(s, claim)
    ensures CannotAdd(Run(s, steps), claim)
    decreases |steps|
  {
    if steps != [] {
      StepStaysAway(s, claim, steps[0]);
      ClaimStaysAway(Next(s, steps[0]), claim, steps[1..]);
    }
  }

  lemma StepStaysAway(s: State, claim: nat, step: Step)
    requires CannotAdd(s, claim)
    ensures CannotAdd(Next(s, step), claim)
  {
  }

  // ---------------------------------------------------------------- a run that adds twice

  const KEY: WriteKey := 1
  const FRESH := NewRow(1, "c", "x", 0)

  lemma RunCons(s: State, step: Step, rest: seq<Step>)
    ensures Run(s, [step] + rest) == Run(Next(s, step), rest)
  {
    assert ([step] + rest)[1..] == rest;
  }

  lemma RunTwice(s: State, first: Step, second: Step, rest: seq<Step>)
    ensures Run(s, [first] + ([second] + rest)) == Run(Next(Next(s, first), second), rest)
  {
    RunCons(s, first, [second] + rest);
    RunCons(Next(s, first), second, rest);
  }

  function Chosen(worker: WorkerId, open: bool): Selection { Selection(KEY, FRESH, worker, 0, 30, open) }

  function Working(worker: WorkerId, intent: Intent, read: Option<Row>): Proc { Proc(KEY, worker, 1, None, Some(intent), read) }

  /** The row as the first worker's claim left it, and with the event that its add got. */
  const CLAIMED := Claimed(FRESH, 1, 0, 30)
  const STORED := Saved(CLAIMED, "e", 1, 30)

  function Shared(row: Row, selections: seq<Selection>, procs: seq<Proc>, added: set<nat>, overlaps: seq<WriteKey>): State {
    State(map[KEY := row], selections, procs, [], added, [], overlaps)
  }

  lemma BothSelect()
    ensures Next(Next(Next(EMPTY, Enqueue(KEY, 1, "c", "x", 0)), Select(KEY, 1, 0, 30)), Select(KEY, 2, 0, 30))
            == Shared(FRESH, [Chosen(1, true), Chosen(2, true)], [], {}, [])
  {
  }

  lemma FirstClaimsAndAdds()
    ensures var added := [Working(1, SaveEvent("e"), None)];
            Next(Next(Shared(FRESH, [Chosen(1, true), Chosen(2, true)], [], {}, []), EndClaim(0)), Add(0, Added("e")))
            == Shared(CLAIMED, [Chosen(1, false), Chosen(2, true)], added, {0}, [])
  {
    var claimed := Shared(CLAIMED, [Chosen(1, false), Chosen(2, true)], [Working(1, AddMemory, None)], {}, []);
    assert Next(Shared(FRESH, [Chosen(1, true), Chosen(2, true)], [], {}, []), EndClaim(0)) == claimed;
  }

  lemma FirstSaves()
    ensures Next(Next(Shared(CLAIMED, [Chosen(1, false), Chosen(2, true)], [Working(1, SaveEvent("e"), None)], {0}, []), Fetch(0)),
                 Save(0, 1, 30))
            == Shared(STORED, [Chosen(1, false), Chosen(2, true)], [Working(1, Retry, None)], {0}, [])
  {
    var fetched := Shared(CLAIMED, [Chosen(1, false), Chosen(2, true)], [Working(1, SaveEvent("e"), Some(CLAIMED))], {0}, []);
    assert Next(Shared(CLAIMED, [Chosen(1, false), Chosen(2, true)], [Working(1, SaveEvent("e"), None)], {0}, []), Fetch(0)) == fetched;
    assert Overlay(CLAIMED, STORED, CLAIMED) == STORED;
  }

  lemma SecondClaimsAndAdds()
    ensures var s := Shared(STORED, [Chosen(1, false), Chosen(2, true)], [Working(1, Retry, None)], {0}, []);
            var t := Next(Next(s, EndClaim(1)), Add(1, Added("f")));
            && t.added == {0, 1} && |t.procs| == 2 && t.procs[0].key == KEY && t.procs[1].key == KEY
            && t.resets == [] && t.overlaps == [KEY] && KEY in t.rows
  {
    var s := Shared(STORED, [Chosen(1, false), Chosen(2, true)], [Working(1, Retry, None)], {0}, []);
    var t := Next(s, EndClaim(1));
    assert t.procs == [Working(1, Retry, None), Working(2, AddMemory, None)];
  }

  /** Two workers select a fresh row before either commits. Both claims then read no attempts, both call add, the second even
      after the first one's event id was stored; nobody requeued. */
  lemma TwoWorkersAddTwice() returns (steps: seq<Step>)
    ensures var t := Run(EMPTY, steps);
            && KEY in t.rows && (forall i :: i in t.added ==> i < |t.procs|)
            && |Adds(t, KEY)| == 2 && Count(t.resets, KEY) == 0 && Count(t.overlaps, KEY) == 1
  {
    var end: seq<Step> := [];
    var r4 := [EndClaim(1)] + ([Add(1, Added("f"))] + end);
    var r3 := [Fetch(0)] + ([Save(0, 1, 30)] + r4);
    var r2 := [EndClaim(0)] + ([Add(0, Added("e"))] + r3);
    var r1 := [Select(KEY, 1, 0, 30)] + ([Select(KEY, 2, 0, 30)] + r2);
    steps := [Enqueue(KEY, 1, "c", "x", 0)] + r1;
    RunCons(EMPTY, Enqueue(KEY, 1, "c", "x", 0), r1);
    RunTwice(Next(EMPTY, Enqueue(KEY, 1, "c", "x", 0)), Select(KEY, 1, 0, 30), Select(KEY, 2, 0, 30), r2);
    BothSelect();
    RunTwice(Shared(FRESH, [Chosen(1, true), Chosen(2, true)], [], {}, []), EndClaim(0), Add(0, Added("e")), r3);
    FirstClaimsAndAdds();
    RunTwice(Shared(CLAIMED, [Chosen(1, false), Chosen(2, true)], [Working(1, SaveEvent("e"), None)], {0}, []), Fetch(0), Save(0, 1, 30), r4);
    FirstSaves();
    var s := Shared(STORED, [Chosen(1, false), Chosen(2, true)], [Working(1, Retry, None)], {0}, []);
    RunTwice(s, EndClaim(1), Add(1, Added("f")), end);
    SecondClaimsAndAdds();
    var t := Next(Next(s, EndClaim(1)), Add(1, Added("f")));
    assert Run(t, end) == t;
    assert Adds(t, KEY) == {0, 1};
    assert [KEY] == [] + [KEY];
    CountSnoc([], KEY, KEY);
  }
}
