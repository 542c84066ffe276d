/** State and call semantics of the conversation compaction lease and the Turn inbox
    (MemoryCompactionQueueRepository and the parts of its base class it uses). */
module CompactionState {
  import opened Common

  type TurnId = nat
  type InputId = nat
  type Token = nat
  type EventId = nat

  datatype TurnStatus = Accepted | Queued | Processing | WaitingUser | Completed | Failed

  datatype Turn = Turn(
    turnId: TurnId, conversation: ConversationId, clientInput: InputId, status: TurnStatus, createdAt: Time)

  datatype TurnKey = TurnKey(owner: UserId, turnId: TurnId)
  datatype InputKey = InputKey(conversation: ConversationId, clientInput: InputId)

  datatype Lease = Lease(conversation: ConversationId, worker: WorkerId, token: Token, expiresAt: Time)
  datatype HeldLease = HeldLease(owner: UserId, lease: Lease)

  datatype EventKind = CompressionCompleted | CompressionFailed | OtherKind
  datatype EventKey = EventKey(owner: UserId, eventId: EventId)
  datatype Event = Event(
    eventId: EventId, sequence: nat, conversation: ConversationId, runId: RunId, occurredAt: Time, kind: EventKind)

  /** The repository's dictionaries; `issued` is the history of lease tokens handed out by uuid4. */
  datatype State = State(
    turns: map<TurnKey, Turn>,
    order: map<TurnKey, nat>,
    inputs: map<InputKey, TurnKey>,
    turnIds: set<TurnId>,
    nextSequence: nat,
    leases: map<ConversationId, HeldLease>,
    events: map<EventKey, Event>,
    eventIds: set<EventId>,
    issued: set<Token>)

  datatype Error = InvalidArgument | OwnerConflict | RecordConflict | TurnMissing | TurnNotRelayed | LeaseLost

  type Result<+T> = Outcome<State, T, Error>

  const EMPTY := State(map[], map[], map[], {}, 1, map[], map[], {}, {})

  /** The state a call leaves behind. */
  function StateAfter<T>(s: State, r: Result<T>): State {
    if r.Done? then r.state else s
  }

  predicate IsWaiting(status: TurnStatus) { status == Accepted || status == Queued }
  predicate IsActive(status: TurnStatus) { IsWaiting(status) || status == Processing }
  predicate IsExecuting(status: TurnStatus) { status == Accepted || status == Processing }

  predicate InConversation(s: State, owner: UserId, conversation: ConversationId, k: TurnKey) {
    k in s.turns && k.owner == owner && s.turns[k].conversation == conversation
  }

  predicate AnyProcessing(s: State, owner: UserId, conversation: ConversationId) {
    exists k :: k in s.turns && InConversation(s, owner, conversation, k) && s.turns[k].status == Processing
  }

  predicate AnyExecuting(s: State, owner: UserId, conversation: ConversationId) {
    exists k :: k in s.turns && InConversation(s, owner, conversation, k) && IsExecuting(s.turns[k].status)
  }

  /** The owner's accepted or queued turns of a conversation. */
  function Waiting(s: State, owner: UserId, conversation: ConversationId): set<TurnKey> {
    set k | k in s.turns && InConversation(s, owner, conversation, k) && IsWaiting(s.turns[k].status)
  }

  /** Every stored turn is filed under its own id, with an inbox sequence already given out. */
  ghost predicate Filed(s: State) {
    && s.order.Keys == s.turns.Keys
    && forall k :: k in s.turns ==> s.turns[k].turnId == k.turnId && k.turnId in s.turnIds && s.order[k] < s.nextSequence
  }

  /** No two turns share an inbox sequence. */
  ghost predicate DistinctArrivals(s: State) {
    forall j, k :: j in s.order && k in s.order && s.order[j] == s.order[k] ==> j == k
  }

  /** The idempotency index points at the stored turns that carry its keys. */
  ghost predicate Indexed(s: State) {
    forall i :: i in s.inputs ==> s.inputs[i] in s.turns
                                  && s.turns[s.inputs[i]].conversation == i.conversation
                                  && s.turns[s.inputs[i]].clientInput == i.clientInput
  }

  ghost predicate LeasesIssued(s: State) {
    forall c :: c in s.leases ==> s.leases[c].lease.conversation == c && s.leases[c].lease.token in s.issued
  }

  ghost predicate EventsFiled(s: State) {
    forall e :: e in s.events ==> s.events[e].eventId == e.eventId && e.eventId in s.eventIds
  }

  ghost predicate WellFormed(s: State) {
    Filed(s) && DistinctArrivals(s) && Indexed(s) && LeasesIssued(s) && EventsFiled(s)
  }

  /** k arrived no later than any other member of ks. */
  predicate FirstArrived(s: State, ks: set<TurnKey>, k: TurnKey)
    requires ks <= s.order.Keys
  {
    k in ks && forall j :: j in ks ==> s.order[k] <= s.order[j]
  }

  /** Order of the key (created_at, turn_id). */
  predicate CreatedNoLater(a: Turn, b: Turn) {
    a.createdAt < b.createdAt || (a.createdAt == b.createdAt && a.turnId <= b.turnId)
  }

  /** k has the least (created_at, turn_id) in ks. */
  predicate FirstCreated(s: State, ks: set<TurnKey>, k: TurnKey)
    requires ks <= s.turns.Keys
  {
    k in ks && forall j :: j in ks ==> CreatedNoLater(s.turns[k], s.turns[j])
  }

  lemma FirstArrivedExists(s: State, ks: set<TurnKey>)
    requires ks <= s.order.Keys && ks != {}
    ensures exists k :: k in ks && FirstArrived(s, ks, k)
  {
    var a :| a in ks;
    if ks == {a} {
      assert FirstArrived(s, ks, a);
    } else {
      FirstArrivedExists(s, ks - {a});
      var k :| k in ks - {a} && FirstArrived(s, ks - {a}, k);
      assert FirstArrived(s, ks, if s.order[a] <= s.order[k] then a else k);
    }
  }

  lemma FirstCreatedExists(s: State, ks: set<TurnKey>)
    requires ks <= s.turns.Keys && ks != {}
    ensures exists k :: k in ks && FirstCreated(s, ks, k)
  {
    var a :| a in ks;
    if ks == {a} {
      assert FirstCreated(s, ks, a);
    } else {
      FirstCreatedExists(s, ks - {a});
      var k :| k in ks - {a} && FirstCreated(s, ks - {a}, k);
      assert FirstCreated(s, ks, if CreatedNoLater(s.turns[a], s.turns[k]) then a else k);
    }
  }

  ghost function PickArrived(s: State, ks: set<TurnKey>): (k: TurnKey)
    requires ks <= s.order.Keys && ks != {}
    ensures FirstArrived(s, ks, k)
  {
    FirstArrivedExists(s, ks);
    var k :| k in ks && FirstArrived(s, ks, k);
    k
  }

  ghost function PickCreated(s: State, ks: set<TurnKey>): (k: TurnKey)
    requires ks <= s.turns.Keys && ks != {}
    ensures FirstCreated(s, ks, k)
  {
    FirstCreatedExists(s, ks);
    var k :| k in ks && FirstCreated(s, ks, k);
    k
  }

  function WithStatus(s: State, k: TurnKey, status: TurnStatus): State
    requires k in s.turns
  {
    s.(turns := s.turns[k := s.turns[k].(status := status)])
  }

  /** Accepted turns of the conversation go back to queued. */
  function Demoted(s: State, owner: UserId, conversation: ConversationId): map<TurnKey, Turn> {
    map k | k in s.turns ::
      if InConversation(s, owner, conversation, k) && s.turns[k].status == Accepted
      then s.turns[k].(status := Queued) else s.turns[k]
  }

  /** acquire_compaction_lease; `token` is the fresh uuid4. */
  function Acquire(
    s: State, owner: UserId, conversation: ConversationId,
    worker: WorkerId, token: Token, now: Time, expiresAt: Time): Result<Option<Lease>>
  {
    if expiresAt <= now then Raised(InvalidArgument)
    else if conversation in s.leases && s.leases[conversation].owner != owner then Raised(OwnerConflict)
    else if conversation in s.leases && s.leases[conversation].lease.expiresAt > now then Done(s, None)
    else if AnyProcessing(s, owner, conversation) then Done(s, None)
    else
      var lease := Lease(conversation, worker, token, expiresAt);
      Done(s.(turns := Demoted(s, owner, conversation),
              leases := s.leases[conversation := HeldLease(owner, lease)],
              issued := s.issued + {token}),
           Some(lease))
  }

  /** The base class's create_turn: one more turn at the end of the inbox. */
  function CreateTurn(s: State, owner: UserId, turn: Turn): Result<Turn> {
    var input := InputKey(turn.conversation, turn.clientInput);
    if turn.turnId in s.turnIds || input in s.inputs then Raised(RecordConflict)
    else
      var k := TurnKey(owner, turn.turnId);
      Done(s.(turns := s.turns[k := turn], order := s.order[k := s.nextSequence],
              inputs := s.inputs[input := k], turnIds := s.turnIds + {turn.turnId},
              nextSequence := s.nextSequence + 1),
           turn)
  }

  /** enqueue_turn_for_execution. */
  function Enqueue(s: State, owner: UserId, turn: Turn): Result<Turn>
    requires WellFormed(s)
  {
    var leased := turn.conversation in s.leases;
    var input := InputKey(turn.conversation, turn.clientInput);
    if !IsWaiting(turn.status) then Raised(InvalidArgument)
    else if leased && s.leases[turn.conversation].owner != owner then Raised(OwnerConflict)
    else if input in s.inputs then
      if s.inputs[input].owner != owner then Raised(RecordConflict) else Done(s, s.turns[s.inputs[input]])
    else
      CreateTurn(s, owner,
                 turn.(status := if leased || AnyExecuting(s, owner, turn.conversation) then Queued else Accepted))
  }

  /** claim_next_turn. */
  ghost function ClaimNext(s: State, owner: UserId, conversation: ConversationId): Result<Option<Turn>>
    requires WellFormed(s)
  {
    if conversation in s.leases || AnyProcessing(s, owner, conversation) || Waiting(s, owner, conversation) == {}
    then Done(s, None)
    else
      var k := PickArrived(s, Waiting(s, owner, conversation));
      var after := WithStatus(s, k, Processing);
      Done(after, Some(after.turns[k]))
  }

  datatype Completion = Completion(completed: Turn, claimed: Option<Turn>)

  predicate CanComplete(s: State, k: TurnKey, conversation: ConversationId) {
    && k in s.turns
    && s.turns[k].conversation == conversation
    && (IsExecuting(s.turns[k].status) || s.turns[k].status == Completed)
  }

  /** The turns that complete_turn_and_claim_next chooses from once `k` is completed; none while a lease is held or
      another turn is processing. */
  ghost function Successors(s: State, k: TurnKey, conversation: ConversationId): set<TurnKey>
    requires k in s.turns
  {
    var after := WithStatus(s, k, Completed);
    if conversation in s.leases || AnyProcessing(after, k.owner, conversation) then {}
    else Waiting(after, k.owner, conversation)
  }

  /** complete_turn_and_claim_next: the successor is chosen by (created_at, turn_id). */
  ghost function Complete(s: State, owner: UserId, conversation: ConversationId, turnId: TurnId): Result<Completion>
  {
    var k := TurnKey(owner, turnId);
    if k !in s.turns || s.turns[k].conversation != conversation then Raised(TurnMissing)
    else if !CanComplete(s, k, conversation) then Raised(TurnNotRelayed)
    else
      var after := WithStatus(s, k, Completed);
      if Successors(s, k, conversation) == {} then Done(after, Completion(after.turns[k], None))
      else
        var next := PickCreated(after, Successors(s, k, conversation));
        var claimed := WithStatus(after, next, Processing);
        Done(claimed, Completion(after.turns[k], Some(claimed.turns[next])))
  }

  predicate FinishArguments(now: Time, claimNext: bool, retryNotBefore: Option<Time>) {
    if claimNext then retryNotBefore.None? else retryNotBefore.Some? && retryNotBefore.value > now
  }

  predicate HoldsLease(
    s: State, owner: UserId, conversation: ConversationId, worker: WorkerId, token: Token, now: Time)
  {
    && conversation in s.leases
    && s.leases[conversation].owner == owner
    && s.leases[conversation].lease.worker == worker
    && s.leases[conversation].lease.token == token
    && s.leases[conversation].lease.expiresAt > now
  }

  function Release(s: State, conversation: ConversationId): State {
    s.(leases := s.leases - {conversation})
  }

  function Postpone(s: State, conversation: ConversationId, until: Time): State
    requires conversation in s.leases
  {
    var held := s.leases[conversation];
    s.(leases := s.leases[conversation := held.(lease := held.lease.(expiresAt := until))])
  }

  /** The lease is dropped and the first arrived waiting turn, if any, starts processing. */
  ghost function ReleaseAndClaim(s: State, owner: UserId, conversation: ConversationId): (State, Option<Turn>)
    requires Filed(s)
  {
    var released := Release(s, conversation);
    var ks := Waiting(s, owner, conversation);
    if ks == {} then (released, None)
    else
      var after := WithStatus(released, PickArrived(s, ks), Processing);
      (after, Some(after.turns[PickArrived(s, ks)]))
  }

  /** finish_compaction. */
  ghost function Finish(
    s: State, owner: UserId, conversation: ConversationId, worker: WorkerId, token: Token, now: Time,
    claimNext: bool, retryNotBefore: Option<Time>): Result<Option<Turn>>
    requires WellFormed(s)
  {
    if !FinishArguments(now, claimNext, retryNotBefore) then Raised(InvalidArgument)
    else if !HoldsLease(s, owner, conversation, worker, token, now) then Raised(LeaseLost)
    else if claimNext && AnyProcessing(s, owner, conversation) then Raised(LeaseLost)
    else if !claimNext then Done(Postpone(s, conversation, retryNotBefore.value), None)
    else var (after, claimed) := ReleaseAndClaim(s, owner, conversation); Done(after, claimed)
  }

  /** The conversation's stored events. */
  function EventsOf(s: State, conversation: ConversationId): set<EventKey> {
    set e | e in s.events && s.events[e].conversation == conversation
  }

  /** n is the greatest sequence among the conversation's events, 0 when it has none. */
  predicate IsLastSequence(s: State, conversation: ConversationId, n: nat) {
    && (forall e :: e in EventsOf(s, conversation) ==> s.events[e].sequence <= n)
    && (if EventsOf(s, conversation) == {} then n == 0
        else exists e :: e in EventsOf(s, conversation) && s.events[e].sequence == n)
  }

  lemma LastSequenceExists(s: State, conversation: ConversationId, es: set<EventKey>)
    requires es <= EventsOf(s, conversation) && es != {}
    ensures exists e :: e in es && forall f :: f in es ==> s.events[f].sequence <= s.events[e].sequence
  {
    var a :| a in es;
    if es != {a} {
      LastSequenceExists(s, conversation, es - {a});
      var e :| e in es - {a} && forall f :: f in es - {a} ==> s.events[f].sequence <= s.events[e].sequence;
      var m := if s.events[a].sequence <= s.events[e].sequence then e else a;
      assert m in es && forall f :: f in es ==> s.events[f].sequence <= s.events[m].sequence;
    }
  }

  ghost function LastSequence(s: State, conversation: ConversationId): (n: nat)
    ensures IsLastSequence(s, conversation, n)
  {
    if EventsOf(s, conversation) == {} then 0
    else
      LastSequenceExists(s, conversation, EventsOf(s, conversation));
      var e :| e in EventsOf(s, conversation)
               && forall f :: f in EventsOf(s, conversation) ==> s.events[f].sequence <= s.events[e].sequence;
      s.events[e].sequence
  }

  function Logged(s: State, owner: UserId, event: Event): State {
    s.(events := s.events[EventKey(owner, event.eventId) := event], eventIds := s.eventIds + {event.eventId})
  }

  datatype FinishedWithEvent = FinishedWithEvent(claimed: Option<Turn>, event: Event)

  /** finish_compaction_with_event; `eventId` is the fresh uuid4 of event and cursor. */
  ghost function FinishWithEvent(
    s: State, owner: UserId, conversation: ConversationId, worker: WorkerId, token: Token, now: Time,
    claimNext: bool, retryNotBefore: Option<Time>, runId: RunId, kind: EventKind, eventId: EventId)
    : Result<FinishedWithEvent>
    requires WellFormed(s)
  {
    if !FinishArguments(now, claimNext, retryNotBefore) then Raised(InvalidArgument)
    else if !HoldsLease(s, owner, conversation, worker, token, now) then Raised(LeaseLost)
    else if claimNext && AnyProcessing(s, owner, conversation) then Raised(LeaseLost)
    else if exists e :: e in EventsOf(s, conversation) && e.owner != owner then Raised(RecordConflict)
    else if kind == OtherKind then Raised(InvalidArgument)
    else if eventId in s.eventIds then Raised(RecordConflict)
    else
      var event := Event(eventId, LastSequence(s, conversation) + 1, conversation, runId, now, kind);
      var logged := Logged(s, owner, event);
      if !claimNext then
        Done(Postpone(logged, conversation, retryNotBefore.value), FinishedWithEvent(None, event))
      else
        var (after, claimed) := ReleaseAndClaim(logged, owner, conversation);
        Done(after, FinishedWithEvent(claimed, event))
  }
}
