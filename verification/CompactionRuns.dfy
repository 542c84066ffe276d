/** Safety of the compaction lease and the Turn inbox over arbitrary runs of repository calls. */
module CompactionRuns {
  import opened Common
  import opened CompactionState
  import I = Inbox

  datatype Call =
    | AcquireCall(owner: UserId, conversation: ConversationId, worker: WorkerId, token: Token, now: Time, expiresAt: Time)
    | EnqueueCall(owner: UserId, turn: Turn)
    | ClaimCall(owner: UserId, conversation: ConversationId)
    | CompleteCall(owner: UserId, conversation: ConversationId, turnId: TurnId)
    | FinishCall(owner: UserId, conversation: ConversationId, worker: WorkerId, token: Token, now: Time,
                 claimNext: bool, retryNotBefore: Option<Time>)
    | FinishEventCall(owner: UserId, conversation: ConversationId, worker: WorkerId, token: Token, now: Time,
                      claimNext: bool, retryNotBefore: Option<Time>, runId: RunId, kind: EventKind, eventId: EventId)
  {
    function Conversation(): ConversationId {
      if EnqueueCall? then turn.conversation else conversation
    }
  }

  /** Only statuses differ between s and t: ids, inbox sequences and indexes are the same. */
  ghost predicate SameTurns(s: State, t: State) {
    && t.order == s.order && t.inputs == s.inputs && t.turnIds == s.turnIds && t.nextSequence == s.nextSequence
    && t.turns.Keys == s.turns.Keys
    && forall k :: k in s.turns ==> t.turns[k] == s.turns[k].(status := t.turns[k].status)
  }

  /** The call changed nothing but statuses and the lease of one conversation of one owner, and the event log. */
  ghost predicate Local(s: State, t: State, owner: UserId, conversation: ConversationId) {
    && SameTurns(s, t)
    && (forall k :: k in s.turns && !InConversation(s, owner, conversation, k) ==> t.turns[k] == s.turns[k])
    && (forall c :: c != conversation ==>
          (c in t.leases <==> c in s.leases) && (c in s.leases ==> t.leases[c] == s.leases[c]))
    && (conversation in t.leases && t.leases[conversation].owner != owner ==>
          conversation in s.leases && t.leases[conversation] == s.leases[conversation])
    && LeasesIssued(t)
    && EventsFiled(t)
  }

  lemma SameTurnsStayFiled(s: State, t: State)
    requires Filed(s) && DistinctArrivals(s) && Indexed(s) && SameTurns(s, t)
    ensures Filed(t) && DistinctArrivals(t) && Indexed(t)
  {
  }

  lemma SetStatusIsLocal(s: State, t: State, owner: UserId, conversation: ConversationId, k: TurnKey, status: TurnStatus)
    requires Local(s, t, owner, conversation) && InConversation(t, owner, conversation, k)
    ensures Local(s, WithStatus(t, k, status), owner, conversation)
  {
  }

  lemma DemotionIsLocal(s: State, owner: UserId, conversation: ConversationId, held: HeldLease)
    requires LeasesIssued(s) && EventsFiled(s) && held.owner == owner && held.lease.conversation == conversation
    ensures Local(s, s.(turns := Demoted(s, owner, conversation), leases := s.leases[conversation := held],
                        issued := s.issued + {held.lease.token}), owner, conversation)
  {
  }

  lemma AcquireIsLocal(s: State, c: Call)
    requires WellFormed(s) && c.AcquireCall?
    ensures Local(s, Next(s, c), c.owner, c.conversation)
  {
    if Next(s, c) != s {
      DemotionIsLocal(s, c.owner, c.conversation,
                      HeldLease(c.owner, Lease(c.conversation, c.worker, c.token, c.expiresAt)));
    }
  }

  lemma ClaimIsLocal(s: State, c: Call)
    requires WellFormed(s) && c.ClaimCall?
    ensures Local(s, Next(s, c), c.owner, c.conversation)
  {
    if Next(s, c) != s {
      SetStatusIsLocal(s, s, c.owner, c.conversation, PickArrived(s, Waiting(s, c.owner, c.conversation)), Processing);
    }
  }

  lemma CompleteIsLocal(s: State, c: Call)
    requires WellFormed(s) && c.CompleteCall?
    ensures Local(s, Next(s, c), c.owner, c.conversation)
  {
    var k := TurnKey(c.owner, c.turnId);
    if CanComplete(s, k, c.conversation) {
      SetStatusIsLocal(s, s, c.owner, c.conversation, k, Completed);
      var after := WithStatus(s, k, Completed);
      var ks := Successors(s, k, c.conversation);
      if ks != {} {
        SetStatusIsLocal(s, after, c.owner, c.conversation, PickCreated(after, ks), Processing);
      }
    }
  }

  lemma ReleaseAndClaimIsLocal(s: State, m: State, owner: UserId, conversation: ConversationId)
    requires WellFormed(s) && Local(s, m, owner, conversation) && Filed(m)
    ensures Local(s, ReleaseAndClaim(m, owner, conversation).0, owner, conversation)
  {
    var r := Release(m, conversation);
    assert Local(s, r, owner, conversation);
    var ks := Waiting(m, owner, conversation);
    if ks != {} {
      assert InConversation(m, owner, conversation, PickArrived(m, ks));
      SetStatusIsLocal(s, r, owner, conversation, PickArrived(m, ks), Processing);
    }
  }

  lemma LoggingIsLocal(s: State, owner: UserId, conversation: ConversationId, event: Event)
    requires WellFormed(s)
    ensures Local(s, Logged(s, owner, event), owner, conversation) && Filed(Logged(s, owner, event))
  {
  }

  lemma PostponingIsLocal(s: State, owner: UserId, conversation: ConversationId, until: Time)
    requires WellFormed(s) && conversation in s.leases && s.leases[conversation].owner == owner
    ensures Local(s, Postpone(s, conversation, until), owner, conversation)
  {
  }

  lemma FinishIsLocal(s: State, c: Call)
    requires WellFormed(s) && c.FinishCall?
    ensures Local(s, Next(s, c), c.owner, c.conversation)
  {
    if Next(s, c) != s {
      if c.claimNext {
        ReleaseAndClaimIsLocal(s, s, c.owner, c.conversation);
      } else {
        PostponingIsLocal(s, c.owner, c.conversation, c.retryNotBefore.value);
      }
    }
  }

  lemma FinishEventIsLocal(s: State, c: Call)
    requires WellFormed(s) && c.FinishEventCall?
    ensures Local(s, Next(s, c), c.owner, c.conversation)
  {
    var r := FinishWithEvent(s, c.owner, c.conversation, c.worker, c.token, c.now, c.claimNext, c.retryNotBefore,
                             c.runId, c.kind, c.eventId);
    if r.Done? {
      LoggingIsLocal(s, c.owner, c.conversation, r.value.event);
      var logged := Logged(s, c.owner, r.value.event);
      if c.claimNext {
        ReleaseAndClaimIsLocal(s, logged, c.owner, c.conversation);
      }
    }
  }

  lemma CreateTurnStaysIndexed(s: State, owner: UserId, turn: Turn)
    requires Filed(s) && Indexed(s)
    ensures Indexed(StateAfter(s, CreateTurn(s, owner, turn)))
  {
    var t := StateAfter(s, CreateTurn(s, owner, turn));
    if t != s {
      assert TurnKey(owner, turn.turnId) !in s.turns;
      forall i | i in t.inputs
        ensures t.inputs[i] in t.turns && t.turns[t.inputs[i]].conversation == i.conversation
                && t.turns[t.inputs[i]].clientInput == i.clientInput
      {
        if i in s.inputs { assert s.inputs[i] in s.turns; }
      }
    }
  }

  lemma CreateTurnKeepsArrivals(s: State, owner: UserId, turn: Turn)
    requires Filed(s) && DistinctArrivals(s)
    ensures DistinctArrivals(StateAfter(s, CreateTurn(s, owner, turn)))
  {
  }

  lemma CreateTurnKeepsFiled(s: State, owner: UserId, turn: Turn)
    requires Filed(s)
    ensures Filed(StateAfter(s, CreateTurn(s, owner, turn)))
  {
  }

  lemma CreateTurnStaysFiled(s: State, owner: UserId, turn: Turn)
    requires Filed(s) && DistinctArrivals(s) && Indexed(s)
    ensures var t := StateAfter(s, CreateTurn(s, owner, turn)); Filed(t) && DistinctArrivals(t) && Indexed(t)
  {
    CreateTurnKeepsFiled(s, owner, turn);
    CreateTurnStaysIndexed(s, owner, turn);
    CreateTurnKeepsArrivals(s, owner, turn);
  }

  lemma EnqueueStaysFiled(s: State, c: Call)
    requires WellFormed(s) && c.EnqueueCall?
    ensures WellFormed(Next(s, c))
  {
    var leased := c.turn.conversation in s.leases;
    CreateTurnStaysFiled(s, c.owner,
      c.turn.(status := if leased || AnyExecuting(s, c.owner, c.turn.conversation) then Queued else Accepted));
  }

  /** Every call but enqueueing is local to its conversation. */
  lemma CallIsLocal(s: State, c: Call)
    requires WellFormed(s) && !c.EnqueueCall?
    ensures Local(s, Next(s, c), c.owner, c.conversation)
  {
    match c {
      case AcquireCall(_, _, _, _, _, _) => AcquireIsLocal(s, c);
      case ClaimCall(_, _) => ClaimIsLocal(s, c);
      case CompleteCall(_, _, _) => CompleteIsLocal(s, c);
      case FinishCall(_, _, _, _, _, _, _) => FinishIsLocal(s, c);
      case FinishEventCall(_, _, _, _, _, _, _, _, _, _) => FinishEventIsLocal(s, c);
    }
  }

  /** One atomic repository call, whether it returns or raises. */
  ghost function Next(s: State, c: Call): State
    requires WellFormed(s)
  {
    match c
    case AcquireCall(owner, conversation, worker, token, now, expiresAt) =>
      StateAfter(s, Acquire(s, owner, conversation, worker, token, now, expiresAt))
    case EnqueueCall(owner, turn) => StateAfter(s, Enqueue(s, owner, turn))
    case ClaimCall(owner, conversation) => StateAfter(s, ClaimNext(s, owner, conversation))
    case CompleteCall(owner, conversation, turnId) => StateAfter(s, Complete(s, owner, conversation, turnId))
    case FinishCall(owner, conversation, worker, token, now, claimNext, retry) =>
      StateAfter(s, Finish(s, owner, conversation, worker, token, now, claimNext, retry))
    case FinishEventCall(owner, conversation, worker, token, now, claimNext, retry, runId, kind, eventId) =>
      StateAfter(s, FinishWithEvent(s, owner, conversation, worker, token, now, claimNext, retry, runId, kind, eventId))
  }

  lemma NextWellFormed(s: State, c: Call)
    requires WellFormed(s)
    ensures WellFormed(Next(s, c))
  {
    if c.EnqueueCall? {
      EnqueueStaysFiled(s, c);
    } else {
      CallIsLocal(s, c);
      SameTurnsStayFiled(s, Next(s, c));
    }
  }

  /** The inbox of a conversation: its turns in order of arrival, and whether a lease is held. */
  function InboxOf(s: State, conversation: ConversationId): I.Inbox
    requires Filed(s)
  {
    I.Inbox(conversation in s.leases,
            map k | k in s.turns && s.turns[k].conversation == conversation ::
              I.Entry(s.turns[k].status, s.order[k], s.turns[k].createdAt))
  }

  /** Turns and leases belong to the owner of their conversation. */
  ghost predicate OwnedBy(s: State, own: ConversationId -> UserId) {
    && (forall k :: k in s.turns ==> k.owner == own(s.turns[k].conversation))
    && (forall c :: c in s.leases ==> s.leases[c].owner == own(c))
  }

  /** Each conversation has one owner, and uuid4 never repeats a token. */
  predicate Legal(s: State, c: Call, own: ConversationId -> UserId) {
    c.owner == own(c.Conversation()) && (c.AcquireCall? ==> c.token !in s.issued)
  }

  lemma NextOwned(s: State, c: Call, own: ConversationId -> UserId)
    requires WellFormed(s) && OwnedBy(s, own) && Legal(s, c, own)
    ensures OwnedBy(Next(s, c), own)
  {
    if !c.EnqueueCall? {
      CallIsLocal(s, c);
      var t := Next(s, c);
      assert forall k :: k in t.turns ==> t.turns[k].conversation == s.turns[k].conversation;
    }
  }

  lemma LocalKeepsOtherInboxes(s: State, t: State, owner: UserId, touched: ConversationId, conversation: ConversationId)
    requires Filed(s) && Filed(t) && Local(s, t, owner, touched) && conversation != touched
    ensures InboxOf(t, conversation) == InboxOf(s, conversation)
  {
  }

  lemma CreateTurnKeepsOtherInboxes(s: State, owner: UserId, turn: Turn, conversation: ConversationId)
    requires Filed(s) && conversation != turn.conversation
    requires Filed(StateAfter(s, CreateTurn(s, owner, turn)))
    ensures InboxOf(StateAfter(s, CreateTurn(s, owner, turn)), conversation) == InboxOf(s, conversation)
  {
  }

  /** A call changes the inbox of its own conversation only. */
  lemma OtherInboxesUntouched(s: State, c: Call, conversation: ConversationId)
    requires WellFormed(s) && WellFormed(Next(s, c)) && conversation != c.Conversation()
    ensures InboxOf(Next(s, c), conversation) == InboxOf(s, conversation)
  {
    if c.EnqueueCall? {
      var leased := c.turn.conversation in s.leases;
      var stored := c.turn.(status := if leased || AnyExecuting(s, c.owner, c.turn.conversation) then Queued else Accepted);
      if Next(s, c) != s {
        CreateTurnKeepsOtherInboxes(s, c.owner, stored, conversation);
      }
    } else {
      CallIsLocal(s, c);
      LocalKeepsOtherInboxes(s, Next(s, c), c.owner, c.conversation, conversation);
    }
  }

  /** What the repository looks up in its dictionaries is what the inbox shows. */
  lemma InboxShows(s: State, own: ConversationId -> UserId, conversation: ConversationId)
    requires Filed(s) && OwnedBy(s, own)
    ensures var b := InboxOf(s, conversation);
            && (forall k :: k in b.turns <==> InConversation(s, own(conversation), conversation, k))
            && (forall k :: k in Waiting(s, own(conversation), conversation) <==> I.Waits(b, k))
            && (AnyProcessing(s, own(conversation), conversation) <==> exists k :: I.Has(b, k, Processing))
            && (AnyExecuting(s, own(conversation), conversation) <==> exists k :: k in b.turns && I.Executes(b, k))
  {
    var b := InboxOf(s, conversation);
    assert forall k :: k in b.turns <==> InConversation(s, own(conversation), conversation, k);
    if AnyProcessing(s, own(conversation), conversation) {
      var k :| k in s.turns && InConversation(s, own(conversation), conversation, k) && s.turns[k].status == Processing;
      assert I.Has(b, k, Processing);
    }
    if AnyExecuting(s, own(conversation), conversation) {
      var k :| k in s.turns && InConversation(s, own(conversation), conversation, k) && IsExecuting(s.turns[k].status);
      assert k in b.turns && I.Executes(b, k);
    }
  }

  lemma StatusInInbox(s: State, k: TurnKey, status: TurnStatus)
    requires Filed(s) && k in s.turns
    ensures Filed(WithStatus(s, k, status))
    ensures InboxOf(WithStatus(s, k, status), s.turns[k].conversation)
            == I.Set(InboxOf(s, s.turns[k].conversation), k, status)
  {
  }

  lemma AcquisitionLeases(s: State, owner: UserId, conversation: ConversationId, lease: Lease)
    requires Filed(s) && forall k :: !I.Has(InboxOf(s, conversation), k, Processing)
    requires forall k :: k in InboxOf(s, conversation).turns ==> InConversation(s, owner, conversation, k)
    ensures var t := s.(turns := Demoted(s, owner, conversation), leases := s.leases[conversation := HeldLease(owner, lease)],
                        issued := s.issued + {lease.token});
            Filed(t) && I.Leases(InboxOf(s, conversation), InboxOf(t, conversation))
  {
  }

  lemma AcquireMovesInbox(s: State, c: Call, own: ConversationId -> UserId)
    requires WellFormed(s) && OwnedBy(s, own) && Legal(s, c, own) && c.AcquireCall? && WellFormed(Next(s, c))
    ensures I.Moves(InboxOf(s, c.conversation), InboxOf(Next(s, c), c.conversation))
  {
    if Next(s, c) != s {
      InboxShows(s, own, c.conversation);
      AcquisitionLeases(s, c.owner, c.conversation, Lease(c.conversation, c.worker, c.token, c.expiresAt));
    }
  }

  lemma CreateTurnArrives(s: State, owner: UserId, turn: Turn)
    requires Filed(s)
    requires turn.turnId !in s.turnIds && InputKey(turn.conversation, turn.clientInput) !in s.inputs
    requires turn.status == if turn.conversation in s.leases
                               || exists k :: k in InboxOf(s, turn.conversation).turns && I.Executes(InboxOf(s, turn.conversation), k)
                            then Queued else Accepted
    ensures var t := StateAfter(s, CreateTurn(s, owner, turn));
            && Filed(t)
            && I.Arrives(InboxOf(s, turn.conversation), InboxOf(t, turn.conversation), TurnKey(owner, turn.turnId))
            && InboxOf(t, turn.conversation).turns[TurnKey(owner, turn.turnId)].createdAt == turn.createdAt
  {
    var t := StateAfter(s, CreateTurn(s, owner, turn));
    var n := TurnKey(owner, turn.turnId);
    var b, d := InboxOf(s, turn.conversation), InboxOf(t, turn.conversation);
    assert n !in s.turns;
    assert d.turns == b.turns[n := d.turns[n]];
  }

  /** The turn an enqueueing call stores. */
  function Stored(s: State, c: Call): Turn
    requires c.EnqueueCall?
  {
    c.turn.(status := if c.turn.conversation in s.leases || AnyExecuting(s, c.owner, c.turn.conversation)
                      then Queued else Accepted)
  }

  lemma EnqueueMovesInbox(s: State, c: Call, own: ConversationId -> UserId)
    requires WellFormed(s) && OwnedBy(s, own) && Legal(s, c, own) && c.EnqueueCall? && WellFormed(Next(s, c))
    ensures var b, d := InboxOf(s, c.turn.conversation), InboxOf(Next(s, c), c.turn.conversation);
            Next(s, c) == s || (I.Arrives(b, d, TurnKey(c.owner, c.turn.turnId))
                                && d.turns[TurnKey(c.owner, c.turn.turnId)].createdAt == c.turn.createdAt)
  {
    if Next(s, c) != s {
      InboxShows(s, own, c.turn.conversation);
      CreateTurnArrives(s, c.owner, Stored(s, c));
    }
  }

  lemma ClaimMovesInbox(s: State, c: Call, own: ConversationId -> UserId)
    requires WellFormed(s) && OwnedBy(s, own) && Legal(s, c, own) && c.ClaimCall? && WellFormed(Next(s, c))
    ensures I.Moves(InboxOf(s, c.conversation), InboxOf(Next(s, c), c.conversation))
  {
    InboxShows(s, own, c.conversation);
    if Next(s, c) != s {
      var b, d := InboxOf(s, c.conversation), InboxOf(Next(s, c), c.conversation);
      var k := PickArrived(s, Waiting(s, c.owner, c.conversation));
      StatusInInbox(s, k, Processing);
      assert I.Starts(b, d, k) && I.ArrivedFirst(b, k);
    }
  }

  /** From the state with the turn completed on: the successor, if any, starts. */
  lemma SuccessorStarts(after: State, own: ConversationId -> UserId, conversation: ConversationId, ks: set<TurnKey>)
    requires Filed(after) && OwnedBy(after, own)
    requires ks == if conversation in after.leases || AnyProcessing(after, own(conversation), conversation) then {}
                   else Waiting(after, own(conversation), conversation)
    ensures var m := InboxOf(after, conversation);
            if ks == {} then I.Idle(m)
            else
              var t := WithStatus(after, PickCreated(after, ks), Processing);
              && Filed(t)
              && I.Starts(m, InboxOf(t, conversation), PickCreated(after, ks))
              && I.CreatedFirst(m, PickCreated(after, ks))
  {
    InboxShows(after, own, conversation);
    if ks != {} {
      StatusInInbox(after, PickCreated(after, ks), Processing);
    }
  }

  lemma CompletionInInbox(s: State, own: ConversationId -> UserId, conversation: ConversationId, turnId: TurnId)
    requires Filed(s) && OwnedBy(s, own) && CanComplete(s, TurnKey(own(conversation), turnId), conversation)
    ensures var t := StateAfter(s, Complete(s, own(conversation), conversation, turnId));
            && Filed(t)
            && I.Completes(InboxOf(s, conversation), InboxOf(t, conversation), TurnKey(own(conversation), turnId))
  {
    var k := TurnKey(own(conversation), turnId);
    StatusInInbox(s, k, Completed);
    var after := WithStatus(s, k, Completed);
    assert OwnedBy(after, own);
    SuccessorStarts(after, own, conversation, Successors(s, k, conversation));
  }

  lemma CompleteMovesInbox(s: State, c: Call, own: ConversationId -> UserId)
    requires WellFormed(s) && OwnedBy(s, own) && Legal(s, c, own) && c.CompleteCall? && WellFormed(Next(s, c))
    ensures I.Moves(InboxOf(s, c.conversation), InboxOf(Next(s, c), c.conversation))
  {
    if CanComplete(s, TurnKey(c.owner, c.turnId), c.conversation) {
      CompletionInInbox(s, own, c.conversation, c.turnId);
    }
  }

  lemma ReleaseAndClaimMovesInbox(s: State, own: ConversationId -> UserId, conversation: ConversationId)
    requires Filed(s) && OwnedBy(s, own) && conversation in s.leases
    requires !AnyProcessing(s, own(conversation), conversation)
    ensures var t := ReleaseAndClaim(s, own(conversation), conversation).0;
            Filed(t) && I.Releases(InboxOf(s, conversation), InboxOf(t, conversation))
  {
    InboxShows(s, own, conversation);
    var b, r := InboxOf(s, conversation), Release(s, conversation);
    var m := InboxOf(r, conversation);
    assert m == b.(leased := false);
    assert forall k :: I.Waits(m, k) == I.Waits(b, k);
    assert forall k :: I.Has(m, k, Processing) == I.Has(b, k, Processing);
    var ks := Waiting(s, own(conversation), conversation);
    if ks != {} {
      var n := PickArrived(s, ks);
      StatusInInbox(r, n, Processing);
      assert I.ArrivedFirst(m, n);
      assert I.Starts(m, I.Set(m, n, Processing), n);
    }
  }

  lemma FinishMovesInbox(s: State, c: Call, own: ConversationId -> UserId)
    requires WellFormed(s) && OwnedBy(s, own) && Legal(s, c, own) && c.FinishCall? && WellFormed(Next(s, c))
    ensures I.Moves(InboxOf(s, c.conversation), InboxOf(Next(s, c), c.conversation))
  {
    if Next(s, c) != s {
      if c.claimNext {
        ReleaseAndClaimMovesInbox(s, own, c.conversation);
      } else {
        assert InboxOf(Next(s, c), c.conversation) == InboxOf(s, c.conversation);
      }
    }
  }

  lemma FinishEventMovesInbox(s: State, c: Call, own: ConversationId -> UserId)
    requires WellFormed(s) && OwnedBy(s, own) && Legal(s, c, own) && c.FinishEventCall? && WellFormed(Next(s, c))
    ensures I.Moves(InboxOf(s, c.conversation), InboxOf(Next(s, c), c.conversation))
  {
    var r := FinishWithEvent(s, c.owner, c.conversation, c.worker, c.token, c.now, c.claimNext, c.retryNotBefore,
                             c.runId, c.kind, c.eventId);
    if r.Done? {
      LoggingIsLocal(s, c.owner, c.conversation, r.value.event);
      var logged := Logged(s, c.owner, r.value.event);
      assert InboxOf(logged, c.conversation) == InboxOf(s, c.conversation);
      if c.claimNext {
        InboxShows(s, own, c.conversation);
        InboxShows(logged, own, c.conversation);
        ReleaseAndClaimMovesInbox(logged, own, c.conversation);
      } else {
        assert InboxOf(Next(s, c), c.conversation) == InboxOf(s, c.conversation);
      }
    }
  }

  /** Every repository call moves the inbox of its conversation by one of the inbox transitions. */
  lemma CallMovesInbox(s: State, c: Call, own: ConversationId -> UserId)
    requires WellFormed(s) && OwnedBy(s, own) && Legal(s, c, own) && WellFormed(Next(s, c))
    ensures I.Moves(InboxOf(s, c.Conversation()), InboxOf(Next(s, c), c.Conversation()))
  {
    match c {
      case AcquireCall(_, _, _, _, _, _) => AcquireMovesInbox(s, c, own);
      case EnqueueCall(_, _) => EnqueueMovesInbox(s, c, own);
      case ClaimCall(_, _) => ClaimMovesInbox(s, c, own);
      case CompleteCall(_, _, _) => CompleteMovesInbox(s, c, own);
      case FinishCall(_, _, _, _, _, _, _) => FinishMovesInbox(s, c, own);
      case FinishEventCall(_, _, _, _, _, _, _, _, _, _) => FinishEventMovesInbox(s, c, own);
    }
  }

  /** Holds of every state a legal run reaches. */
  ghost predicate QueueInvariant(s: State, own: ConversationId -> UserId) {
    WellFormed(s) && OwnedBy(s, own) && forall c :: I.Exclusive(InboxOf(s, c))
  }

  lemma StepKeepsInvariant(s: State, c: Call, own: ConversationId -> UserId)
    requires QueueInvariant(s, own) && Legal(s, c, own)
    ensures QueueInvariant(Next(s, c), own)
  {
    NextWellFormed(s, c);
    NextOwned(s, c, own);
    forall d ensures I.Exclusive(InboxOf(Next(s, c), d)) {
      if d == c.Conversation() {
        CallMovesInbox(s, c, own);
        I.MoveKeepsExclusion(InboxOf(s, d), InboxOf(Next(s, c), d));
      } else {
        OtherInboxesUntouched(s, c, d);
      }
    }
  }

  /** The state after the calls, in order. */
  ghost function Run(s: State, calls: seq<Call>): State
    requires WellFormed(s)
    decreases |calls|
  {
    if calls == [] then s else NextWellFormed(s, calls[0]); Run(Next(s, calls[0]), calls[1..])
  }

  ghost predicate LegalRun(s: State, calls: seq<Call>, own: ConversationId -> UserId)
    requires WellFormed(s)
    decreases |calls|
  {
    calls == [] || (Legal(s, calls[0], own) && (NextWellFormed(s, calls[0]); LegalRun(Next(s, calls[0]), calls[1..], own)))
  }

  lemma EmptyRepository(own: ConversationId -> UserId)
    ensures QueueInvariant(EMPTY, own)
    ensures forall c :: I.Fifo(InboxOf(EMPTY, c))
  {
    forall c ensures I.Exclusive(InboxOf(EMPTY, c)) && I.Fifo(InboxOf(EMPTY, c)) {
      assert InboxOf(EMPTY, c).turns == map[];
    }
  }

  lemma {:induction false} RunKeepsInvariant(s: State, calls: seq<Call>, own: ConversationId -> UserId)
    requires QueueInvariant(s, own) && LegalRun(s, calls, own)
    ensures QueueInvariant(Run(s, calls), own)
    decreases |calls|
  {
    if calls != [] {
      StepKeepsInvariant(s, calls[0], own);
      RunKeepsInvariant(Next(s, calls[0]), calls[1..], own);
    }
  }

  /** Over every run from the empty repository: a held lease means no accepted or processing turn, no conversation has
      two processing turns, without a lease no queued turn is stranded, and the refusal of the finishing calls
      because of a processing turn never happens. */
  lemma RunIsExclusive(calls: seq<Call>, own: ConversationId -> UserId, conversation: ConversationId)
    requires WellFormed(EMPTY) && LegalRun(EMPTY, calls, own)
    ensures var s := Run(EMPTY, calls);
            && WellFormed(s)
            && (conversation in s.leases ==> !AnyExecuting(s, own(conversation), conversation))
            && (forall j, k :: InConversation(s, own(conversation), conversation, j) && s.turns[j].status == Processing
                               && InConversation(s, own(conversation), conversation, k) && s.turns[k].status == Processing
                               ==> j == k)
            && (conversation !in s.leases && !AnyExecuting(s, own(conversation), conversation) ==>
                  Waiting(s, own(conversation), conversation) == {})
            && (forall worker, token, now, claim, retry ::
                  HoldsLease(s, own(conversation), conversation, worker, token, now) && FinishArguments(now, claim, retry)
                  ==> Finish(s, own(conversation), conversation, worker, token, now, claim, retry).Done?)
  {
    EmptyRepository(own);
    RunKeepsInvariant(EMPTY, calls, own);
    var s := Run(EMPTY, calls);
    var b := InboxOf(s, conversation);
    assert I.Exclusive(b);
    InboxShows(s, own, conversation);
    forall j, k | InConversation(s, own(conversation), conversation, j) && s.turns[j].status == Processing
                  && InConversation(s, own(conversation), conversation, k) && s.turns[k].status == Processing
      ensures j == k
    {
      assert I.Has(b, j, Processing) && I.Has(b, k, Processing);
    }
    assert forall k :: I.Waits(b, k) ==> I.Has(b, k, Queued) || I.Executes(b, k);
    if AnyProcessing(s, own(conversation), conversation) {
      var k :| I.Has(b, k, Processing);
      assert I.Executes(b, k);
    }
  }
}
