/** What goes wrong outside the two assumptions of the queue theorems: turns arriving in the order of their creation,
    and one owner per conversation. */
module CompactionLimits {
  import opened Common
  import opened CompactionState
  import opened CompactionRuns
  import opened CompletionOrder

  // ---------------------------------------------------------------- a second owner

  /** The owner's turns wait, but none executes that could hand over to them and no lease is held whose release could
      start them. */
  ghost predicate Stranded(s: State, owner: UserId, c: ConversationId) {
    c !in s.leases && Waiting(s, owner, c) != {} && !AnyExecuting(s, owner, c)
  }

  predicate ReleasesLease(call: Call) { (call.FinishCall? || call.FinishEventCall?) && call.claimNext }

  ghost predicate SameTurnsOf(s: State, t: State, owner: UserId, c: ConversationId) {
    forall k: TurnKey :: k.owner == owner && (InConversation(s, owner, c, k) || InConversation(t, owner, c, k)) ==>
      k in s.turns && k in t.turns && t.turns[k] == s.turns[k]
  }

  lemma SameTurnsSameWait(s: State, t: State, owner: UserId, c: ConversationId)
    requires SameTurnsOf(s, t, owner, c)
    ensures Waiting(t, owner, c) == Waiting(s, owner, c) && (AnyExecuting(t, owner, c) <==> AnyExecuting(s, owner, c))
  {
    forall k ensures k in Waiting(t, owner, c) <==> k in Waiting(s, owner, c) {
      assert InConversation(s, owner, c, k) || InConversation(t, owner, c, k) ==> t.turns[k] == s.turns[k];
    }
    if AnyExecuting(s, owner, c) {
      var k :| k in s.turns && InConversation(s, owner, c, k) && IsExecuting(s.turns[k].status);
      assert InConversation(t, owner, c, k) && IsExecuting(t.turns[k].status);
    }
    if AnyExecuting(t, owner, c) {
      var k :| k in t.turns && InConversation(t, owner, c, k) && IsExecuting(t.turns[k].status);
      assert InConversation(s, owner, c, k) && IsExecuting(s.turns[k].status);
    }
  }

  /** A call leaves the turns of other owners and other conversations alone. */
  lemma OthersTurnsStay(s: State, call: Call, owner: UserId, c: ConversationId)
    requires WellFormed(s) && (call.owner != owner || call.Conversation() != c)
    ensures SameTurnsOf(s, Next(s, call), owner, c)
  {
    if !call.EnqueueCall? { CallIsLocal(s, call); }
  }

  /** Only a releasing call removes a lease, and only that of its conversation. */
  lemma LeaseStays(s: State, call: Call, c: ConversationId)
    requires WellFormed(s) && c in s.leases && !(ReleasesLease(call) && call.conversation == c)
    ensures c in Next(s, call).leases
  {
    if !call.EnqueueCall? { CallIsLocal(s, call); }
  }

  lemma StartedIsNotStranded(s: State, owner: UserId, c: ConversationId, k: TurnKey)
    requires InConversation(s, owner, c, k) && IsExecuting(s.turns[k].status)
    ensures !Stranded(s, owner, c)
  {
  }

  lemma EnqueueStrandsNone(s: State, call: Call)
    requires WellFormed(s) && call.EnqueueCall? && !Stranded(s, call.owner, call.turn.conversation)
    ensures !Stranded(Next(s, call), call.owner, call.turn.conversation)
  {
    var t, c := Next(s, call), call.turn.conversation;
    if t != s && c !in s.leases {
      var n := TurnKey(call.owner, call.turn.turnId);
      if AnyExecuting(s, call.owner, c) {
        var k :| k in s.turns && InConversation(s, call.owner, c, k) && IsExecuting(s.turns[k].status);
        assert k != n;
        StartedIsNotStranded(t, call.owner, c, k);
      } else {
        StartedIsNotStranded(t, call.owner, c, n);
      }
    }
  }

  lemma ClaimStrandsNone(s: State, call: Call)
    requires WellFormed(s) && call.ClaimCall? && !Stranded(s, call.owner, call.conversation)
    ensures !Stranded(Next(s, call), call.owner, call.conversation)
  {
    if Next(s, call) != s {
      StartedIsNotStranded(Next(s, call), call.owner, call.conversation,
                           PickArrived(s, Waiting(s, call.owner, call.conversation)));
    }
  }

  lemma CompleteStrandsNone(s: State, call: Call)
    requires WellFormed(s) && call.CompleteCall? && !Stranded(s, call.owner, call.conversation)
    ensures !Stranded(Next(s, call), call.owner, call.conversation)
  {
    var k, c := TurnKey(call.owner, call.turnId), call.conversation;
    if CanComplete(s, k, c) && c !in s.leases {
      var after, ks := WithStatus(s, k, Completed), Successors(s, k, c);
      if ks != {} {
        assert InConversation(after, call.owner, c, PickCreated(after, ks));
        StartedIsNotStranded(Next(s, call), call.owner, c, PickCreated(after, ks));
      } else if AnyProcessing(after, call.owner, c) {
        var p :| p in after.turns && InConversation(after, call.owner, c, p) && after.turns[p].status == Processing;
        StartedIsNotStranded(Next(s, call), call.owner, c, p);
      }
    }
  }

  lemma ReleaseStartsOwn(s: State, m: State, owner: UserId, c: ConversationId)
    requires Filed(m)
    ensures !Stranded(ReleaseAndClaim(m, owner, c).0, owner, c)
  {
    var ks, t := Waiting(m, owner, c), ReleaseAndClaim(m, owner, c).0;
    if ks != {} {
      assert InConversation(m, owner, c, PickArrived(m, ks));
      StartedIsNotStranded(t, owner, c, PickArrived(m, ks));
    } else {
      assert Waiting(t, owner, c) == ks;
    }
  }

  lemma FinishStrandsNone(s: State, call: Call)
    requires WellFormed(s) && (call.FinishCall? || call.FinishEventCall?) && !Stranded(s, call.owner, call.conversation)
    ensures !Stranded(Next(s, call), call.owner, call.conversation)
  {
    if ReleasesLease(call) {
      if call.FinishCall? {
        ReleaseStartsOwn(s, s, call.owner, call.conversation);
      } else {
        FinishEventReleases(s, call);
      }
    } else if call.conversation in s.leases {
      LeaseStays(s, call, call.conversation);
    }
  }

  lemma FinishEventReleases(s: State, call: Call)
    requires WellFormed(s) && call.FinishEventCall? && call.claimNext && !Stranded(s, call.owner, call.conversation)
    ensures !Stranded(Next(s, call), call.owner, call.conversation)
  {
    var r := FinishWithEvent(s, call.owner, call.conversation, call.worker, call.token, call.now, true, call.retryNotBefore,
                             call.runId, call.kind, call.eventId);
    if r.Done? {
      LoggingIsLocal(s, call.owner, call.conversation, r.value.event);
      ReleaseStartsOwn(s, Logged(s, call.owner, r.value.event), call.owner, call.conversation);
    }
  }

  /** An owner's own calls strand none of the owner's turns. */
  lemma OwnCallStrandsNone(s: State, call: Call)
    requires WellFormed(s) && !Stranded(s, call.owner, call.Conversation())
    ensures !Stranded(Next(s, call), call.owner, call.Conversation())
  {
    match call {
      case AcquireCall(_, _, _, _, _, _) =>
      case EnqueueCall(_, _) => EnqueueStrandsNone(s, call);
      case ClaimCall(_, _) => ClaimStrandsNone(s, call);
      case CompleteCall(_, _, _) => CompleteStrandsNone(s, call);
      case FinishCall(_, _, _, _, _, _, _) => FinishStrandsNone(s, call);
      case FinishEventCall(_, _, _, _, _, _, _, _, _, _) => FinishStrandsNone(s, call);
    }
  }

  lemma ReleaseDropsLease(m: State, owner: UserId, c: ConversationId)
    requires Filed(m)
    ensures c !in ReleaseAndClaim(m, owner, c).0.leases
  {
  }

  lemma ReleaseEndsLease(s: State, call: Call)
    requires WellFormed(s) && ReleasesLease(call) && Next(s, call) != s
    ensures call.conversation in s.leases && call.conversation !in Next(s, call).leases
  {
    if call.FinishEventCall? {
      FinishEventEndsLease(s, call);
    } else {
      ReleaseDropsLease(s, call.owner, call.conversation);
    }
  }

  lemma FinishEventEndsLease(s: State, call: Call)
    requires WellFormed(s) && call.FinishEventCall? && call.claimNext && Next(s, call) != s
    ensures call.conversation in s.leases && call.conversation !in Next(s, call).leases
  {
    var r := FinishWithEvent(s, call.owner, call.conversation, call.worker, call.token, call.now, true,
                             call.retryNotBefore, call.runId, call.kind, call.eventId);
    assert r.Done?;
    LoggingIsLocal(s, call.owner, call.conversation, r.value.event);
    ReleaseDropsLease(Logged(s, call.owner, r.value.event), call.owner, call.conversation);
  }

  /** The guards of a claiming finish: the arguments, the lease under its token, no processing turn of the owner, and for the
      finish that logs an event a known kind, a new id and no event of another owner. */
  predicate ReleaseGranted(s: State, call: Call) {
    && ReleasesLease(call) && call.retryNotBefore.None?
    && HoldsLease(s, call.owner, call.conversation, call.worker, call.token, call.now)
    && !AnyProcessing(s, call.owner, call.conversation)
    && (call.FinishEventCall? ==>
          && call.kind != OtherKind && call.eventId !in s.eventIds
          && forall e :: e in EventsOf(s, call.conversation) ==> e.owner == call.owner)
  }

  lemma ReleaseGrantedIff(s: State, call: Call)
    requires WellFormed(s) && ReleasesLease(call)
    ensures ReleaseGranted(s, call) <==> Next(s, call) != s
  {
    if ReleaseGranted(s, call) {
      if call.FinishCall? { GrantedFinishReleases(s, call); } else { GrantedEventReleases(s, call); }
    }
  }

  lemma GrantedFinishReleases(s: State, call: Call)
    requires WellFormed(s) && call.FinishCall? && ReleaseGranted(s, call)
    ensures call.conversation !in Next(s, call).leases
  {
    ReleaseDropsLease(s, call.owner, call.conversation);
  }

  lemma GrantedEventReleases(s: State, call: Call)
    requires WellFormed(s) && call.FinishEventCall? && ReleaseGranted(s, call)
    ensures call.conversation !in Next(s, call).leases
  {
    var r := FinishWithEvent(s, call.owner, call.conversation, call.worker, call.token, call.now, true,
                             call.retryNotBefore, call.runId, call.kind, call.eventId);
    assert r.Done?;
    LoggingIsLocal(s, call.owner, call.conversation, r.value.event);
    ReleaseDropsLease(Logged(s, call.owner, r.value.event), call.owner, call.conversation);
  }

  /** Of all calls, in every state: one strands turns of an owner if and only if it is a claiming finish that is granted for
      another owner's lease of the conversation while the owner has a waiting turn and executes none. */
  lemma CallStrandsIff(s: State, call: Call, owner: UserId, c: ConversationId)
    requires WellFormed(s) && !Stranded(s, owner, c)
    ensures Stranded(Next(s, call), owner, c)
            <==> && ReleaseGranted(s, call) && call.conversation == c && call.owner != owner
                 && Waiting(s, owner, c) != {} && !AnyExecuting(s, owner, c)
  {
    var t := Next(s, call);
    if ReleasesLease(call) { ReleaseGrantedIff(s, call); }
    if call.owner == owner && call.Conversation() == c {
      OwnCallStrandsNone(s, call);
    } else {
      OthersTurnsStay(s, call, owner, c);
      SameTurnsSameWait(s, t, owner, c);
      if ReleasesLease(call) && t != s && call.conversation == c {
        ReleaseEndsLease(s, call);
      } else if c in s.leases {
        if t != s { LeaseStays(s, call, c); }
      }
    }
  }

  // ---------------------------------------------------------------- concrete runs

  const CONVERSATION: ConversationId := 7
  const OWNER: UserId := 1
  const FIRST := Turn(1, CONVERSATION, 1, Accepted, 10)
  const SECOND := Turn(2, CONVERSATION, 2, Accepted, 30)
  const THIRD := Turn(3, CONVERSATION, 3, Accepted, 20)

  function Key(turnId: TurnId): TurnKey { TurnKey(OWNER, turnId) }

  function TwoArrived(): State {
    State(map[Key(1) := FIRST, Key(2) := SECOND.(status := Queued)], map[Key(1) := 1, Key(2) := 2],
          map[InputKey(CONVERSATION, 1) := Key(1), InputKey(CONVERSATION, 2) := Key(2)], {1, 2}, 3, map[], map[], {}, {})
  }

  function OneArrived(): State {
    State(map[Key(1) := FIRST], map[Key(1) := 1], map[InputKey(CONVERSATION, 1) := Key(1)], {1}, 2, map[], map[], {}, {})
  }

  lemma FirstArrives()
    ensures WellFormed(EMPTY) && Next(EMPTY, EnqueueCall(OWNER, FIRST)) == OneArrived()
  {
  }

  lemma SecondArrives()
    requires WellFormed(OneArrived())
    ensures Next(OneArrived(), EnqueueCall(OWNER, SECOND)) == TwoArrived()
  {
    SecondIsQueued();
    assert CreateTurn(OneArrived(), OWNER, SECOND.(status := Queued)).state == TwoArrived() by {
      assert {1} + {2} == {1, 2};
    }
  }

  lemma SecondIsQueued()
    ensures AnyExecuting(OneArrived(), OWNER, CONVERSATION)
  {
    assert InConversation(OneArrived(), OWNER, CONVERSATION, Key(1));
  }

  lemma RunTwice(s: State, a: Call, b: Call, rest: seq<Call>)
    requires WellFormed(s)
    ensures WellFormed(Next(s, a)) && WellFormed(Next(Next(s, a), b))
    ensures Run(s, [a] + ([b] + rest)) == Run(Next(Next(s, a), b), rest)
  {
    RunCons(s, a, [b] + rest);
    RunCons(Next(s, a), b, rest);
  }

  /** Two turns of one owner arrive: the first is accepted, the second queued. */
  lemma TwoArrive(rest: seq<Call>)
    ensures WellFormed(EMPTY) && WellFormed(TwoArrived())
    ensures Run(EMPTY, [EnqueueCall(OWNER, FIRST)] + ([EnqueueCall(OWNER, SECOND)] + rest)) == Run(TwoArrived(), rest)
  {
    FirstArrives();
    NextWellFormed(EMPTY, EnqueueCall(OWNER, FIRST));
    SecondArrives();
    RunTwice(EMPTY, EnqueueCall(OWNER, FIRST), EnqueueCall(OWNER, SECOND), rest);
  }

  const HOLDER: UserId := 2
  const ACQUIRE := AcquireCall(HOLDER, CONVERSATION, 5, 9, 0, 100)
  const COMPLETE_FIRST := CompleteCall(OWNER, CONVERSATION, 1)
  const RELEASE := FinishCall(HOLDER, CONVERSATION, 5, 9, 50, true, None)

  function Leased(): State {
    TwoArrived().(leases := map[CONVERSATION := HeldLease(HOLDER, Lease(CONVERSATION, 5, 9, 100))], issued := {9})
  }

  lemma HolderAcquires()
    requires WellFormed(TwoArrived())
    ensures Next(TwoArrived(), ACQUIRE) == Leased()
  {
    assert Demoted(TwoArrived(), HOLDER, CONVERSATION) == TwoArrived().turns;
  }

  lemma LeasedCompletion()
    requires WellFormed(Leased())
    ensures Next(Leased(), COMPLETE_FIRST) == WithStatus(Leased(), Key(1), Completed)
  {
  }

  function FirstCompleted(): State { WithStatus(Leased(), Key(1), Completed) }

  lemma OwnerIsQueued()
    ensures Key(2) in Waiting(FirstCompleted(), OWNER, CONVERSATION) && !AnyExecuting(FirstCompleted(), OWNER, CONVERSATION)
  {
    assert forall k :: k in FirstCompleted().turns ==> k == Key(1) || k == Key(2);
  }

  lemma HolderReleases()
    requires WellFormed(FirstCompleted())
    ensures Next(FirstCompleted(), RELEASE) == Release(FirstCompleted(), CONVERSATION)
  {
    var s := FirstCompleted();
    assert forall k :: k in s.turns ==> k.owner == OWNER;
    assert Waiting(s, HOLDER, CONVERSATION) == {} && !AnyProcessing(s, HOLDER, CONVERSATION);
  }

  lemma OwnerIsStranded()
    requires WellFormed(FirstCompleted())
    ensures Stranded(Next(FirstCompleted(), RELEASE), OWNER, CONVERSATION)
  {
    OwnerIsQueued();
    HolderReleases();
    CallStrandsIff(FirstCompleted(), RELEASE, OWNER, CONVERSATION);
  }

  /** From the empty repository: an owner's two turns arrive, a second owner leases their conversation, the owner
      completes the first turn and the second owner gives the lease up. The queued turn is stranded. */
  lemma SecondOwnerStrandsFirst()
    ensures WellFormed(EMPTY)
    ensures var calls := [EnqueueCall(OWNER, FIRST)] + ([EnqueueCall(OWNER, SECOND)]
                           + ([ACQUIRE] + ([COMPLETE_FIRST] + ([RELEASE] + []))));
            Stranded(Run(EMPTY, calls), OWNER, CONVERSATION)
  {
    TwoArrive([ACQUIRE] + ([COMPLETE_FIRST] + ([RELEASE] + [])));
    HolderAcquires();
    RunTwice(TwoArrived(), ACQUIRE, COMPLETE_FIRST, [RELEASE] + []);
    LeasedCompletion();
    RunCons(FirstCompleted(), RELEASE, []);
    OwnerIsStranded();
  }

  function ThreeArrived(): State {
    TwoArrived().(turns := TwoArrived().turns[Key(3) := THIRD.(status := Queued)], order := TwoArrived().order[Key(3) := 3],
                  inputs := TwoArrived().inputs[InputKey(CONVERSATION, 3) := Key(3)], turnIds := {1, 2, 3}, nextSequence := 4)
  }

  lemma ThirdArrives()
    requires WellFormed(TwoArrived())
    ensures Next(TwoArrived(), EnqueueCall(OWNER, THIRD)) == ThreeArrived()
  {
    assert InConversation(TwoArrived(), OWNER, CONVERSATION, Key(1));
    assert TwoArrived().turnIds + {3} == {1, 2, 3};
  }

  /** With no lease and nothing else processing, completing k hands over to the waiting turn created first. */
  lemma HandsOverTo(s: State, k: TurnKey, n: TurnKey, c: ConversationId)
    requires CanComplete(s, k, c) && c !in s.leases
    requires forall j :: InConversation(s, k.owner, c, j) ==> s.turns[j].turnId == j.turnId
    requires !AnyProcessing(WithStatus(s, k, Completed), k.owner, c)
    requires n in Waiting(WithStatus(s, k, Completed), k.owner, c)
    requires forall j :: j in Waiting(WithStatus(s, k, Completed), k.owner, c) ==> CreatedNoLater(s.turns[n], s.turns[j])
    ensures StateAfter(s, Complete(s, k.owner, c, k.turnId)) == WithStatus(WithStatus(s, k, Completed), n, Processing)
  {
    var after, ks := WithStatus(s, k, Completed), Successors(s, k, c);
    var m := PickCreated(after, ks);
    assert k == TurnKey(k.owner, k.turnId);
    assert InConversation(s, k.owner, c, m) && InConversation(s, k.owner, c, n);
    assert m == n;
  }

  function ThirdProcesses(): State { WithStatus(WithStatus(ThreeArrived(), Key(1), Completed), Key(3), Processing) }

  lemma HandsOverNext(s: State, k: TurnKey, n: TurnKey, c: ConversationId)
    requires WellFormed(s) && CanComplete(s, k, c) && c !in s.leases
    requires !AnyProcessing(WithStatus(s, k, Completed), k.owner, c)
    requires n in Waiting(WithStatus(s, k, Completed), k.owner, c)
    requires forall j :: j in Waiting(WithStatus(s, k, Completed), k.owner, c) ==> CreatedNoLater(s.turns[n], s.turns[j])
    ensures Next(s, CompleteCall(k.owner, c, k.turnId)) == WithStatus(WithStatus(s, k, Completed), n, Processing)
  {
    HandsOverTo(s, k, n, c);
  }

  lemma TwoWait()
    ensures Waiting(WithStatus(ThreeArrived(), Key(1), Completed), OWNER, CONVERSATION) == {Key(2), Key(3)}
    ensures !AnyProcessing(WithStatus(ThreeArrived(), Key(1), Completed), OWNER, CONVERSATION)
  {
  }

  lemma OneWaits()
    ensures Waiting(WithStatus(ThirdProcesses(), Key(3), Completed), OWNER, CONVERSATION) == {Key(2)}
    ensures !AnyProcessing(WithStatus(ThirdProcesses(), Key(3), Completed), OWNER, CONVERSATION)
  {
  }

  lemma HandsOverToThird()
    requires WellFormed(ThreeArrived())
    ensures Next(ThreeArrived(), COMPLETE_FIRST) == ThirdProcesses()
  {
    TwoWait();
    HandsOverNext(ThreeArrived(), Key(1), Key(3), CONVERSATION);
  }

  const COMPLETE_THIRD := CompleteCall(OWNER, CONVERSATION, 3)

  function SecondProcesses(): State { WithStatus(WithStatus(ThirdProcesses(), Key(3), Completed), Key(2), Processing) }

  lemma ThirdCompletes()
    requires WellFormed(ThirdProcesses())
    ensures Next(ThirdProcesses(), COMPLETE_THIRD) == SecondProcesses()
  {
    OneWaits();
    HandsOverNext(ThirdProcesses(), Key(3), Key(2), CONVERSATION);
  }

  lemma StepInto(s: State, call: Call, t: State, rest: seq<Call>)
    requires WellFormed(s) && Next(s, call) == t
    ensures WellFormed(t) && Run(s, [call] + rest) == Run(t, rest)
  {
    RunCons(s, call, rest);
  }

  lemma BothComplete()
    requires WellFormed(ThreeArrived())
    ensures Run(ThreeArrived(), [COMPLETE_FIRST] + ([COMPLETE_THIRD] + [])) == SecondProcesses()
  {
    HandsOverToThird();
    StepInto(ThreeArrived(), COMPLETE_FIRST, ThirdProcesses(), [COMPLETE_THIRD] + []);
    ThirdCompletes();
    StepInto(ThirdProcesses(), COMPLETE_THIRD, SecondProcesses(), []);
  }

  lemma ThreeArrive(rest: seq<Call>)
    ensures WellFormed(EMPTY) && WellFormed(ThreeArrived())
    ensures Run(EMPTY, [EnqueueCall(OWNER, FIRST)] + ([EnqueueCall(OWNER, SECOND)] + ([EnqueueCall(OWNER, THIRD)] + rest)))
            == Run(ThreeArrived(), rest)
  {
    TwoArrive([EnqueueCall(OWNER, THIRD)] + rest);
    ThirdArrives();
    RunCons(TwoArrived(), EnqueueCall(OWNER, THIRD), rest);
  }

  /** From the empty repository and with one owner: the turn that arrived third but was created second is completed
      before the turn that arrived second. */
  lemma LateCreationOvertakes()
    ensures WellFormed(EMPTY)
    ensures var calls := [EnqueueCall(OWNER, FIRST)] + ([EnqueueCall(OWNER, SECOND)]
                           + ([EnqueueCall(OWNER, THIRD)] + ([COMPLETE_FIRST] + ([COMPLETE_THIRD] + []))));
            var s := Run(EMPTY, calls);
            && Key(2) in s.turns && Key(3) in s.turns && s.order == map[Key(1) := 1, Key(2) := 2, Key(3) := 3]
            && s.turns[Key(3)].status == Completed && s.turns[Key(2)].status == Processing
  {
    ThreeArrive([COMPLETE_FIRST] + ([COMPLETE_THIRD] + []));
    BothComplete();
  }
}
