/** In what order completing calls finish the turns that wait. complete_turn_and_claim_next chooses the next turn by
    (created_at, turn_id), although it promises the order of the inbox. */
module CompletionOrder {
  import opened Common
  import opened CompactionState
  import opened CompactionRuns
  import I = Inbox

  // ---------------------------------------------------------------- one inbox

  /** Some turn is past waiting, so that a completing call on it can hand over before the accepted turn is completed. */
  ghost predicate Started(b: I.Inbox) { exists x :: x in b.turns && !I.Waits(b, x) }

  /** A waiting turn that a completing call may pass over. The accepted turn of a fresh inbox is not: it is the only one
      that can be completed. */
  ghost predicate Competes(b: I.Inbox, k: TurnKey) {
    I.Has(b, k, Queued) || (I.Has(b, k, Accepted) && Started(b))
  }

  ghost predicate KeysFollowArrival(b: I.Inbox) {
    forall j, k :: Competes(b, j) && Competes(b, k) && b.turns[j].arrival < b.turns[k].arrival ==> I.CreatedNoLater(b, j, k)
  }

  /** An accepted turn arrived before every other turn still to be completed. */
  ghost predicate AcceptedFirst(b: I.Inbox) {
    forall a, j :: I.Has(b, a, Accepted) && I.Active(b, j) ==> b.turns[a].arrival <= b.turns[j].arrival
  }

  ghost predicate OneOwner(b: I.Inbox) { forall j, k :: j in b.turns && k in b.turns ==> j.owner == k.owner }

  ghost predicate Sound(b: I.Inbox) { I.Exclusive(b) && I.DistinctArrivals(b) && AcceptedFirst(b) && OneOwner(b) }

  lemma FewerKeepAcceptedFirst(b: I.Inbox, d: I.Inbox)
    requires AcceptedFirst(b)
    requires forall j :: I.Active(d, j) ==> I.Active(b, j) && d.turns[j].arrival == b.turns[j].arrival
    requires forall j :: I.Has(d, j, Accepted) ==> I.Has(b, j, Accepted)
    ensures AcceptedFirst(d)
  {
    forall a, j | I.Has(d, a, Accepted) && I.Active(d, j) ensures d.turns[a].arrival <= d.turns[j].arrival {
      assert I.Active(d, a);
      assert I.Has(b, a, Accepted) && I.Active(b, j);
    }
  }

  lemma ArrivalKeepsAcceptedFirst(b: I.Inbox, d: I.Inbox, k: TurnKey)
    requires I.Exclusive(b) && AcceptedFirst(b) && I.Arrives(b, d, k)
    ensures AcceptedFirst(d)
  {
    forall a, j | I.Has(d, a, Accepted) && I.Active(d, j) ensures d.turns[a].arrival <= d.turns[j].arrival {
      if a != k {
        assert I.Has(b, a, Accepted);
        if j != k { assert I.Active(b, j); }
      } else if j != k {
        assert I.Active(b, j) && !I.Executes(b, j);
        assert I.Has(b, j, Queued);
        assert false;
      }
    }
  }

  lemma StartKeepsAcceptedFirst(b: I.Inbox, d: I.Inbox, n: TurnKey)
    requires AcceptedFirst(b) && I.Starts(b, d, n)
    ensures AcceptedFirst(d)
  {
    assert forall j :: I.Active(d, j) ==> I.Active(b, j) && d.turns[j].arrival == b.turns[j].arrival;
    FewerKeepAcceptedFirst(b, d);
  }

  lemma CompletionKeepsAcceptedFirst(b: I.Inbox, d: I.Inbox, k: TurnKey)
    requires AcceptedFirst(b) && I.Completes(b, d, k)
    ensures AcceptedFirst(d)
  {
    var m := I.Set(b, k, Completed);
    FewerKeepAcceptedFirst(b, m);
    if d != m {
      var n :| I.Starts(m, d, n) && I.CreatedFirst(m, n);
      StartKeepsAcceptedFirst(m, d, n);
    }
  }

  lemma ReleaseKeepsAcceptedFirst(b: I.Inbox, d: I.Inbox)
    requires AcceptedFirst(b) && I.Releases(b, d)
    ensures AcceptedFirst(d)
  {
    var m := b.(leased := false);
    FewerKeepAcceptedFirst(b, m);
    if d != m {
      var n :| I.Starts(m, d, n) && I.ArrivedFirst(m, n);
      StartKeepsAcceptedFirst(m, d, n);
    }
  }

  lemma MoveKeepsAcceptedFirst(b: I.Inbox, d: I.Inbox)
    requires I.Exclusive(b) && AcceptedFirst(b) && I.Moves(b, d)
    ensures AcceptedFirst(d)
  {
    if d == b {
    } else if I.Leases(b, d) {
      assert forall a :: !I.Has(d, a, Accepted);
    } else if exists k :: I.Arrives(b, d, k) {
      var k :| I.Arrives(b, d, k);
      ArrivalKeepsAcceptedFirst(b, d, k);
    } else if exists k :: I.Starts(b, d, k) && I.ArrivedFirst(b, k) {
      var k :| I.Starts(b, d, k) && I.ArrivedFirst(b, k);
      StartKeepsAcceptedFirst(b, d, k);
    } else if exists k :: I.Completes(b, d, k) {
      var k :| I.Completes(b, d, k);
      CompletionKeepsAcceptedFirst(b, d, k);
    } else {
      ReleaseKeepsAcceptedFirst(b, d);
    }
  }

  predicate TakenUp(b: I.Inbox, k: TurnKey) { I.Has(b, k, Processing) || I.Has(b, k, Completed) }

  /** Both wait in b, and j arrived before k. */
  predicate Precedes(b: I.Inbox, j: TurnKey, k: TurnKey) {
    I.Waits(b, j) && I.Waits(b, k) && b.turns[j].arrival < b.turns[k].arrival
  }

  /** Of the turns that wait in b, d took up none before those that arrived earlier were completed. */
  ghost predicate TakenUpInOrder(b: I.Inbox, d: I.Inbox) {
    forall j, k :: Precedes(b, j, k) && TakenUp(d, k) ==> I.Has(d, j, Completed)
  }

  /** d has the turns of b, each as it was or taken up. */
  ghost predicate Advanced(b: I.Inbox, d: I.Inbox) {
    && d.turns.Keys == b.turns.Keys
    && forall k :: k in b.turns ==> d.turns[k] == b.turns[k].(status := d.turns[k].status)
                                    && (d.turns[k].status == b.turns[k].status || TakenUp(d, k))
  }

  /** A fresh inbox changes first by the completion of its accepted turn. */
  ghost predicate AcceptedGoesFirst(b: I.Inbox, d: I.Inbox) {
    !Started(b) && (exists a :: I.Has(d, a, Accepted)) ==> d == b
  }

  /** What completing calls keep, from the inbox b on. */
  ghost predicate Kept(b: I.Inbox, d: I.Inbox) {
    !d.leased && Advanced(b, d) && TakenUpInOrder(b, d) && AcceptedGoesFirst(b, d)
  }

  lemma CompletingKeepsPair(b: I.Inbox, d: I.Inbox, x: TurnKey, j: TurnKey, k: TurnKey)
    requires AcceptedFirst(b) && Advanced(b, d) && TakenUpInOrder(b, d) && (I.Executes(d, x) || I.Has(d, x, Completed))
    requires Precedes(b, j, k) && TakenUp(I.Set(d, x, Completed), k)
    ensures I.Has(I.Set(d, x, Completed), j, Completed)
  {
    if !TakenUp(d, k) {
      assert k == x && I.Has(b, k, Accepted) && I.Active(b, j);
      assert false;
    }
  }

  lemma CompletingKeepsOrder(b: I.Inbox, d: I.Inbox, x: TurnKey)
    requires AcceptedFirst(b) && Advanced(b, d) && TakenUpInOrder(b, d) && (I.Executes(d, x) || I.Has(d, x, Completed))
    ensures Advanced(b, I.Set(d, x, Completed)) && TakenUpInOrder(b, I.Set(d, x, Completed))
  {
    var m := I.Set(d, x, Completed);
    forall j, k | Precedes(b, j, k) && TakenUp(m, k) ensures I.Has(m, j, Completed) {
      CompletingKeepsPair(b, d, x, j, k);
    }
  }

  /** In a fresh inbox only the accepted turn can be completed. */
  lemma FreshCompletesAccepted(b: I.Inbox, x: TurnKey, a: TurnKey)
    requires I.Exclusive(b) && !Started(b) && (I.Executes(b, x) || I.Has(b, x, Completed)) && I.Has(b, a, Accepted)
    ensures x == a
  {
    assert I.Waits(b, x);
    assert I.Has(b, x, Accepted);
  }

  lemma CompletingEndsFresh(b: I.Inbox, d: I.Inbox, x: TurnKey)
    requires I.Exclusive(b) && Advanced(b, d) && AcceptedGoesFirst(b, d) && (I.Executes(d, x) || I.Has(d, x, Completed))
    ensures !Started(b) ==> forall a :: !I.Has(I.Set(d, x, Completed), a, Accepted)
  {
    var m := I.Set(d, x, Completed);
    forall a | !Started(b) && I.Has(m, a, Accepted) ensures false {
      assert I.Has(d, a, Accepted);
      FreshCompletesAccepted(b, x, a);
    }
  }

  /** A turn that still waits after a completion competes from the start. */
  lemma StillCompetes(b: I.Inbox, m: I.Inbox, k: TurnKey)
    requires Advanced(b, m) && I.Waits(m, k)
    requires !Started(b) ==> forall a :: !I.Has(m, a, Accepted)
    ensures Competes(b, k)
  {
    assert I.Has(m, k, Accepted) || I.Has(m, k, Queued);
  }

  lemma HandOverIsFirst(b: I.Inbox, m: I.Inbox, n: TurnKey, j: TurnKey)
    requires OneOwner(b) && I.OnlyProtocolStatuses(b) && KeysFollowArrival(b) && Advanced(b, m) && I.CreatedFirst(m, n)
    requires !Started(b) ==> forall a :: !I.Has(m, a, Accepted)
    requires Precedes(b, j, n)
    ensures TakenUp(m, j)
  {
    if I.Waits(m, j) {
      StillCompetes(b, m, j);
      StillCompetes(b, m, n);
      assert false;
    }
  }

  lemma HandOverKeepsOrder(b: I.Inbox, m: I.Inbox, d: I.Inbox, n: TurnKey)
    requires OneOwner(b) && I.OnlyProtocolStatuses(b) && KeysFollowArrival(b)
    requires Advanced(b, m) && TakenUpInOrder(b, m)
    requires !Started(b) ==> forall a :: !I.Has(m, a, Accepted)
    requires I.Starts(m, d, n) && I.CreatedFirst(m, n)
    ensures Advanced(b, d) && TakenUpInOrder(b, d)
  {
    forall j, k | Precedes(b, j, k) && TakenUp(d, k) ensures I.Has(d, j, Completed) {
      if k == n {
        HandOverIsFirst(b, m, n, j);
        assert !I.Has(m, j, Processing);
      } else {
        assert TakenUp(m, k);
        assert I.Has(m, j, Completed);
      }
    }
  }

  lemma StartKeepsNoneAccepted(m: I.Inbox, e: I.Inbox, n: TurnKey)
    requires I.Starts(m, e, n) && forall a :: !I.Has(m, a, Accepted)
    ensures forall a :: !I.Has(e, a, Accepted)
  {
    forall a | I.Has(e, a, Accepted) ensures false { assert I.Has(m, a, Accepted); }
  }

  /** With keys that follow arrival, every completing call takes turns up in the order of arrival. */
  lemma CompletionStaysInOrder(b: I.Inbox, d: I.Inbox, e: I.Inbox, x: TurnKey)
    requires Sound(b) && KeysFollowArrival(b) && Kept(b, d) && I.Completes(d, e, x)
    ensures Kept(b, e)
  {
    var m := I.Set(d, x, Completed);
    CompletingKeepsOrder(b, d, x);
    CompletingEndsFresh(b, d, x);
    if e != m {
      var n :| I.Starts(m, e, n) && I.CreatedFirst(m, n);
      HandOverKeepsOrder(b, m, e, n);
      if !Started(b) { StartKeepsNoneAccepted(m, e, n); }
    }
  }

  /** Under a lease completing calls change nothing. */
  lemma LeasedStays(b: I.Inbox, d: I.Inbox, x: TurnKey)
    requires I.Exclusive(b) && b.leased && I.Completes(b, d, x)
    ensures d == b
  {
    assert I.Has(b, x, Completed);
    assert b.turns[x := b.turns[x].(status := Completed)] == b.turns;
  }

  // ---------------------------------------------------------------- runs of completing calls

  predicate CompletionsOnly(calls: seq<Call>, owner: UserId, conversation: ConversationId) {
    forall i :: 0 <= i < |calls| ==> calls[i].CompleteCall? && calls[i].owner == owner && calls[i].conversation == conversation
  }

  /** Holds of every state a legal run reaches. */
  ghost predicate Reachable(s: State, own: ConversationId -> UserId) {
    QueueInvariant(s, own) && forall c :: AcceptedFirst(InboxOf(s, c))
  }

  lemma StepStaysReachable(s: State, c: Call, own: ConversationId -> UserId)
    requires Reachable(s, own) && Legal(s, c, own)
    ensures Reachable(Next(s, c), own)
  {
    StepKeepsInvariant(s, c, own);
    forall d ensures AcceptedFirst(InboxOf(Next(s, c), d)) {
      if d == c.Conversation() {
        CallMovesInbox(s, c, own);
        MoveKeepsAcceptedFirst(InboxOf(s, d), InboxOf(Next(s, c), d));
      } else {
        OtherInboxesUntouched(s, c, d);
      }
    }
  }

  lemma {:induction false} RunStaysReachable(s: State, calls: seq<Call>, own: ConversationId -> UserId)
    requires Reachable(s, own) && LegalRun(s, calls, own)
    ensures Reachable(Run(s, calls), own)
    decreases |calls|
  {
    if calls != [] {
      StepStaysReachable(s, calls[0], own);
      RunStaysReachable(Next(s, calls[0]), calls[1..], own);
    }
  }

  lemma EmptyIsReachable(own: ConversationId -> UserId)
    ensures Reachable(EMPTY, own)
  {
    EmptyRepository(own);
    forall c ensures AcceptedFirst(InboxOf(EMPTY, c)) { assert InboxOf(EMPTY, c).turns == map[]; }
  }

  lemma ReachableIsSound(s: State, own: ConversationId -> UserId, conversation: ConversationId)
    requires Reachable(s, own)
    ensures Sound(InboxOf(s, conversation))
  {
    var b := InboxOf(s, conversation);
    assert forall k :: k in b.turns ==> k.owner == own(conversation);
  }

  lemma {:induction false} CompletionsAreLegal(s: State, calls: seq<Call>, own: ConversationId -> UserId, c: ConversationId)
    requires WellFormed(s) && CompletionsOnly(calls, own(c), c)
    ensures LegalRun(s, calls, own)
    decreases |calls|
  {
    if calls != [] {
      NextWellFormed(s, calls[0]);
      CompletionsAreLegal(Next(s, calls[0]), calls[1..], own, c);
    }
  }

  /** A completing call completes a turn in the inbox, or is refused. */
  lemma CompletionCallInInbox(s: State, call: Call, own: ConversationId -> UserId)
    requires WellFormed(s) && OwnedBy(s, own) && call.CompleteCall? && call.owner == own(call.conversation)
    ensures var t := Next(s, call);
            && Filed(t)
            && (t == s || I.Completes(InboxOf(s, call.conversation), InboxOf(t, call.conversation), TurnKey(call.owner, call.turnId)))
  {
    NextWellFormed(s, call);
    if CanComplete(s, TurnKey(call.owner, call.turnId), call.conversation) {
      CompletionInInbox(s, own, call.conversation, call.turnId);
    }
  }

  lemma {:induction false} RunStaysInOrder(
    b: I.Inbox, s: State, calls: seq<Call>, own: ConversationId -> UserId, c: ConversationId)
    requires Reachable(s, own) && CompletionsOnly(calls, own(c), c)
    requires Sound(b) && KeysFollowArrival(b) && Kept(b, InboxOf(s, c))
    ensures Filed(Run(s, calls)) && Kept(b, InboxOf(Run(s, calls), c))
    decreases |calls|
  {
    if calls != [] {
      var t := Next(s, calls[0]);
      StepStaysReachable(s, calls[0], own);
      CompletionCallInInbox(s, calls[0], own);
      if t != s {
        CompletionStaysInOrder(b, InboxOf(s, c), InboxOf(t, c), TurnKey(own(c), calls[0].turnId));
      }
      RunStaysInOrder(b, t, calls[1..], own, c);
    }
  }

  lemma {:induction false} LeasedRunStays(s: State, calls: seq<Call>, own: ConversationId -> UserId, c: ConversationId)
    requires Reachable(s, own) && CompletionsOnly(calls, own(c), c) && c in s.leases
    ensures Filed(Run(s, calls)) && InboxOf(Run(s, calls), c) == InboxOf(s, c)
    decreases |calls|
  {
    if calls != [] {
      var t := Next(s, calls[0]);
      StepStaysReachable(s, calls[0], own);
      CompletionCallInInbox(s, calls[0], own);
      if t != s {
        LeasedStays(InboxOf(s, c), InboxOf(t, c), TurnKey(own(c), calls[0].turnId));
      }
      assert InboxOf(t, c).leased;
      LeasedRunStays(t, calls[1..], own, c);
    }
  }

  // ---------------------------------------------------------------- a turn that is overtaken

  /** k is to be chosen before j, although both still wait. */
  ghost predicate Rivals(b: I.Inbox, j: TurnKey, k: TurnKey) {
    I.Waits(b, j) && I.Waits(b, k) && j != k && I.CreatedNoLater(b, k, j) && j.owner == k.owner
  }

  function WaitingIn(b: I.Inbox): set<TurnKey> { set q | q in b.turns && IsWaiting(b.turns[q].status) }

  /** Completing another turn, with no other processing, hands over to a turn other than j. */
  lemma HandsOverToAnother(b: I.Inbox, d: I.Inbox, x: TurnKey, j: TurnKey, k: TurnKey)
    requires !b.leased && I.Completes(b, d, x) && x != j && x != k && Rivals(b, j, k)
    requires forall p :: I.Has(b, p, Processing) ==> p == x
    ensures !d.leased && I.Waits(d, j)
    ensures I.Has(d, k, Processing) || (exists n :: I.Has(d, n, Processing) && n != j && n != k && Rivals(d, j, k))
    ensures WaitingIn(d) < WaitingIn(b)
  {
    var m := I.Set(b, x, Completed);
    assert I.Waits(m, j) && I.Waits(m, k);
    forall p | I.Has(m, p, Processing) ensures false { assert I.Has(b, p, Processing); }
    var n :| I.Starts(m, d, n) && I.CreatedFirst(m, n);
    assert I.CreatedNoLater(m, n, k);
    assert n in WaitingIn(b) && n !in WaitingIn(d);
    assert I.Has(d, n, Processing);
    assert n != j by { KeysAreDistinct(m, n, j, k); }
  }

  lemma KeysAreDistinct(b: I.Inbox, n: TurnKey, j: TurnKey, k: TurnKey)
    requires n in b.turns && j in b.turns && k in b.turns && j != k && j.owner == k.owner
    requires I.CreatedNoLater(b, n, k) && I.CreatedNoLater(b, k, j)
    ensures n != j
  {
  }

  function Completing(k: TurnKey, conversation: ConversationId): Call { CompleteCall(k.owner, conversation, k.turnId) }

  ghost predicate Overtook(b: I.Inbox, j: TurnKey, k: TurnKey) {
    I.Has(b, k, Completed) && j in b.turns && !I.Has(b, j, Completed)
  }

  /** Completing calls of the conversation after which k is completed and j is not. */
  ghost predicate Overtakes(s: State, owner: UserId, c: ConversationId, calls: seq<Call>, j: TurnKey, k: TurnKey)
    requires WellFormed(s)
  {
    CompletionsOnly(calls, owner, c) && Filed(Run(s, calls)) && Overtook(InboxOf(Run(s, calls), c), j, k)
  }

  lemma OvertakesCons(s: State, owner: UserId, c: ConversationId, call: Call, rest: seq<Call>, j: TurnKey, k: TurnKey)
    requires WellFormed(s) && WellFormed(Next(s, call)) && Overtakes(Next(s, call), owner, c, rest, j, k)
    requires call.CompleteCall? && call.owner == owner && call.conversation == c
    ensures Overtakes(s, owner, c, [call] + rest, j, k)
  {
    RunCons(s, call, rest);
  }

  lemma CompletedOvertook(b: I.Inbox, d: I.Inbox, j: TurnKey, k: TurnKey)
    requires I.Completes(b, d, k) && I.Waits(b, j) && j != k
    ensures Overtook(d, j, k)
  {
  }

  lemma CompletableCompletes(s: State, own: ConversationId -> UserId, c: ConversationId, x: TurnKey)
    requires Reachable(s, own) && (I.Executes(InboxOf(s, c), x) || I.Has(InboxOf(s, c), x, Completed))
    ensures x == TurnKey(own(c), x.turnId) && Reachable(Next(s, Completing(x, c)), own)
    ensures I.Completes(InboxOf(s, c), InboxOf(Next(s, Completing(x, c)), c), x)
  {
    CompletableIsOwn(s, own, c, x);
    StepStaysReachable(s, Completing(x, c), own);
    CompletionCompletes(s, own, c, x);
  }

  lemma CompletionCompletes(s: State, own: ConversationId -> UserId, c: ConversationId, x: TurnKey)
    requires WellFormed(s) && OwnedBy(s, own) && x.owner == own(c) && CanComplete(s, x, c)
    ensures Filed(Next(s, Completing(x, c)))
    ensures I.Completes(InboxOf(s, c), InboxOf(Next(s, Completing(x, c)), c), x)
  {
    assert x == TurnKey(own(c), x.turnId);
    CompletionInInbox(s, own, c, x.turnId);
  }

  lemma CompletableIsOwn(s: State, own: ConversationId -> UserId, c: ConversationId, x: TurnKey)
    requires Filed(s) && OwnedBy(s, own) && (I.Executes(InboxOf(s, c), x) || I.Has(InboxOf(s, c), x, Completed))
    ensures x == TurnKey(own(c), x.turnId) && CanComplete(s, x, c)
  {
  }

  lemma RunCons(s: State, call: Call, calls: seq<Call>)
    requires WellFormed(s)
    ensures WellFormed(Next(s, call)) && Run(s, [call] + calls) == Run(Next(s, call), calls)
  {
    NextWellFormed(s, call);
    assert ([call] + calls)[1..] == calls;
  }

  /** k is processing while j waits: completing k overtakes j. */
  lemma CompletingOvertakes(s: State, own: ConversationId -> UserId, c: ConversationId, j: TurnKey, k: TurnKey)
    returns (calls: seq<Call>)
    requires Reachable(s, own) && I.Has(InboxOf(s, c), k, Processing) && I.Waits(InboxOf(s, c), j)
    ensures Overtakes(s, own(c), c, calls, j, k)
  {
    var t := Next(s, Completing(k, c));
    CompletableCompletes(s, own, c, k);
    CompletedOvertook(InboxOf(s, c), InboxOf(t, c), j, k);
    assert Run(t, []) == t;
    assert Overtakes(t, own(c), c, [], j, k);
    OvertakesCons(s, own(c), c, Completing(k, c), [], j, k);
    calls := [Completing(k, c)] + [];
  }

  ghost predicate Hands(b: I.Inbox, x: TurnKey, j: TurnKey, k: TurnKey) {
    && !b.leased && Rivals(b, j, k) && x != j && x != k
    && (I.Executes(b, x) || I.Has(b, x, Completed))
    && forall p :: I.Has(b, p, Processing) ==> p == x
  }

  lemma NextHands(d: I.Inbox, j: TurnKey, k: TurnKey) returns (n: TurnKey)
    requires I.Exclusive(d) && !d.leased
    requires exists n :: I.Has(d, n, Processing) && n != j && n != k && Rivals(d, j, k)
    ensures Hands(d, n, j, k)
  {
    n :| I.Has(d, n, Processing) && n != j && n != k && Rivals(d, j, k);
  }

  lemma StepHands(s: State, own: ConversationId -> UserId, c: ConversationId, x: TurnKey, j: TurnKey, k: TurnKey)
    requires Reachable(s, own) && Hands(InboxOf(s, c), x, j, k)
    ensures var t := Next(s, Completing(x, c));
            && x.owner == own(c) && Reachable(t, own) && I.Waits(InboxOf(t, c), j) && !InboxOf(t, c).leased
            && (|| I.Has(InboxOf(t, c), k, Processing)
                || exists n :: I.Has(InboxOf(t, c), n, Processing) && n != j && n != k && Rivals(InboxOf(t, c), j, k))
            && |WaitingIn(InboxOf(t, c))| < |WaitingIn(InboxOf(s, c))|
  {
    CompletableCompletes(s, own, c, x);
    var b, d := InboxOf(s, c), InboxOf(Next(s, Completing(x, c)), c);
    HandsOverToAnother(b, d, x, j, k);
    SmallerSet(WaitingIn(d), WaitingIn(b));
  }

  /** Completing one turn after the other reaches k before j. */
  lemma {:induction false} OvertakesAfter(
    s: State, own: ConversationId -> UserId, c: ConversationId, x: TurnKey, j: TurnKey, k: TurnKey) returns (calls: seq<Call>)
    requires Reachable(s, own) && Hands(InboxOf(s, c), x, j, k)
    ensures Overtakes(s, own(c), c, calls, j, k)
    decreases |WaitingIn(InboxOf(s, c))|
  {
    var t := Next(s, Completing(x, c));
    StepHands(s, own, c, x, j, k);
    var rest: seq<Call>;
    if I.Has(InboxOf(t, c), k, Processing) {
      rest := CompletingOvertakes(t, own, c, j, k);
    } else {
      var n := NextHands(InboxOf(t, c), j, k);
      rest := OvertakesAfter(t, own, c, n, j, k);
    }
    calls := [Completing(x, c)] + rest;
    OvertakesCons(s, own(c), c, Completing(x, c), rest, j, k);
  }

  lemma SmallerSet(a: set<TurnKey>, b: set<TurnKey>)
    requires a < b
    ensures |a| < |b|
  {
    assert b == a + (b - a);
    assert |b| == |a| + |b - a|;
  }

  /** Some other turn can be completed, and it is the one processing if there is one. */
  lemma Completable(b: I.Inbox, j: TurnKey, k: TurnKey) returns (x: TurnKey)
    requires I.Exclusive(b) && !b.leased && Competes(b, j) && Competes(b, k) && Rivals(b, j, k)
    ensures Hands(b, x, j, k)
  {
    if exists p :: I.Has(b, p, Processing) {
      x :| I.Has(b, x, Processing);
    } else if Started(b) {
      x :| x in b.turns && !I.Waits(b, x);
      assert I.Active(b, x) || I.Has(b, x, Completed);
    } else {
      assert I.Has(b, j, Queued) && I.Has(b, k, Queued);
      x :| I.Executes(b, x);
    }
  }

  // ---------------------------------------------------------------- the exact condition

  /** The waiting turns that a completing call may pass over: all of them once some turn of the conversation is past
      waiting, and only the queued ones before. */
  function Contenders(s: State, owner: UserId, c: ConversationId): set<TurnKey> {
    if exists x :: x in s.turns && InConversation(s, owner, c, x) && !IsWaiting(s.turns[x].status) then Waiting(s, owner, c)
    else set k | k in s.turns && InConversation(s, owner, c, k) && s.turns[k].status == Queued
  }

  /** (created_at, turn_id) grows with arrival among these turns. */
  ghost predicate KeysGrow(s: State, ks: set<TurnKey>)
    requires Filed(s) && ks <= s.turns.Keys
  {
    forall j, k :: j in ks && k in ks && s.order[j] < s.order[k] ==> CreatedNoLater(s.turns[j], s.turns[k])
  }

  /** Of the turns that wait in s, t completed none before those that arrived earlier. */
  ghost predicate CompletedInOrder(s: State, t: State, owner: UserId, c: ConversationId)
    requires Filed(s)
  {
    forall j, k :: && j in Waiting(s, owner, c) && k in Waiting(s, owner, c) && s.order[j] < s.order[k]
                   && k in t.turns && t.turns[k].status == Completed
                   ==> j in t.turns && t.turns[j].status == Completed
  }

  lemma ContendersCompete(s: State, own: ConversationId -> UserId, c: ConversationId)
    requires Filed(s) && OwnedBy(s, own)
    ensures forall k :: k in Contenders(s, own(c), c) <==> Competes(InboxOf(s, c), k)
  {
    var b := InboxOf(s, c);
    InboxShows(s, own, c);
    if Started(b) {
      var x :| x in b.turns && !I.Waits(b, x);
      assert InConversation(s, own(c), c, x) && !IsWaiting(s.turns[x].status);
    } else {
      forall x | x in s.turns && InConversation(s, own(c), c, x) ensures IsWaiting(s.turns[x].status) {
        assert x in b.turns;
        assert I.Waits(b, x);
      }
    }
  }

  lemma KeysShow(s: State, own: ConversationId -> UserId, c: ConversationId)
    requires Filed(s) && OwnedBy(s, own)
    ensures KeysGrow(s, Contenders(s, own(c), c)) <==> KeysFollowArrival(InboxOf(s, c))
  {
    var b, ks := InboxOf(s, c), Contenders(s, own(c), c);
    ContendersCompete(s, own, c);
    assert forall k :: k in ks ==> k in b.turns && b.turns[k].arrival == s.order[k];
    assert forall j, k :: j in ks && k in ks ==> (I.CreatedNoLater(b, j, k) <==> CreatedNoLater(s.turns[j], s.turns[k]));
  }

  lemma OrderShows(s: State, t: State, own: ConversationId -> UserId, c: ConversationId)
    requires Filed(s) && OwnedBy(s, own) && Filed(t)
    requires Advanced(InboxOf(s, c), InboxOf(t, c)) && TakenUpInOrder(InboxOf(s, c), InboxOf(t, c))
    ensures CompletedInOrder(s, t, own(c), c)
  {
    InboxShows(s, own, c);
    var b, d := InboxOf(s, c), InboxOf(t, c);
    forall j, k | && j in Waiting(s, own(c), c) && k in Waiting(s, own(c), c) && s.order[j] < s.order[k]
                  && k in t.turns && t.turns[k].status == Completed
      ensures j in t.turns && t.turns[j].status == Completed
    {
      assert Precedes(b, j, k) && k in d.turns && TakenUp(d, k);
      assert I.Has(d, j, Completed);
    }
  }

  lemma StartIsKept(b: I.Inbox)
    requires !b.leased
    ensures Kept(b, b)
  {
  }

  lemma GrowingKeysKeepOrder(s: State, calls: seq<Call>, own: ConversationId -> UserId, c: ConversationId)
    requires Reachable(s, own) && CompletionsOnly(calls, own(c), c)
    requires c !in s.leases && KeysGrow(s, Contenders(s, own(c), c))
    ensures Filed(Run(s, calls)) && Kept(InboxOf(s, c), InboxOf(Run(s, calls), c))
  {
    ReachableIsSound(s, own, c);
    KeysShow(s, own, c);
    StartIsKept(InboxOf(s, c));
    RunStaysInOrder(InboxOf(s, c), s, calls, own, c);
  }

  lemma InOrderIfKeysGrow(s: State, calls: seq<Call>, own: ConversationId -> UserId, c: ConversationId)
    requires Reachable(s, own) && CompletionsOnly(calls, own(c), c)
    requires c in s.leases || KeysGrow(s, Contenders(s, own(c), c))
    ensures CompletedInOrder(s, Run(s, calls), own(c), c)
  {
    if c in s.leases {
      LeasedRunStays(s, calls, own, c);
    } else {
      GrowingKeysKeepOrder(s, calls, own, c);
    }
    OrderShows(s, Run(s, calls), own, c);
  }

  lemma SomeRivals(b: I.Inbox) returns (j: TurnKey, k: TurnKey)
    requires OneOwner(b) && !KeysFollowArrival(b)
    ensures Competes(b, j) && Competes(b, k) && Rivals(b, j, k) && Precedes(b, j, k)
  {
    j, k :| Competes(b, j) && Competes(b, k) && b.turns[j].arrival < b.turns[k].arrival && !I.CreatedNoLater(b, j, k);
  }

  lemma WrongKeysOvertake(s: State, own: ConversationId -> UserId, c: ConversationId) returns (calls: seq<Call>)
    requires Reachable(s, own) && c !in s.leases && !KeysGrow(s, Contenders(s, own(c), c))
    ensures CompletionsOnly(calls, own(c), c) && !CompletedInOrder(s, Run(s, calls), own(c), c)
  {
    var b := InboxOf(s, c);
    KeysShow(s, own, c);
    ReachableIsSound(s, own, c);
    var j, k := SomeRivals(b);
    var x := Completable(b, j, k);
    calls := OvertakesAfter(s, own, c, x, j, k);
    OvertookShows(s, Run(s, calls), own, c, j, k);
  }

  lemma OvertookShows(s: State, t: State, own: ConversationId -> UserId, c: ConversationId, j: TurnKey, k: TurnKey)
    requires Filed(s) && OwnedBy(s, own) && Filed(t) && Precedes(InboxOf(s, c), j, k) && Overtook(InboxOf(t, c), j, k)
    ensures !CompletedInOrder(s, t, own(c), c)
  {
    InboxShows(s, own, c);
    assert j in Waiting(s, own(c), c) && k in Waiting(s, own(c), c) && s.order[j] < s.order[k];
  }

  /** complete_turn_and_claim_next promises the order of the inbox. After any legal history: every series of completing
      calls, all of which are legal, completes the waiting turns in the order they arrived if and only if the conversation
      is leased, so that nothing is handed over, or (created_at, turn_id) grows with arrival among the turns it may pass
      over. */
  lemma CompletionsFollowInboxIff(history: seq<Call>, own: ConversationId -> UserId, c: ConversationId)
    requires WellFormed(EMPTY) && LegalRun(EMPTY, history, own)
    ensures var s := Run(EMPTY, history);
            && WellFormed(s)
            && (forall calls :: CompletionsOnly(calls, own(c), c) ==> LegalRun(s, calls, own))
            && ((forall calls :: CompletionsOnly(calls, own(c), c) ==> CompletedInOrder(s, Run(s, calls), own(c), c))
                <==> c in s.leases || KeysGrow(s, Contenders(s, own(c), c)))
  {
    EmptyIsReachable(own);
    RunStaysReachable(EMPTY, history, own);
    var s := Run(EMPTY, history);
    forall calls | CompletionsOnly(calls, own(c), c) ensures LegalRun(s, calls, own) { CompletionsAreLegal(s, calls, own, c); }
    if c in s.leases || KeysGrow(s, Contenders(s, own(c), c)) {
      forall calls | CompletionsOnly(calls, own(c), c) ensures CompletedInOrder(s, Run(s, calls), own(c), c) {
        InOrderIfKeysGrow(s, calls, own, c);
      }
    } else {
      var calls := WrongKeysOvertake(s, own, c);
      assert CompletionsOnly(calls, own(c), c) && !CompletedInOrder(s, Run(s, calls), own(c), c);
    }
  }

  /** One completing call that hands over claims the turn that a release or claim_next_turn would, the first to arrive,
      if and only if no other candidate was created before that turn. */
  lemma HandOverFollowsInboxIff(s: State, k: TurnKey, c: ConversationId)
    requires Filed(s) && DistinctArrivals(s) && CanComplete(s, k, c) && Successors(s, k, c) != {}
    ensures var ks := Successors(s, k, c);
            var claimed := Complete(s, k.owner, c, k.turnId).value.claimed;
            && claimed.Some? && ks <= s.order.Keys
            && (TurnKey(k.owner, claimed.value.turnId) == PickArrived(s, ks)
                <==> forall j :: j in ks ==> CreatedNoLater(s.turns[PickArrived(s, ks)], s.turns[j]))
  {
    var ks, after := Successors(s, k, c), WithStatus(s, k, Completed);
    var n, f := PickCreated(after, ks), PickArrived(s, ks);
    assert k == TurnKey(k.owner, k.turnId);
    assert n.owner == k.owner && f.owner == k.owner && after.turns[n].turnId == n.turnId;
    assert forall j :: j in ks ==> j != k && after.turns[j] == s.turns[j];
    if forall j :: j in ks ==> CreatedNoLater(s.turns[f], s.turns[j]) {
      assert CreatedNoLater(s.turns[f], s.turns[n]) && CreatedNoLater(s.turns[n], s.turns[f]);
      assert n == f;
    }
  }
}
