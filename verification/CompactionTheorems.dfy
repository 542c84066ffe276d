/** Whole-run theorems about the compaction queue: first-in first-out, monotone statuses, fencing tokens, and the
    finishing call that also writes an event. */
module CompactionTheorems {
  import opened Common
  import opened CompactionState
  import opened CompactionRuns
  import I = Inbox

  /** A turn enters its conversation with a key above those of all turns still to be completed. */
  ghost predicate InOrder(s: State, c: Call)
    requires WellFormed(s)
  {
    c.EnqueueCall? && Next(s, c) != s ==>
      I.ArrivesInOrder(InboxOf(s, c.turn.conversation), TurnKey(c.owner, c.turn.turnId), c.turn.createdAt)
  }

  ghost predicate InOrderRun(s: State, calls: seq<Call>)
    requires WellFormed(s)
    decreases |calls|
  {
    calls == [] || (InOrder(s, calls[0]) && (NextWellFormed(s, calls[0]); InOrderRun(Next(s, calls[0]), calls[1..])))
  }

  ghost predicate AllFifo(s: State)
    requires Filed(s)
  {
    forall c :: I.Fifo(InboxOf(s, c))
  }

  lemma StepKeepsFifo(s: State, c: Call, own: ConversationId -> UserId)
    requires QueueInvariant(s, own) && Legal(s, c, own) && InOrder(s, c) && AllFifo(s)
    ensures Filed(Next(s, c)) && AllFifo(Next(s, c))
  {
    NextWellFormed(s, c);
    forall d ensures I.Fifo(InboxOf(Next(s, c), d)) {
      if d == c.Conversation() {
        CallMovesInbox(s, c, own);
        var b, e := InboxOf(s, d), InboxOf(Next(s, c), d);
        forall k | I.Arrives(b, e, k) ensures I.ArrivesInOrder(b, k, e.turns[k].createdAt) {
          ArrivalIsEnqueue(s, c, own, k);
        }
        I.MoveKeepsFifo(b, e);
      } else {
        OtherInboxesUntouched(s, c, d);
      }
    }
  }

  /** Only an enqueueing call adds a turn, and it adds the one it was given. */
  lemma ArrivalIsEnqueue(s: State, c: Call, own: ConversationId -> UserId, k: TurnKey)
    requires WellFormed(s) && OwnedBy(s, own) && Legal(s, c, own) && WellFormed(Next(s, c))
    requires I.Arrives(InboxOf(s, c.Conversation()), InboxOf(Next(s, c), c.Conversation()), k)
    ensures c.EnqueueCall? && Next(s, c) != s && k == TurnKey(c.owner, c.turn.turnId)
    ensures InboxOf(Next(s, c), c.turn.conversation).turns[k].createdAt == c.turn.createdAt
  {
    if c.EnqueueCall? {
      EnqueueMovesInbox(s, c, own);
    } else {
      CallIsLocal(s, c);
      assert false;
    }
  }

  lemma {:induction false} RunKeepsFifo(s: State, calls: seq<Call>, own: ConversationId -> UserId)
    requires QueueInvariant(s, own) && LegalRun(s, calls, own) && InOrderRun(s, calls) && AllFifo(s)
    ensures WellFormed(Run(s, calls)) && AllFifo(Run(s, calls))
    decreases |calls|
  {
    if calls != [] {
      StepKeepsFifo(s, calls[0], own);
      StepKeepsInvariant(s, calls[0], own);
      RunKeepsFifo(Next(s, calls[0]), calls[1..], own);
    }
  }

  /** First-in first-out over whole runs: when turns arrive in the order of (created_at, turn_id), every turn that
      arrived before a completed turn of the conversation is completed. */
  lemma RunIsFirstInFirstOut(calls: seq<Call>, own: ConversationId -> UserId, j: TurnKey, k: TurnKey)
    requires WellFormed(EMPTY) && LegalRun(EMPTY, calls, own) && InOrderRun(EMPTY, calls)
    ensures var s := Run(EMPTY, calls);
            && WellFormed(s)
            && ((&& j in s.turns && k in s.turns && s.turns[j].conversation == s.turns[k].conversation
                 && s.order[j] < s.order[k] && s.turns[k].status == Completed) ==>
                  s.turns[j].status == Completed)
  {
    EmptyRepository(own);
    RunKeepsFifo(EMPTY, calls, own);
    var s := Run(EMPTY, calls);
    if k in s.turns {
      var b := InboxOf(s, s.turns[k].conversation);
      assert I.Fifo(b);
      if j in b.turns && I.Has(b, k, Completed) && b.turns[j].arrival < b.turns[k].arrival {
        assert I.Has(b, j, Completed);
      }
    }
  }

  lemma StepKeepsContent(s: State, c: Call, k: TurnKey)
    requires WellFormed(s) && k in s.turns
    ensures var t := Next(s, c);
            k in t.turns && k in t.order && t.order[k] == s.order[k]
            && t.turns[k] == s.turns[k].(status := t.turns[k].status)
  {
    if !c.EnqueueCall? { CallIsLocal(s, c); }
  }

  lemma StepNeverGoesBack(s: State, c: Call, own: ConversationId -> UserId, k: TurnKey)
    requires QueueInvariant(s, own) && Legal(s, c, own) && k in s.turns
    ensures var t := Next(s, c); k in t.turns && I.Rank(s.turns[k].status) <= I.Rank(t.turns[k].status)
  {
    NextWellFormed(s, c);
    StepKeepsContent(s, c, k);
    var t, d := Next(s, c), s.turns[k].conversation;
    if d == c.Conversation() {
      CallMovesInbox(s, c, own);
      I.MoveNeverGoesBack(InboxOf(s, d), InboxOf(t, d), k);
    } else {
      OtherInboxesUntouched(s, c, d);
      assert InboxOf(t, d).turns[k].status == InboxOf(s, d).turns[k].status;
    }
  }

  /** Over every run a turn keeps its content and inbox place, and its status never moves backwards in
      accepted < queued < processing < completed. */
  lemma {:induction false} RunNeverGoesBack(s: State, calls: seq<Call>, own: ConversationId -> UserId, k: TurnKey)
    requires QueueInvariant(s, own) && LegalRun(s, calls, own) && k in s.turns
    ensures var t := Run(s, calls);
            && WellFormed(t) && k in t.turns && t.order[k] == s.order[k]
            && t.turns[k] == s.turns[k].(status := t.turns[k].status)
            && I.Rank(s.turns[k].status) <= I.Rank(t.turns[k].status)
    decreases |calls|
  {
    if calls != [] {
      StepKeepsContent(s, calls[0], k);
      StepNeverGoesBack(s, calls[0], own, k);
      StepKeepsInvariant(s, calls[0], own);
      RunNeverGoesBack(Next(s, calls[0]), calls[1..], own, k);
    }
  }

  // ---------------------------------------------------------------- fencing

  /** No two conversations are leased under one token. */
  ghost predicate TokensDistinct(s: State) {
    forall c, d :: c in s.leases && d in s.leases && s.leases[c].lease.token == s.leases[d].lease.token ==> c == d
  }

  /** The token was handed out and no lease carries it any more. */
  ghost predicate Retired(s: State, token: Token) {
    token in s.issued && forall c :: c in s.leases ==> s.leases[c].lease.token != token
  }

  predicate Carries(c: Call, token: Token) {
    (c.FinishCall? || c.FinishEventCall?) && c.token == token
  }

  /** No lease but one issued by Acquire under its fresh token is new. */
  ghost predicate TokensKept(s: State, t: State, c: Call) {
    && s.issued <= t.issued
    && forall d :: d in t.leases ==>
         || (d in s.leases && t.leases[d].lease.token == s.leases[d].lease.token)
         || (c.AcquireCall? && d == c.conversation && t.leases[d].lease.token == c.token)
  }

  lemma FinishKeepsTokens(s: State, c: Call)
    requires WellFormed(s) && c.FinishCall?
    ensures TokensKept(s, Next(s, c), c)
  {
  }

  lemma FinishEventKeepsTokens(s: State, c: Call)
    requires WellFormed(s) && c.FinishEventCall?
    ensures TokensKept(s, Next(s, c), c)
  {
  }

  lemma CompleteKeepsTokens(s: State, c: Call)
    requires WellFormed(s) && c.CompleteCall?
    ensures TokensKept(s, Next(s, c), c)
  {
  }

  lemma TokensComeFromAcquire(s: State, c: Call)
    requires WellFormed(s)
    ensures TokensKept(s, Next(s, c), c)
  {
    match c {
      case AcquireCall(_, _, _, _, _, _) =>
      case EnqueueCall(_, _) =>
      case ClaimCall(_, _) =>
      case CompleteCall(_, _, _) => CompleteKeepsTokens(s, c);
      case FinishCall(_, _, _, _, _, _, _) => FinishKeepsTokens(s, c);
      case FinishEventCall(_, _, _, _, _, _, _, _, _, _) => FinishEventKeepsTokens(s, c);
    }
  }

  lemma StepKeepsTokensDistinct(s: State, c: Call, own: ConversationId -> UserId)
    requires WellFormed(s) && TokensDistinct(s) && Legal(s, c, own)
    ensures TokensDistinct(Next(s, c))
  {
    TokensComeFromAcquire(s, c);
  }

  lemma StepKeepsRetired(s: State, c: Call, own: ConversationId -> UserId, token: Token)
    requires WellFormed(s) && Retired(s, token) && Legal(s, c, own)
    ensures Retired(Next(s, c), token)
  {
    TokensComeFromAcquire(s, c);
  }

  /** Taking a lease over retires the token it had. */
  lemma TakeoverRetires(s: State, c: Call, own: ConversationId -> UserId)
    requires WellFormed(s) && TokensDistinct(s) && Legal(s, c, own) && c.AcquireCall?
    requires c.conversation in s.leases && Next(s, c) != s
    ensures Retired(Next(s, c), s.leases[c.conversation].lease.token)
  {
  }

  predicate IsRelease(c: Call) { (c.FinishCall? || c.FinishEventCall?) && c.claimNext }

  lemma ReleaseKeepsOtherLeases(m: State, owner: UserId, conversation: ConversationId)
    requires Filed(m)
    ensures var t := ReleaseAndClaim(m, owner, conversation).0; t.leases == m.leases - {conversation} && t.issued == m.issued
  {
  }

  lemma ReleasedLeases(s: State, c: Call)
    requires WellFormed(s) && IsRelease(c) && Next(s, c) != s
    ensures HoldsLease(s, c.owner, c.conversation, c.worker, c.token, c.now)
    ensures Next(s, c).leases == s.leases - {c.conversation} && Next(s, c).issued == s.issued
  {
    if c.FinishCall? {
      ReleaseKeepsOtherLeases(s, c.owner, c.conversation);
    } else {
      FinishEventReleases(s, c);
    }
  }

  lemma FinishEventReleases(s: State, c: Call)
    requires WellFormed(s) && c.FinishEventCall? && c.claimNext && Next(s, c) != s
    ensures HoldsLease(s, c.owner, c.conversation, c.worker, c.token, c.now)
    ensures Next(s, c).leases == s.leases - {c.conversation} && Next(s, c).issued == s.issued
  {
    var r := FinishWithEvent(s, c.owner, c.conversation, c.worker, c.token, c.now, c.claimNext, c.retryNotBefore,
                             c.runId, c.kind, c.eventId);
    assert r.Done?;
    LoggingIsLocal(s, c.owner, c.conversation, r.value.event);
    ReleaseKeepsOtherLeases(Logged(s, c.owner, r.value.event), c.owner, c.conversation);
  }

  /** A finishing call that claims and succeeds retires the token it carries. */
  lemma ReleaseRetires(s: State, c: Call)
    requires WellFormed(s) && TokensDistinct(s) && IsRelease(c) && Next(s, c) != s
    ensures Retired(Next(s, c), c.token)
  {
    ReleasedLeases(s, c);
  }

  lemma RetiredTokenHasNoEffect(s: State, c: Call, token: Token)
    requires WellFormed(s) && Retired(s, token) && Carries(c, token)
    ensures Next(s, c) == s
  {
  }

  lemma {:induction false} RunStep(s: State, calls: seq<Call>, n: nat)
    requires WellFormed(s) && n < |calls|
    ensures WellFormed(Run(s, calls[..n])) && Run(s, calls[..n + 1]) == Next(Run(s, calls[..n]), calls[n])
    decreases n
  {
    NextWellFormed(s, calls[0]);
    if n == 0 {
      assert calls[..1] == [calls[0]];
    } else {
      assert calls[..n][0] == calls[0] && calls[..n][1..] == calls[1..][..n - 1];
      assert calls[..n + 1][0] == calls[0] && calls[..n + 1][1..] == calls[1..][..n];
      RunStep(Next(s, calls[0]), calls[1..], n - 1);
    }
  }

  lemma {:induction false} RetiredThroughout(
    s: State, calls: seq<Call>, own: ConversationId -> UserId, token: Token, n: nat)
    requires WellFormed(s) && LegalRun(s, calls, own) && Retired(s, token) && n <= |calls|
    ensures WellFormed(Run(s, calls[..n])) && Retired(Run(s, calls[..n]), token)
    decreases n
  {
    if n == 0 {
      assert calls[..n] == [];
    } else {
      NextWellFormed(s, calls[0]);
      StepKeepsRetired(s, calls[0], own, token);
      assert calls[..n][0] == calls[0] && calls[..n][1..] == calls[1..][..n - 1];
      RetiredThroughout(Next(s, calls[0]), calls[1..], own, token, n - 1);
    }
  }

  lemma RetiredTokenNeverActs(s: State, calls: seq<Call>, own: ConversationId -> UserId, token: Token, n: nat)
    requires WellFormed(s) && LegalRun(s, calls, own) && Retired(s, token)
    requires n < |calls| && Carries(calls[n], token)
    ensures WellFormed(Run(s, calls[..n])) && Run(s, calls[..n + 1]) == Run(s, calls[..n])
  {
    RetiredThroughout(s, calls, own, token, n);
    RunStep(s, calls, n);
    RetiredTokenHasNoEffect(Run(s, calls[..n]), calls[n], token);
  }

  /** The call takes over the lease that carries the token, or gives it up under the token. */
  ghost predicate Retires(s: State, c: Call, token: Token)
    requires WellFormed(s)
  {
    && Next(s, c) != s
    && (|| (c.AcquireCall? && c.conversation in s.leases && s.leases[c.conversation].lease.token == token)
        || (IsRelease(c) && c.token == token))
  }

  lemma RetiresToken(s: State, c: Call, own: ConversationId -> UserId, token: Token)
    requires WellFormed(s) && TokensDistinct(s) && Legal(s, c, own) && Retires(s, c, token)
    ensures Retired(Next(s, c), token)
  {
    if c.AcquireCall? { TakeoverRetires(s, c, own); } else { ReleaseRetires(s, c); }
  }

  lemma {:induction false} RunKeepsTokensDistinct(s: State, calls: seq<Call>, own: ConversationId -> UserId)
    requires WellFormed(s) && TokensDistinct(s) && LegalRun(s, calls, own)
    ensures WellFormed(Run(s, calls)) && TokensDistinct(Run(s, calls))
    decreases |calls|
  {
    if calls != [] {
      NextWellFormed(s, calls[0]);
      StepKeepsTokensDistinct(s, calls[0], own);
      RunKeepsTokensDistinct(Next(s, calls[0]), calls[1..], own);
    }
  }

  lemma FencedFrom(s: State, c: Call, calls: seq<Call>, own: ConversationId -> UserId, token: Token, n: nat)
    requires WellFormed(s) && TokensDistinct(s) && Legal(s, c, own) && Retires(s, c, token)
    requires WellFormed(Next(s, c)) && LegalRun(Next(s, c), calls, own) && n < |calls| && Carries(calls[n], token)
    ensures WellFormed(Run(Next(s, c), calls[..n]))
    ensures Run(Next(s, c), calls[..n + 1]) == Run(Next(s, c), calls[..n])
  {
    RetiresToken(s, c, own, token);
    RetiredTokenNeverActs(Next(s, c), calls, own, token, n);
  }

  /** Fencing: after any legal history from the empty repository, once a call takes over the lease that carries a token or
      gives it up, no later call that carries the token changes leases, turns or events. */
  lemma RetiredIsFencedOff(
    history: seq<Call>, c: Call, calls: seq<Call>, own: ConversationId -> UserId, token: Token, n: nat)
    requires WellFormed(EMPTY) && LegalRun(EMPTY, history, own) && WellFormed(Run(EMPTY, history))
    requires Legal(Run(EMPTY, history), c, own) && Retires(Run(EMPTY, history), c, token)
    requires WellFormed(Next(Run(EMPTY, history), c)) && LegalRun(Next(Run(EMPTY, history), c), calls, own)
    requires n < |calls| && Carries(calls[n], token)
    ensures var t := Next(Run(EMPTY, history), c);
            WellFormed(Run(t, calls[..n])) && Run(t, calls[..n + 1]) == Run(t, calls[..n])
  {
    RunKeepsTokensDistinct(EMPTY, history, own);
    FencedFrom(Run(EMPTY, history), c, calls, own, token, n);
  }

  /** How often a run releases some conversation under the token. */
  ghost function ReleaseCount(s: State, calls: seq<Call>, token: Token): nat
    requires WellFormed(s)
    decreases |calls|
  {
    if calls == [] then 0
    else
      NextWellFormed(s, calls[0]);
      (if IsRelease(calls[0]) && calls[0].token == token && Next(s, calls[0]) != s then 1 else 0)
      + ReleaseCount(Next(s, calls[0]), calls[1..], token)
  }

  lemma {:induction false} RetiredTokenReleasesNothing(
    s: State, calls: seq<Call>, own: ConversationId -> UserId, token: Token)
    requires WellFormed(s) && LegalRun(s, calls, own) && Retired(s, token)
    ensures ReleaseCount(s, calls, token) == 0
    decreases |calls|
  {
    if calls != [] {
      NextWellFormed(s, calls[0]);
      StepKeepsRetired(s, calls[0], own, token);
      if Carries(calls[0], token) { RetiredTokenHasNoEffect(s, calls[0], token); }
      RetiredTokenReleasesNothing(Next(s, calls[0]), calls[1..], own, token);
    }
  }

  /** Each token releases a conversation at most once, over every run. */
  lemma {:induction false} TokenReleasesAtMostOnce(
    s: State, calls: seq<Call>, own: ConversationId -> UserId, token: Token)
    requires WellFormed(s) && TokensDistinct(s) && LegalRun(s, calls, own)
    ensures ReleaseCount(s, calls, token) <= 1
    decreases |calls|
  {
    if calls != [] {
      NextWellFormed(s, calls[0]);
      StepKeepsTokensDistinct(s, calls[0], own);
      if IsRelease(calls[0]) && calls[0].token == token && Next(s, calls[0]) != s {
        ReleaseRetires(s, calls[0]);
        RetiredTokenReleasesNothing(Next(s, calls[0]), calls[1..], own, token);
      } else {
        TokenReleasesAtMostOnce(Next(s, calls[0]), calls[1..], own, token);
      }
    }
  }

  // ---------------------------------------------------------------- finishing with an event

  /** Releasing the lease does not depend on the events. */
  lemma ReleaseIgnoresEvents(s: State, owner: UserId, conversation: ConversationId, event: Event)
    requires WellFormed(s)
    ensures var logged := Logged(s, owner, event);
            && Filed(logged)
            && var r, l := ReleaseAndClaim(s, owner, conversation), ReleaseAndClaim(logged, owner, conversation);
               l.1 == r.1 && l.0 == r.0.(events := logged.events, eventIds := logged.eventIds)
  {
    var logged, ks := Logged(s, owner, event), Waiting(s, owner, conversation);
    assert Waiting(logged, owner, conversation) == ks;
    if ks != {} { assert PickArrived(logged, ks) == PickArrived(s, ks); }
  }

  /** finish_compaction_with_event is finish_compaction plus one event: it succeeds exactly when finish_compaction does
      and the event can be logged, leaves the same leases and turns and claims the same turn, and the event's sequence
      is one past the greatest of the conversation. */
  lemma FinishWithEventRefinesFinish(
    s: State, owner: UserId, conversation: ConversationId, worker: WorkerId, token: Token, now: Time,
    claimNext: bool, retry: Option<Time>, runId: RunId, kind: EventKind, eventId: EventId)
    requires WellFormed(s)
    ensures var f := Finish(s, owner, conversation, worker, token, now, claimNext, retry);
            var e := FinishWithEvent(s, owner, conversation, worker, token, now, claimNext, retry, runId, kind, eventId);
            && (e.Done? <==> f.Done? && kind != OtherKind && eventId !in s.eventIds
                             && forall x :: x in EventsOf(s, conversation) ==> x.owner == owner)
            && (e.Raised? ==> StateAfter(s, e) == s)
            && (e.Done? ==>
                  && e.value.claimed == f.value
                  && e.state.(events := s.events, eventIds := s.eventIds) == f.state
                  && EventKey(owner, eventId) !in s.events
                  && e.state.events == s.events[EventKey(owner, eventId) := e.value.event]
                  && e.value.event == Event(eventId, e.value.event.sequence, conversation, runId, now, kind)
                  && (forall x :: x in EventsOf(s, conversation) ==> s.events[x].sequence < e.value.event.sequence)
                  && (e.value.event.sequence == 1 ||
                        exists x :: x in EventsOf(s, conversation) && s.events[x].sequence + 1 == e.value.event.sequence))
  {
    var e := FinishWithEvent(s, owner, conversation, worker, token, now, claimNext, retry, runId, kind, eventId);
    if e.Done? && claimNext { ReleaseIgnoresEvents(s, owner, conversation, e.value.event); }
  }
}
