/** Who holds a compaction lease, told on the stored fields: when each call changes it, that an unexpired lease stays with its
    worker over every run, and that what the calls answer is what they stored. */
module CompactionLeases {
  import opened Common
  import opened CompactionState
  import opened CompactionRuns
  import T = CompactionTheorems

  /** Nothing keeps the caller from a lease: it asks for time ahead, nobody else owns the conversation's lease, the present
      one ran out, and none of the owner's turns is processing. */
  predicate MayAcquire(s: State, c: Call) {
    && c.AcquireCall? && c.now < c.expiresAt
    && (c.conversation in s.leases ==>
          s.leases[c.conversation].owner == c.owner && s.leases[c.conversation].lease.expiresAt <= c.now)
    && forall k :: k in s.turns && k.owner == c.owner && s.turns[k].conversation == c.conversation ==>
         s.turns[k].status != Processing
  }

  predicate Finishes(c: Call) { c.FinishCall? || c.FinishEventCall? }

  /** The call names the lease as it is held: its owner, worker and token. */
  predicate Names(c: Call, held: HeldLease)
    requires Finishes(c)
  {
    held.owner == c.owner && held.lease.worker == c.worker && held.lease.token == c.token
  }

  /** The guards of a finishing call. */
  predicate MayFinish(s: State, c: Call) {
    && Finishes(c)
    && (if c.claimNext then c.retryNotBefore.None? else c.retryNotBefore.Some? && c.now < c.retryNotBefore.value)
    && c.conversation in s.leases && Names(c, s.leases[c.conversation]) && c.now < s.leases[c.conversation].lease.expiresAt
    && (c.claimNext ==> forall k :: k in s.turns && k.owner == c.owner && s.turns[k].conversation == c.conversation ==>
                          s.turns[k].status != Processing)
    && (c.FinishEventCall? ==>
          && c.kind != OtherKind && c.eventId !in s.eventIds
          && forall e :: e in s.events && s.events[e].conversation == c.conversation ==> e.owner == c.owner)
  }

  function Asked(c: Call): HeldLease
    requires c.AcquireCall?
  {
    HeldLease(c.owner, Lease(c.conversation, c.worker, c.token, c.expiresAt))
  }

  /** The leases once a finishing call passed its guards: dropped, or postponed under the same token. */
  function LeasesFinished(s: State, c: Call): map<ConversationId, HeldLease>
    requires MayFinish(s, c)
  {
    if c.claimNext then s.leases - {c.conversation}
    else s.leases[c.conversation := HeldLease(c.owner, Lease(c.conversation, c.worker, c.token, c.retryNotBefore.value))]
  }

  lemma NoneProcesses(s: State, owner: UserId, conversation: ConversationId)
    ensures AnyProcessing(s, owner, conversation)
            <==> exists k :: k in s.turns && k.owner == owner && s.turns[k].conversation == conversation
                             && s.turns[k].status == Processing
  {
    if k :| k in s.turns && k.owner == owner && s.turns[k].conversation == conversation && s.turns[k].status == Processing {
      assert InConversation(s, owner, conversation, k);
    }
  }

  /** acquire_compaction_lease answers a lease exactly when nothing keeps the caller from it, and then stores that lease, the
      caller's own under its token until the time asked for, and sends the accepted turns back to queued. It raises exactly on
      a time that is over and on another owner's lease, and changes nothing unless it answers a lease. */
  lemma AcquireGrantsIff(s: State, c: Call)
    requires c.AcquireCall?
    ensures var r := Acquire(s, c.owner, c.conversation, c.worker, c.token, c.now, c.expiresAt);
            var after := StateAfter(s, r);
            && (r.Done? && r.value.Some? <==> MayAcquire(s, c))
            && (MayAcquire(s, c) ==>
                  && HeldLease(c.owner, r.value.value) == Asked(c)
                  && after.leases == s.leases[c.conversation := Asked(c)] && after.turns.Keys == s.turns.Keys
                  && (forall k :: k in s.turns ==>
                        after.turns[k] == if k.owner == c.owner && s.turns[k].conversation == c.conversation
                                             && s.turns[k].status == Accepted
                                          then s.turns[k].(status := Queued) else s.turns[k])
                  && after == s.(turns := after.turns, leases := after.leases, issued := s.issued + {c.token}))
            && (!MayAcquire(s, c) ==> after == s)
            && (r.Raised? <==>
                  || c.expiresAt <= c.now
                  || (c.conversation in s.leases && s.leases[c.conversation].owner != c.owner))
  {
    NoneProcesses(s, c.owner, c.conversation);
  }

  lemma FinishLeases(s: State, c: Call)
    requires WellFormed(s) && c.FinishCall?
    ensures if MayFinish(s, c) then Next(s, c).leases == LeasesFinished(s, c) else Next(s, c) == s
  {
    NoneProcesses(s, c.owner, c.conversation);
    if MayFinish(s, c) && c.claimNext { T.ReleaseKeepsOtherLeases(s, c.owner, c.conversation); }
  }

  lemma FinishEventLeases(s: State, c: Call)
    requires WellFormed(s) && c.FinishEventCall?
    ensures if MayFinish(s, c) then Next(s, c).leases == LeasesFinished(s, c) else Next(s, c) == s
  {
    NoneProcesses(s, c.owner, c.conversation);
    var r := FinishWithEvent(s, c.owner, c.conversation, c.worker, c.token, c.now, c.claimNext, c.retryNotBefore,
                             c.runId, c.kind, c.eventId);
    if r.Done? {
      LoggingIsLocal(s, c.owner, c.conversation, r.value.event);
      if c.claimNext { T.ReleaseKeepsOtherLeases(Logged(s, c.owner, r.value.event), c.owner, c.conversation); }
    }
  }

  lemma CompletingKeepsLeases(s: State, c: Call)
    requires c.CompleteCall? && WellFormed(s)
    ensures Next(s, c).leases == s.leases
  {
  }

  /** Every call's effect on the leases: acquiring and finishing change the lease of their conversation as their guards and
      arguments say, and nothing else changes any. */
  lemma LeasesAfter(s: State, c: Call)
    requires WellFormed(s)
    ensures Next(s, c).leases == if MayAcquire(s, c) then s.leases[c.conversation := Asked(c)]
                                 else if MayFinish(s, c) then LeasesFinished(s, c)
                                 else s.leases
  {
    match c {
      case AcquireCall(_, _, _, _, _, _) => AcquireGrantsIff(s, c);
      case EnqueueCall(_, _) =>
      case ClaimCall(_, _) =>
      case CompleteCall(_, _, _) => CompletingKeepsLeases(s, c);
      case FinishCall(_, _, _, _, _, _, _) => FinishLeases(s, c);
      case FinishEventCall(_, _, _, _, _, _, _, _, _, _) => FinishEventLeases(s, c);
    }
  }

  // ---------------------------------------------------------------- over every run

  /** No call of the run asks for the conversation's lease at `end` or later. */
  predicate AskedBefore(calls: seq<Call>, conversation: ConversationId, end: Time) {
    forall c :: c in calls && c.AcquireCall? && c.conversation == conversation ==> c.now < end
  }

  /** The call gives up or postpones the lease under its own token. */
  ghost predicate GivesUp(s: State, c: Call, conversation: ConversationId, held: HeldLease)
    requires WellFormed(s)
  {
    Finishes(c) && c.conversation == conversation && Names(c, held) && c.now < held.lease.expiresAt && Next(s, c) != s
  }

  ghost predicate GivenUpAt(s: State, calls: seq<Call>, conversation: ConversationId, held: HeldLease, k: nat)
    requires WellFormed(s)
  {
    k < |calls| && WellFormed(Run(s, calls[..k])) && GivesUp(Run(s, calls[..k]), calls[k], conversation, held)
  }

  lemma GivenUpLater(s: State, calls: seq<Call>, conversation: ConversationId, held: HeldLease, k: nat)
    requires WellFormed(s) && calls != [] && WellFormed(Next(s, calls[0]))
    requires GivenUpAt(Next(s, calls[0]), calls[1..], conversation, held, k)
    ensures GivenUpAt(s, calls, conversation, held, k + 1)
  {
    assert calls[..k + 1][0] == calls[0] && calls[..k + 1][1..] == calls[1..][..k];
    assert Run(s, calls[..k + 1]) == Run(Next(s, calls[0]), calls[1..][..k]);
  }

  /** Over every run a lease stays exactly as it is until it expires, unless its worker gives it up or postpones it under its
      token. */
  lemma {:induction false} LeaseStaysUntil(s: State, calls: seq<Call>, conversation: ConversationId)
    requires WellFormed(s) && conversation in s.leases
    requires AskedBefore(calls, conversation, s.leases[conversation].lease.expiresAt)
    ensures WellFormed(Run(s, calls))
    ensures || (conversation in Run(s, calls).leases && Run(s, calls).leases[conversation] == s.leases[conversation])
            || exists k :: GivenUpAt(s, calls, conversation, s.leases[conversation], k)
    decreases |calls|
  {
    if calls != [] {
      var held, t := s.leases[conversation], Next(s, calls[0]);
      NextWellFormed(s, calls[0]);
      LeasesAfter(s, calls[0]);
      assert calls[0] in calls;
      if conversation in t.leases && t.leases[conversation] == held {
        LeaseStaysUntil(t, calls[1..], conversation);
        if k: nat :| GivenUpAt(t, calls[1..], conversation, held, k) { GivenUpLater(s, calls, conversation, held, k); }
      } else {
        assert calls[..0] == [];
        assert GivenUpAt(s, calls, conversation, held, 0);
        RunIsWellFormed(t, calls[1..]);
      }
    }
  }

  lemma {:induction false} RunIsWellFormed(s: State, calls: seq<Call>)
    requires WellFormed(s)
    ensures WellFormed(Run(s, calls))
    decreases |calls|
  {
    if calls != [] {
      NextWellFormed(s, calls[0]);
      RunIsWellFormed(Next(s, calls[0]), calls[1..]);
    }
  }

  /** The call puts a lease on its conversation. */
  ghost predicate Grants(s: State, c: Call)
    requires WellFormed(s)
  {
    c.AcquireCall? && c.conversation in Next(s, c).leases && Next(s, c).leases[c.conversation].lease.token == c.token
  }

  lemma GrantStores(s: State, c: Call, own: ConversationId -> UserId)
    requires WellFormed(s) && Legal(s, c, own) && c.AcquireCall?
    ensures Grants(s, c) <==> MayAcquire(s, c)
    ensures Grants(s, c) ==> Next(s, c).leases[c.conversation] == Asked(c)
  {
    LeasesAfter(s, c);
  }

  /** No two unexpired leases: between the grant of a lease and any later grant for the conversation that comes before the
      first one's expiry, the first worker gave its lease up or postponed it, under its own token and in time. */
  lemma UnexpiredLeaseIsExclusive(s: State, first: Call, between: seq<Call>, second: Call, own: ConversationId -> UserId)
    requires WellFormed(s) && Legal(s, first, own) && Grants(s, first) && WellFormed(Next(s, first))
    requires AskedBefore(between, first.conversation, first.expiresAt)
    requires WellFormed(Run(Next(s, first), between)) && Legal(Run(Next(s, first), between), second, own)
    requires Grants(Run(Next(s, first), between), second)
    requires second.conversation == first.conversation && second.now < first.expiresAt
    ensures exists k :: GivenUpAt(Next(s, first), between, first.conversation, Asked(first), k)
  {
    GrantStores(s, first, own);
    LeaseStaysUntil(Next(s, first), between, first.conversation);
    GrantStores(Run(Next(s, first), between), second, own);
  }

  // ---------------------------------------------------------------- answers

  /** The answered turn was waiting in the owner's conversation, and is now stored as processing; no other turn differs. */
  predicate Starts(s: State, t: State, owner: UserId, conversation: ConversationId, turn: Turn) {
    var k := TurnKey(owner, turn.turnId);
    && k in s.turns && s.turns[k].conversation == conversation
    && (s.turns[k].status == Accepted || s.turns[k].status == Queued)
    && turn == s.turns[k].(status := Processing) && t.turns == s.turns[k := turn]
  }

  predicate Unchanged(s: State, t: State, turn: Option<Turn>) { turn.None? ==> t.turns == s.turns }

  /** A claim answers None and changes nothing under a lease, behind a processing turn, and when nothing waits; otherwise it
      starts the turn it answers. */
  lemma ClaimAnswers(s: State, owner: UserId, conversation: ConversationId)
    requires WellFormed(s)
    ensures var r := ClaimNext(s, owner, conversation);
            && r.Done?
            && (r.value.None? <==> conversation in s.leases || AnyProcessing(s, owner, conversation)
                                   || Waiting(s, owner, conversation) == {})
            && (r.value.None? ==> r.state == s)
            && (r.value.Some? ==> Starts(s, r.state, owner, conversation, r.value.value)
                                  && FirstArrived(s, Waiting(s, owner, conversation), TurnKey(owner, r.value.value.turnId)))
  {
  }

  /** A releasing finish answers the turn it starts, the first to arrive of those waiting. */
  lemma FinishAnswers(s: State, c: Call)
    requires WellFormed(s) && c.FinishCall?
    ensures var r := Finish(s, c.owner, c.conversation, c.worker, c.token, c.now, c.claimNext, c.retryNotBefore);
            var ks := Waiting(s, c.owner, c.conversation);
            && (r.Done? <==> MayFinish(s, c))
            && (r.Done? ==>
                  && (r.value.Some? <==> c.claimNext && ks != {})
                  && Unchanged(s, r.state, r.value)
                  && (r.value.Some? ==> Starts(s, r.state, c.owner, c.conversation, r.value.value)
                                        && FirstArrived(s, ks, TurnKey(c.owner, r.value.value.turnId))))
  {
    NoneProcesses(s, c.owner, c.conversation);
    if MayFinish(s, c) && c.claimNext { ReleaseAnswers(s, c.owner, c.conversation); }
  }

  lemma ReleaseAnswers(s: State, owner: UserId, conversation: ConversationId)
    requires WellFormed(s)
    ensures var (after, claimed) := ReleaseAndClaim(s, owner, conversation);
            var ks := Waiting(s, owner, conversation);
            && (claimed.Some? <==> ks != {})
            && Unchanged(s, after, claimed)
            && (claimed.Some? ==> Starts(s, after, owner, conversation, claimed.value)
                                  && FirstArrived(s, ks, TurnKey(owner, claimed.value.turnId)))
  {
    var ks := Waiting(s, owner, conversation);
    if ks != {} {
      var k := PickArrived(s, ks);
      assert k == TurnKey(owner, s.turns[k].turnId);
    }
  }

  /** A completing call answers the turn as it is stored, completed, and the successor that it starts. */
  lemma CompletionAnswers(s: State, owner: UserId, conversation: ConversationId, turnId: TurnId)
    requires WellFormed(s)
    ensures var k, r := TurnKey(owner, turnId), Complete(s, owner, conversation, turnId);
            && (r.Done? <==>
                  && k in s.turns && s.turns[k].conversation == conversation
                  && s.turns[k].status in {Accepted, Processing, CompactionState.Completed})
            && (r == Raised(TurnMissing) <==> k !in s.turns || s.turns[k].conversation != conversation)
            && (r.Done? ==>
                  var done := s.(turns := s.turns[k := s.turns[k].(status := CompactionState.Completed)]);
                  && r.value.completed == done.turns[k] && r.state.turns[k] == done.turns[k]
                  && Unchanged(done, r.state, r.value.claimed)
                  && (r.value.claimed.None? <==> conversation in s.leases || AnyProcessing(done, owner, conversation)
                                                 || Waiting(done, owner, conversation) == {})
                  && (r.value.claimed.Some? ==> Starts(done, r.state, owner, conversation, r.value.claimed.value)))
  {
    var k := TurnKey(owner, turnId);
    if CanComplete(s, k, conversation) && Successors(s, k, conversation) != {} {
      var after := WithStatus(s, k, CompactionState.Completed);
      var next := PickCreated(after, Successors(s, k, conversation));
      assert next == TurnKey(owner, after.turns[next].turnId) && next != k;
    }
  }

  /** Enqueueing refuses a turn that is not waiting, another owner's lease, and another owner's client input; a known client
      input is answered with the turn stored for it and changes nothing. A new turn goes to the end of the inbox, queued if a
      lease is held or one of the owner's turns executes and accepted otherwise. */
  lemma EnqueueAnswers(s: State, owner: UserId, turn: Turn)
    requires WellFormed(s)
    ensures var r := Enqueue(s, owner, turn);
            var input, k := InputKey(turn.conversation, turn.clientInput), TurnKey(owner, turn.turnId);
            var foreign := turn.conversation in s.leases && s.leases[turn.conversation].owner != owner;
            var waiting := turn.status == Accepted || turn.status == Queued;
            && (r.Done? <==> && waiting && !foreign
                             && (if input in s.inputs then s.inputs[input].owner == owner else turn.turnId !in s.turnIds))
            && (r == Raised(InvalidArgument) <==> !waiting)
            && (r == Raised(OwnerConflict) <==> waiting && foreign)
            && (r.Done? && input in s.inputs ==>
                  && r.state == s && r.value == s.turns[s.inputs[input]]
                  && r.value.conversation == turn.conversation && r.value.clientInput == turn.clientInput)
            && (r.Done? && input !in s.inputs ==>
                  && k !in s.turns && r.state.turns == s.turns[k := r.value] && r.state.order == s.order[k := s.nextSequence]
                  && (forall j :: j in s.order ==> s.order[j] < r.state.order[k])
                  && r.state.inputs == s.inputs[input := k] && r.state.leases == s.leases
                  && r.value == turn.(status := r.value.status)
                  && r.value.status == if turn.conversation in s.leases || AnyExecuting(s, owner, turn.conversation)
                                       then Queued else Accepted)
  {
  }

  lemma {:induction false} InputStays(s: State, calls: seq<Call>, input: InputKey)
    requires WellFormed(s) && input in s.inputs
    ensures WellFormed(Run(s, calls)) && input in Run(s, calls).inputs && Run(s, calls).inputs[input] == s.inputs[input]
    decreases |calls|
  {
    if calls != [] {
      NextWellFormed(s, calls[0]);
      if !calls[0].EnqueueCall? { CallIsLocal(s, calls[0]); }
      InputStays(Next(s, calls[0]), calls[1..], input);
    }
  }

  /** Enqueueing is idempotent per client input: once a turn was answered, then after any further run of calls by anybody,
      enqueueing a turn of the same client input answers that same turn as it stands by then, and changes nothing. */
  lemma EnqueueIsIdempotent(s: State, owner: UserId, first: Turn, calls: seq<Call>, again: Turn)
    requires WellFormed(s) && Enqueue(s, owner, first).Done?
    requires WellFormed(Enqueue(s, owner, first).state)
    requires again.conversation == first.conversation && again.clientInput == first.clientInput
    requires WellFormed(Run(Enqueue(s, owner, first).state, calls))
    requires Enqueue(Run(Enqueue(s, owner, first).state, calls), owner, again).Done?
    ensures var answered, t := Enqueue(s, owner, first).value, Run(Enqueue(s, owner, first).state, calls);
            var r := Enqueue(t, owner, again);
            var k := TurnKey(owner, answered.turnId);
            r.state == t && k in t.turns && r.value == t.turns[k]
  {
    EnqueueAnswers(s, owner, first);
    var after := Enqueue(s, owner, first).state;
    var input := InputKey(first.conversation, first.clientInput);
    InputStays(after, calls, input);
    EnqueueAnswers(Run(after, calls), owner, again);
    assert after.inputs[input] in after.turns;
  }
}
