/** MemoryCompactionQueueRepository: the dictionaries, and the loops that read and rewrite them. Each method is one
    section under the repository's lock. */
module CompactionRepository {
  import opened Common
  import opened CompactionState

  class MemoryCompactionQueueRepository {
    var turns: map<TurnKey, Turn>
    var order: map<TurnKey, nat>
    var inputs: map<InputKey, TurnKey>
    var turnIds: set<TurnId>
    var nextSequence: nat
    var leases: map<ConversationId, HeldLease>
    var events: map<EventKey, Event>
    var eventIds: set<EventId>
    ghost var issued: set<Token>

    ghost function Contents(): State
      reads this
    {
      State(turns, order, inputs, turnIds, nextSequence, leases, events, eventIds, issued)
    }

    constructor ()
      ensures Contents() == EMPTY
    {
      turns, order, inputs, turnIds, nextSequence := map[], map[], map[], {}, 1;
      leases, events, eventIds, issued := map[], map[], {}, {};
    }

    /** Whether some turn of the owner's conversation has one of the given statuses. */
    method AnyWithStatus(owner: UserId, conversation: ConversationId, statuses: set<TurnStatus>) returns (found: bool)
      ensures found <==> exists k :: k in turns && InConversation(Contents(), owner, conversation, k)
                                     && turns[k].status in statuses
    {
      found := false;
      var rest := turns.Keys;
      while rest != {}
        invariant rest <= turns.Keys
        invariant found <==> exists k :: k in turns && k !in rest && InConversation(Contents(), owner, conversation, k)
                                         && turns[k].status in statuses
        decreases |rest|
      {
        var k :| k in rest;
        rest := rest - {k};
        if k.owner == owner && turns[k].conversation == conversation && turns[k].status in statuses {
          assert InConversation(Contents(), owner, conversation, k);
          found := true;
        }
      }
    }

    /** The waiting turns of the owner's conversation. */
    method CollectWaiting(owner: UserId, conversation: ConversationId) returns (ks: set<TurnKey>)
      ensures ks == Waiting(Contents(), owner, conversation)
    {
      ks := {};
      var rest := turns.Keys;
      while rest != {}
        invariant rest <= turns.Keys
        invariant ks == Waiting(Contents(), owner, conversation) - rest
        decreases |rest|
      {
        var k :| k in rest;
        rest := rest - {k};
        if k.owner == owner && turns[k].conversation == conversation && IsWaiting(turns[k].status) {
          ks := ks + {k};
        }
      }
    }

    /** First of the keys by inbox sequence. */
    method FirstByArrival(ks: set<TurnKey>) returns (first: TurnKey)
      requires WellFormed(Contents()) && ks <= turns.Keys && ks != {}
      ensures first == PickArrived(Contents(), ks)
    {
      first :| first in ks;
      var rest := ks - {first};
      while rest != {}
        invariant rest <= ks && first in ks - rest
        invariant FirstArrived(Contents(), ks - rest, first)
        decreases |rest|
      {
        var k :| k in rest;
        rest := rest - {k};
        if order[k] < order[first] { first := k; }
      }
      assert ks - rest == ks;
    }

    /** First of one owner's keys by (created_at, turn_id). */
    method FirstByCreation(ks: set<TurnKey>, owner: UserId) returns (first: TurnKey)
      requires WellFormed(Contents()) && ks <= turns.Keys && ks != {}
      requires forall k :: k in ks ==> k.owner == owner
      ensures first == PickCreated(Contents(), ks)
    {
      first :| first in ks;
      var rest := ks - {first};
      while rest != {}
        invariant rest <= ks && first in ks - rest
        invariant FirstCreated(Contents(), ks - rest, first)
        decreases |rest|
      {
        var k :| k in rest;
        rest := rest - {k};
        if turns[k].createdAt < turns[first].createdAt
           || (turns[k].createdAt == turns[first].createdAt && turns[k].turnId < turns[first].turnId) {
          first := k;
        }
      }
      assert ks - rest == ks;
      var pick := PickCreated(Contents(), ks);
      assert CreatedNoLater(turns[first], turns[pick]) && CreatedNoLater(turns[pick], turns[first]);
    }

    method DemoteAccepted(owner: UserId, conversation: ConversationId)
      modifies this`turns
      ensures turns == Demoted(old(Contents()), owner, conversation)
    {
      ghost var before := Contents();
      var rest := turns.Keys;
      while rest != {}
        invariant rest <= turns.Keys == before.turns.Keys
        invariant forall k :: k in turns ==>
          turns[k] == if k in rest then before.turns[k] else Demoted(before, owner, conversation)[k]
        decreases |rest|
      {
        var k :| k in rest;
        rest := rest - {k};
        if k.owner == owner && turns[k].conversation == conversation && turns[k].status == Accepted {
          turns := turns[k := turns[k].(status := Queued)];
        }
      }
    }

    method AcquireCompactionLease(
      owner: UserId, conversation: ConversationId, worker: WorkerId, token: Token, now: Time, expiresAt: Time)
      returns (r: Attempt<Option<Lease>, Error>)
      requires WellFormed(Contents()) && token !in issued
      modifies this
      ensures var spec := Acquire(old(Contents()), owner, conversation, worker, token, now, expiresAt);
              r == AttemptOf(spec) && Contents() == StateAfter(old(Contents()), spec)
    {
      if expiresAt <= now { return Refused(InvalidArgument); }
      if conversation in leases {
        if leases[conversation].owner != owner { return Refused(OwnerConflict); }
        if leases[conversation].lease.expiresAt > now { return Returned(None); }
      }
      var processing := AnyWithStatus(owner, conversation, {Processing});
      if processing { return Returned(None); }
      DemoteAccepted(owner, conversation);
      var lease := Lease(conversation, worker, token, expiresAt);
      leases := leases[conversation := HeldLease(owner, lease)];
      issued := issued + {token};
      return Returned(Some(lease));
    }

    /** The base class's create_turn. */
    method StoreTurn(owner: UserId, turn: Turn) returns (r: Attempt<Turn, Error>)
      modifies this
      ensures var spec := CreateTurn(old(Contents()), owner, turn);
              r == AttemptOf(spec) && Contents() == StateAfter(old(Contents()), spec)
    {
      var input := InputKey(turn.conversation, turn.clientInput);
      if turn.turnId in turnIds || input in inputs { return Refused(RecordConflict); }
      var k := TurnKey(owner, turn.turnId);
      turnIds := turnIds + {turn.turnId};
      inputs := inputs[input := k];
      turns := turns[k := turn];
      order := order[k := nextSequence];
      nextSequence := nextSequence + 1;
      return Returned(turn);
    }

    method EnqueueTurnForExecution(owner: UserId, turn: Turn) returns (r: Attempt<Turn, Error>)
      requires WellFormed(Contents())
      modifies this
      ensures var spec := Enqueue(old(Contents()), owner, turn);
              r == AttemptOf(spec) && Contents() == StateAfter(old(Contents()), spec)
    {
      if !IsWaiting(turn.status) { return Refused(InvalidArgument); }
      var leased := turn.conversation in leases;
      if leased && leases[turn.conversation].owner != owner { return Refused(OwnerConflict); }
      var executing := AnyWithStatus(owner, turn.conversation, {Accepted, Processing});
      assert executing <==> AnyExecuting(Contents(), owner, turn.conversation);
      var queued := turn.(status := if leased || executing then Queued else Accepted);
      var input := InputKey(turn.conversation, turn.clientInput);
      if input in inputs {
        var existing := inputs[input];
        if existing.owner != owner { return Refused(RecordConflict); }
        return Returned(turns[existing]);
      }
      r := StoreTurn(owner, queued);
    }

    method ClaimNextTurn(owner: UserId, conversation: ConversationId) returns (r: Attempt<Option<Turn>, Error>)
      requires WellFormed(Contents())
      modifies this
      ensures var spec := ClaimNext(old(Contents()), owner, conversation);
              r == AttemptOf(spec) && Contents() == StateAfter(old(Contents()), spec)
    {
      if conversation in leases { return Returned(None); }
      var processing := AnyWithStatus(owner, conversation, {Processing});
      if processing { return Returned(None); }
      var ks := CollectWaiting(owner, conversation);
      if ks == {} { return Returned(None); }
      var k := FirstByArrival(ks);
      turns := turns[k := turns[k].(status := Processing)];
      return Returned(Some(turns[k]));
    }

    method CompleteTurnAndClaimNext(owner: UserId, conversation: ConversationId, turnId: TurnId)
      returns (r: Attempt<Completion, Error>)
      requires WellFormed(Contents())
      modifies this
      ensures var spec := Complete(old(Contents()), owner, conversation, turnId);
              r == AttemptOf(spec) && Contents() == StateAfter(old(Contents()), spec)
    {
      var key := TurnKey(owner, turnId);
      if key !in turns || turns[key].conversation != conversation { return Refused(TurnMissing); }
      if turns[key].status !in {Accepted, Processing, Completed} { return Refused(TurnNotRelayed); }
      ghost var before := Contents();
      var completed := turns[key].(status := Completed);
      turns := turns[key := completed];
      ghost var after := Contents();
      assert after == WithStatus(before, key, Completed);
      if conversation in leases { return Returned(Completion(completed, None)); }
      var processing := AnyWithStatus(owner, conversation, {Processing});
      if processing { return Returned(Completion(completed, None)); }
      var ks := CollectWaiting(owner, conversation);
      assert ks == Successors(before, key, conversation);
      if ks == {} { return Returned(Completion(completed, None)); }
      var next := FirstByCreation(ks, owner);
      turns := turns[next := turns[next].(status := Processing)];
      return Returned(Completion(completed, Some(turns[next])));
    }

    method PostponeLease(conversation: ConversationId, until: Time)
      requires conversation in leases
      modifies this`leases
      ensures Contents() == Postpone(old(Contents()), conversation, until)
    {
      var held := leases[conversation];
      leases := leases[conversation := held.(lease := held.lease.(expiresAt := until))];
    }

    method ReleaseAndStart(owner: UserId, conversation: ConversationId) returns (claimed: Option<Turn>)
      requires WellFormed(Contents())
      modifies this`leases, this`turns
      ensures (Contents(), claimed) == ReleaseAndClaim(old(Contents()), owner, conversation)
    {
      var ks := CollectWaiting(owner, conversation);
      if ks == {} {
        leases := leases - {conversation};
        return None;
      }
      var k := FirstByArrival(ks);
      leases := leases - {conversation};
      turns := turns[k := turns[k].(status := Processing)];
      return Some(turns[k]);
    }

    method FinishCompaction(
      owner: UserId, conversation: ConversationId, worker: WorkerId, token: Token, now: Time,
      claimNext: bool, retryNotBefore: Option<Time>) returns (r: Attempt<Option<Turn>, Error>)
      requires WellFormed(Contents())
      modifies this
      ensures var spec := Finish(old(Contents()), owner, conversation, worker, token, now, claimNext, retryNotBefore);
              r == AttemptOf(spec) && Contents() == StateAfter(old(Contents()), spec)
    {
      if !FinishArguments(now, claimNext, retryNotBefore) { return Refused(InvalidArgument); }
      if !HoldsLease(State(turns, order, inputs, turnIds, nextSequence, leases, events, eventIds, {}),
                     owner, conversation, worker, token, now) {
        return Refused(LeaseLost);
      }
      if !claimNext {
        PostponeLease(conversation, retryNotBefore.value);
        return Returned(None);
      }
      var processing := AnyWithStatus(owner, conversation, {Processing});
      if processing { return Refused(LeaseLost); }
      var claimed := ReleaseAndStart(owner, conversation);
      return Returned(claimed);
    }

    /** Whether some event of the conversation belongs to someone else. */
    method AnyForeignEvent(owner: UserId, conversation: ConversationId) returns (foreign: bool)
      ensures foreign <==> exists e :: e in EventsOf(Contents(), conversation) && e.owner != owner
    {
      foreign := false;
      var rest := events.Keys;
      while rest != {}
        invariant rest <= events.Keys
        invariant foreign <==> exists e :: e in EventsOf(Contents(), conversation) && e !in rest && e.owner != owner
        decreases |rest|
      {
        var e :| e in rest;
        rest := rest - {e};
        if events[e].conversation == conversation && e.owner != owner {
          assert e in EventsOf(Contents(), conversation);
          foreign := true;
        }
      }
    }

    /** Greatest event sequence of the conversation, 0 when it has none. */
    method MaxSequence(conversation: ConversationId) returns (last: nat)
      ensures last == LastSequence(Contents(), conversation)
    {
      last := 0;
      var rest := events.Keys;
      ghost var all := EventsOf(Contents(), conversation);
      ghost var seen := {};
      while rest != {}
        invariant rest <= events.Keys && seen <= all && forall e :: e in all ==> e in seen || e in rest
        invariant forall e :: e in seen ==> events[e].sequence <= last
        invariant if seen == {} then last == 0 else exists e :: e in seen && events[e].sequence == last
        decreases |rest|
      {
        var e :| e in rest;
        rest := rest - {e};
        if events[e].conversation == conversation {
          seen := seen + {e};
          if events[e].sequence > last { last := events[e].sequence; }
        }
      }
      assert seen == all;
      assert IsLastSequence(Contents(), conversation, last);
    }

    method LogEvent(owner: UserId, event: Event)
      requires WellFormed(Contents())
      modifies this`events, this`eventIds
      ensures Contents() == Logged(old(Contents()), owner, event) && WellFormed(Contents())
    {
      events := events[EventKey(owner, event.eventId) := event];
      eventIds := eventIds + {event.eventId};
    }

    method FinishCompactionWithEvent(
      owner: UserId, conversation: ConversationId, worker: WorkerId, token: Token, now: Time,
      claimNext: bool, retryNotBefore: Option<Time>, runId: RunId, kind: EventKind, eventId: EventId)
      returns (r: Attempt<FinishedWithEvent, Error>)
      requires WellFormed(Contents())
      modifies this
      ensures var spec := FinishWithEvent(old(Contents()), owner, conversation, worker, token, now,
                                          claimNext, retryNotBefore, runId, kind, eventId);
              r == AttemptOf(spec) && Contents() == StateAfter(old(Contents()), spec)
    {
      if !FinishArguments(now, claimNext, retryNotBefore) { return Refused(InvalidArgument); }
      if !HoldsLease(State(turns, order, inputs, turnIds, nextSequence, leases, events, eventIds, {}),
                     owner, conversation, worker, token, now) {
        return Refused(LeaseLost);
      }
      if claimNext {
        var processing := AnyWithStatus(owner, conversation, {Processing});
        if processing { return Refused(LeaseLost); }
      }
      var foreign := AnyForeignEvent(owner, conversation);
      if foreign { return Refused(RecordConflict); }
      if kind == OtherKind { return Refused(InvalidArgument); }
      var last := MaxSequence(conversation);
      var event := Event(eventId, last + 1, conversation, runId, now, kind);
      if eventId in eventIds { return Refused(RecordConflict); }
      LogEvent(owner, event);
      if claimNext {
        var claimed := ReleaseAndStart(owner, conversation);
        return Returned(FinishedWithEvent(claimed, event));
      }
      PostponeLease(conversation, retryNotBefore.value);
      return Returned(FinishedWithEvent(None, event));
    }
  }
}
