/** MemoryAgentRuntimeRepository's events, and one undisturbed append by a projector. */
module EventRepository {
  import opened Common
  import opened EventLog

  /** `authorities` holds the owners of a conversation's workflows, turns and summaries. */
  class MemoryAgentRuntimeRepository {
    var events: Log
    var authorities: map<ConversationId, set<UserId>>

    constructor ()
      ensures events == [] && authorities == map[]
    {
      events, authorities := [], map[];
    }

    /** Some record other than an event gives the conversation to another owner. */
    predicate ClaimedElsewhere(c: ConversationId, owner: UserId)
      reads this`authorities
    {
      c in authorities && exists other :: other in authorities[c] && other != owner
    }

    method GetEvent(owner: UserId, id: EventId) returns (r: Option<Event>)
      ensures r.Some? ==> r.value in events && r.value.id == id && r.value.owner == owner
      ensures r.None? ==> forall i :: 0 <= i < |events| ==> !(events[i].id == id && events[i].owner == owner)
    {
      for i := 0 to |events|
        invariant forall k :: 0 <= k < i ==> !(events[k].id == id && events[k].owner == owner)
      {
        if events[i].id == id && events[i].owner == owner { return Some(events[i]); }
      }
      return None;
    }

    /** create_event, under the repository's write lock. */
    method CreateEvent(e: Event) returns (r: Attempt<Event, ()>)
      modifies this`events
      ensures var c := if ClaimedElsewhere(e.conversation, e.owner) then Raised(()) else Create(old(events), e);
              r == AttemptOf(c) && events == if c.Done? then c.state else old(events)
      ensures (exists other :: e.conversation in authorities && other in authorities[e.conversation] && other != e.owner) ==>
                r.Refused? && events == old(events)
    {
      if ClaimedElsewhere(e.conversation, e.owner) { return Refused(()); }
      var last := 0;
      for i := 0 to |events|
        invariant last == LastSequence(events[..i], e.conversation)
        invariant forall k :: 0 <= k < i && events[k].conversation == e.conversation ==> events[k].owner == e.owner
      {
        assert events[..i + 1][..i] == events[..i];
        if events[i].conversation == e.conversation {
          if events[i].owner != e.owner { return Refused(()); }
          if events[i].sequence > last { last := events[i].sequence; }
        }
      }
      assert events[..|events|] == events;
      if e.sequence > last + 1 { return Refused(()); }
      var stored := e.(sequence := last + 1);
      for i := 0 to |events|
        invariant forall k :: 0 <= k < i ==>
          events[k].id != e.id
          && !(events[k].conversation == e.conversation && (events[k].sequence == last + 1 || events[k].cursor == e.cursor))
      {
        if events[i].id == e.id
           || (events[i].conversation == e.conversation && (events[i].sequence == last + 1 || events[i].cursor == e.cursor))
        {
          return Refused(());
        }
      }
      events := events + [stored];
      return Returned(stored);
    }

    /** list_events: the owner's events of the conversation, in the order in which they were stored, which is that of their
        sequences; everything in a conversation that has one owner. */
    method ListEvents(owner: UserId, conversation: ConversationId) returns (listed: Log)
      ensures forall e :: e in listed <==> e in events && e.conversation == conversation && e.owner == owner
      ensures !OwnedByOther(events, conversation, owner) ==> listed == Select(events, OfConversation(conversation))
    {
      listed := [];
      for i := 0 to |events|
        invariant !OwnedByOther(events, conversation, owner) ==> listed == Select(events[..i], OfConversation(conversation))
        invariant forall e :: e in listed <==> e in events[..i] && e.conversation == conversation && e.owner == owner
      {
        assert events[..i + 1][..i] == events[..i];
        if events[i].conversation == conversation && events[i].owner == owner { listed := listed + [events[i]]; }
      }
      assert events[..|events|] == events;
    }
  }

  /** What every writer of one owner's conversations stores: the cursor is the id. */
  predicate Friendly(e: Event, conversation: ConversationId, owner: UserId, id: EventId) {
    e.cursor == e.id && (e.conversation == conversation || e.id == id ==> e.owner == owner)
  }

  ghost predicate Orderly(events: Log, conversation: ConversationId, owner: UserId, id: EventId) {
    && Gapless(events, conversation)
    && forall i :: 0 <= i < |events| ==> Friendly(events[i], conversation, owner, id)
  }

  /** The event is one of the batch, as it was stored. */
  predicate IsOneOf(e: Event, batch: seq<Event>) {
    exists i :: 0 <= i < |batch| && e == batch[i].(sequence := e.sequence)
  }

  class HarnessRunProjector {
    const repository: MemoryAgentRuntimeRepository

    constructor (repository: MemoryAgentRuntimeRepository)
      ensures this.repository == repository
    {
      this.repository := repository;
    }

    /** What other projectors and publishers write meanwhile. */
    method OthersWrite(batch: seq<Event>, ghost conversation: ConversationId, ghost owner: UserId, ghost id: EventId)
      requires Orderly(repository.events, conversation, owner, id)
      requires forall i :: 0 <= i < |batch| ==> Friendly(batch[i], conversation, owner, id)
      modifies repository`events
      ensures Orderly(repository.events, conversation, owner, id) && old(repository.events) <= repository.events
      ensures forall e :: e in repository.events ==> e in old(repository.events) || IsOneOf(e, batch)
    {
      for i := 0 to |batch|
        invariant Orderly(repository.events, conversation, owner, id) && old(repository.events) <= repository.events
        invariant forall e :: e in repository.events ==> e in old(repository.events) || IsOneOf(e, batch)
      {
        ghost var before := repository.events;
        var r := repository.CreateEvent(batch[i]);
        if r.Returned? {
          CreateKeepsGapless(before, batch[i], conversation);
          assert IsOneOf(r.value, batch);
        }
      }
    }

    /** _append_source_event, with others writing before each attempt: the event is in the Outbox afterwards, nothing that
        was there is lost, and the eight attempts never run out. It is the projector's own, unless its id was there before or
        one of the others stored it. */
    method AppendSourceEvent(id: EventId, conversation: ConversationId, owner: UserId, run: RunId, public: Public,
                             others: nat -> seq<Event>)
      returns (r: Attempt<Event, ()>)
      requires Orderly(repository.events, conversation, owner, id)
      requires !repository.ClaimedElsewhere(conversation, owner)
      requires forall n, i :: 0 <= i < |others(n)| ==> Friendly(others(n)[i], conversation, owner, id)
      modifies repository`events
      ensures r.Returned? && r.value.id == id && r.value in repository.events
      ensures Orderly(repository.events, conversation, owner, id) && old(repository.events) <= repository.events
      ensures Stored(old(repository.events), id) ==> repository.events == old(repository.events)
      ensures || r.value in old(repository.events) || (exists n :: IsOneOf(r.value, others(n)))
              || r.value == Event(id, r.value.sequence, id, conversation, owner, run, public)
    {
      var existing := repository.GetEvent(owner, id);
      if existing.Some? { return Returned(existing.value); }
      for tries := 0 to 8
        invariant Orderly(repository.events, conversation, owner, id) && old(repository.events) <= repository.events
        invariant tries <= 1 && (tries == 1 ==> Stored(repository.events, id))
        invariant forall e :: e in repository.events ==> e in old(repository.events) || exists n :: IsOneOf(e, others(n))
      {
        existing := repository.GetEvent(owner, id);
        if existing.Some? { return Returned(existing.value); }
        var prior := repository.ListEvents(owner, conversation);
        LastIsCount(repository.events, conversation);
        ghost var listed := repository.events;
        var sequence := if prior == [] then 1 else prior[|prior| - 1].sequence + 1;
        OthersWrite(others(tries), conversation, owner, id);
        LastGrows(listed, repository.events, conversation);
        var e := Event(id, sequence, id, conversation, owner, run, public);
        RefusedOnlyIfStored(repository.events, e);
        ghost var before := repository.events;
        r := repository.CreateEvent(e);
        if r.Returned? {
          CreateKeepsGapless(before, e, conversation);
          return r;
        }
      }
      return Refused(());
    }
  }

  lemma {:induction false} LastGrows(older: Log, newer: Log, c: ConversationId)
    requires older <= newer
    ensures LastSequence(older, c) <= LastSequence(newer, c)
    decreases |newer|
  {
    if |older| == |newer| {
      assert older == newer;
    } else {
      LastGrows(older, newer[..|newer| - 1], c);
    }
  }
}
