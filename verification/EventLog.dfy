/** The event Outbox of the runtime repository: an append-only log with one sequence per conversation. */
module EventLog {
  import opened Common

  datatype RunStatus =
    | Accepted | Running | Completed | Failed | Cancelled
    | SuspendedOperation | SuspendedConfirmation | SuspendedAuthorization

  /** The public content of an event: a run state, any other projected progress, or an interrupt notice. */
  datatype Public = StateChanged(status: RunStatus) | Progress(detail: string) | InterruptNotice(closed: bool)

  /** Sidecar event ids and the digests of interrupt publishers never coincide. */
  datatype EventId = FromSidecar(id: nat) | Published(id: nat)

  datatype Event = Event(
    id: EventId, sequence: int, cursor: EventId, conversation: ConversationId, owner: UserId, run: RunId, public: Public)

  /** The records in the order in which they were stored. */
  type Log = seq<Event>

  /** The record list queries of the source. */
  datatype Query = OfConversation(conversation: ConversationId) | OfRun(run: RunId) | ProjectedOf(projected: RunId)

  predicate Matches(q: Query, e: Event) {
    match q
    case OfConversation(c) => e.conversation == c
    case OfRun(r) => e.run == r
    case ProjectedOf(r) => e.run == r && e.id.FromSidecar?
  }

  function Select(log: Log, q: Query): Log {
    if log == [] then []
    else
      var front := Select(log[..|log| - 1], q);
      if Matches(q, log[|log| - 1]) then front + [log[|log| - 1]] else front
  }

  function LastSequence(log: Log, c: ConversationId): int {
    if log == [] then 0
    else
      var before := LastSequence(log[..|log| - 1], c);
      var e := log[|log| - 1];
      if e.conversation == c && e.sequence > before then e.sequence else before
  }

  predicate OwnedByOther(log: Log, c: ConversationId, owner: UserId) {
    exists i :: 0 <= i < |log| && log[i].conversation == c && log[i].owner != owner
  }

  predicate Stored(log: Log, id: EventId) {
    exists i :: 0 <= i < |log| && log[i].id == id
  }

  predicate Collides(log: Log, e: Event) {
    exists i :: 0 <= i < |log|
      && (log[i].id == e.id
          || (log[i].conversation == e.conversation && (log[i].sequence == e.sequence || log[i].cursor == e.cursor)))
  }

  /** create_event: a sequence read too early is corrected, a gap is refused. */
  function Create(log: Log, e: Event): Outcome<Log, Event, ()> {
    var expected := LastSequence(log, e.conversation) + 1;
    var stored := e.(sequence := expected);
    if OwnedByOther(log, e.conversation, e.owner) || e.sequence > expected || Collides(log, stored) then Raised(())
    else Done(log + [stored], stored)
  }

  lemma SelectSnoc(log: Log, e: Event, q: Query)
    ensures Select(log + [e], q) == if Matches(q, e) then Select(log, q) + [e] else Select(log, q)
  {
    assert (log + [e])[..|log|] == log;
  }

  lemma LastSnoc(log: Log, e: Event, c: ConversationId)
    ensures var before := LastSequence(log, c);
            LastSequence(log + [e], c) == if e.conversation == c && e.sequence > before then e.sequence else before
  {
    assert (log + [e])[..|log|] == log;
  }

  lemma {:induction false} SelectedAreStored(log: Log, q: Query, i: nat)
    requires i < |Select(log, q)|
    ensures Select(log, q)[i] in log && Matches(q, Select(log, q)[i])
  {
    if log != [] {
      var front := log[..|log| - 1];
      if i < |Select(front, q)| { SelectedAreStored(front, q, i); }
    }
  }

  lemma {:induction false} StoredAreSelected(log: Log, q: Query, k: nat) returns (i: nat)
    requires k < |log| && Matches(q, log[k])
    ensures i < |Select(log, q)| && Select(log, q)[i] == log[k]
  {
    var front := log[..|log| - 1];
    if k < |log| - 1 { i := StoredAreSelected(front, q, k); } else { i := |Select(front, q)|; }
  }

  // ---------------------------------------------------------------- gapless sequences

  /** The events of a conversation are numbered 1, 2, 3, ... */
  ghost predicate Gapless(log: Log, c: ConversationId) {
    forall i :: 0 <= i < |Select(log, OfConversation(c))| ==> Select(log, OfConversation(c))[i].sequence == i + 1
  }

  ghost predicate UniqueIds(log: Log) {
    forall i, k :: 0 <= i < k < |log| ==> log[i].id != log[k].id
  }

  lemma {:induction false} LastIsCount(log: Log, c: ConversationId)
    requires Gapless(log, c)
    ensures LastSequence(log, c) == |Select(log, OfConversation(c))|
  {
    if log != [] {
      var front := log[..|log| - 1];
      assert log == front + [log[|log| - 1]];
      SelectSnoc(front, log[|log| - 1], OfConversation(c));
      forall i | 0 <= i < |Select(front, OfConversation(c))|
        ensures Select(front, OfConversation(c))[i].sequence == i + 1
      {
        assert Select(log, OfConversation(c))[i] == Select(front, OfConversation(c))[i];
      }
      if log[|log| - 1].conversation == c {
        assert Select(log, OfConversation(c))[|Select(front, OfConversation(c))|] == log[|log| - 1];
      }
      LastIsCount(front, c);
    }
  }

  lemma {:induction false} SequencesBelowLast(log: Log, c: ConversationId, i: nat)
    requires i < |log| && log[i].conversation == c
    ensures log[i].sequence <= LastSequence(log, c)
  {
    if i < |log| - 1 { SequencesBelowLast(log[..|log| - 1], c, i); }
  }

  /** Every conversation's sequence stays 1..n whatever sequence the caller proposed. */
  lemma CreateKeepsGapless(log: Log, e: Event, c: ConversationId)
    requires Gapless(log, c) && Create(log, e).Done?
    ensures Gapless(Create(log, e).state, c)
  {
    SelectSnoc(log, Create(log, e).value, OfConversation(c));
    LastIsCount(log, c);
  }

  lemma CreateKeepsUnique(log: Log, e: Event)
    requires UniqueIds(log) && Create(log, e).Done?
    ensures UniqueIds(Create(log, e).state)
  {
  }

  /** With one owner per conversation, cursors equal to ids and a sequence read from an earlier log, storing fails only
      on an id that is there already. */
  lemma RefusedOnlyIfStored(log: Log, e: Event)
    requires !OwnedByOther(log, e.conversation, e.owner) && e.sequence <= LastSequence(log, e.conversation) + 1
    requires e.cursor == e.id && forall i :: 0 <= i < |log| ==> log[i].cursor == log[i].id
    ensures Create(log, e).Raised? <==> Stored(log, e.id)
  {
    forall i | 0 <= i < |log| && log[i].conversation == e.conversation
      ensures log[i].sequence <= LastSequence(log, e.conversation)
    {
      SequencesBelowLast(log, e.conversation, i);
    }
    if Stored(log, e.id) {
      var i :| 0 <= i < |log| && log[i].id == e.id;
      assert log[i].id == e.(sequence := LastSequence(log, e.conversation) + 1).id;
    }
  }
}
