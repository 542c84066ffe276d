/** Readers of the Outbox: events_after, the snapshot's status, and the polling loop of the SSE endpoint. */
module EventStream {
  import opened Common
  import opened EventLog
  import opened EventProjection

  /** The part of a log after a sequence number. */
  function After(events: Log, sequence: int): Log {
    if events == [] then []
    else
      var front := After(events[..|events| - 1], sequence);
      if events[|events| - 1].sequence > sequence then front + [events[|events| - 1]] else front
  }

  /** events_after. */
  function EventsAfter(log: Log, run: RunId, sequence: int): Log { After(Select(log, OfRun(run)), sequence) }

  /** The status a snapshot reports: that of the run's last event, if it carries one. */
  function Status(log: Log, run: RunId): RunStatus {
    var events := Select(log, OfRun(run));
    if events != [] && events[|events| - 1].public.StateChanged? then events[|events| - 1].public.status else Accepted
  }

  /** The cursor after a batch was sent. */
  function CursorAfter(batch: Log, cursor: int): int {
    if batch == [] then cursor else batch[|batch| - 1].sequence
  }

  /** What the loop has sent after polling when the log had these lengths. */
  function Sent(log: Log, run: RunId, cursor: int, polls: seq<nat>): Log
    requires forall i :: 0 <= i < |polls| ==> polls[i] <= |log|
    decreases |polls|
  {
    if polls == [] then []
    else
      var batch := EventsAfter(log[..polls[0]], run, cursor);
      batch + Sent(log, run, CursorAfter(batch, cursor), polls[1..])
  }

  predicate Increasing(events: Log) { forall i, k :: 0 <= i < k < |events| ==> events[i].sequence < events[k].sequence }

  lemma {:induction false} AfterAppend(a: Log, b: Log, sequence: int)
    ensures After(a + b, sequence) == After(a, sequence) + After(b, sequence)
    decreases |b|
  {
    if b == [] {
      assert a + b == a;
    } else {
      assert (a + b)[..|a + b| - 1] == a + b[..|b| - 1];
      AfterAppend(a, b[..|b| - 1], sequence);
    }
  }

  /** A listing after a cursor holds exactly the later ones of the events, in the order of their sequences. */
  lemma {:induction false} AfterIsExact(events: Log, sequence: int)
    ensures forall e :: e in After(events, sequence) <==> e in events && e.sequence > sequence
    ensures Increasing(events) ==> Increasing(After(events, sequence))
  {
    if events != [] {
      var front, last := events[..|events| - 1], events[|events| - 1];
      assert events == front + [last];
      AfterIsExact(front, sequence);
      if Increasing(events) {
        assert Increasing(front);
        forall i | 0 <= i < |After(front, sequence)| ensures After(front, sequence)[i].sequence < last.sequence {
          assert After(front, sequence)[i] in front;
        }
      }
    }
  }

  lemma {:induction false} AfterNone(events: Log, sequence: int)
    requires forall i :: 0 <= i < |events| ==> events[i].sequence <= sequence
    ensures After(events, sequence) == []
  {
    if events != [] { AfterNone(events[..|events| - 1], sequence); }
  }

  lemma {:induction false} AfterAll(events: Log, sequence: int)
    requires forall i :: 0 <= i < |events| ==> events[i].sequence > sequence
    ensures After(events, sequence) == events
  {
    if events != [] { AfterAll(events[..|events| - 1], sequence); }
  }

  /** What was sent from a shorter log, and what is to be sent from the longer one after the new cursor, make up all. */
  lemma PollsCompose(older: Log, newer: Log, sequence: int)
    requires older <= newer && Increasing(newer)
    ensures var batch := After(older, sequence);
            After(newer, sequence) == batch + After(newer, CursorAfter(batch, sequence))
  {
    var rest := newer[|older|..];
    assert newer == older + rest;
    if older == [] || older[|older| - 1].sequence <= sequence {
      assert forall i :: 0 <= i < |older| - 1 ==> newer[i].sequence < newer[|older| - 1].sequence;
      AfterNone(older, sequence);
    } else {
      var c := older[|older| - 1].sequence;
      assert forall i :: |older| <= i < |newer| ==> newer[i].sequence > newer[|older| - 1].sequence;
      assert forall i :: 0 <= i < |older| - 1 ==> newer[i].sequence < newer[|older| - 1].sequence;
      AfterNone(older, c);
      AfterAll(rest, c);
      AfterAll(rest, sequence);
      AfterAppend(older, rest, c);
      AfterAppend(older, rest, sequence);
    }
  }

  lemma {:induction false} SelectPrefix(log: Log, q: Query, n: nat)
    requires n <= |log|
    ensures Select(log[..n], q) <= Select(log, q)
    decreases |log| - n
  {
    if n < |log| {
      assert log[..n + 1][..n] == log[..n];
      SelectPrefix(log, q, n + 1);
    } else {
      assert log[..n] == log;
    }
  }

  lemma {:induction false} IncreasingInConversation(log: Log, run: RunId, c: ConversationId)
    requires Gapless(log, c) && forall i :: 0 <= i < |log| && log[i].run == run ==> log[i].conversation == c
    ensures Increasing(Select(log, OfRun(run)))
    ensures forall i :: 0 <= i < |Select(log, OfRun(run))| ==> Select(log, OfRun(run))[i].sequence <= LastSequence(log, c)
  {
    if log != [] {
      var front, last := log[..|log| - 1], log[|log| - 1];
      assert log == front + [last];
      PrefixGapless(log, c);
      IncreasingInConversation(front, run, c);
      LastIsCount(front, c);
      LastIsCount(log, c);
      SelectSnoc(front, last, OfConversation(c));
      if last.run == run { assert Select(log, OfConversation(c))[|Select(front, OfConversation(c))|] == last; }
    }
  }

  lemma PrefixGapless(log: Log, c: ConversationId)
    requires log != [] && Gapless(log, c)
    ensures Gapless(log[..|log| - 1], c)
  {
    SelectPrefix(log, OfConversation(c), |log| - 1);
  }

  predicate Ordered(polls: seq<nat>, bound: nat) {
    (forall i :: 0 <= i < |polls| ==> polls[i] <= bound) && forall i, k :: 0 <= i < k < |polls| ==> polls[i] <= polls[k]
  }

  /** events_after lists exactly the run's events with a greater sequence, in the order of their sequences. */
  lemma ListingIsExact(w: Bindings, log: Log, run: RunId, cursor: int)
    requires LogSound(w, log) && run in w
    ensures forall e :: e in EventsAfter(log, run, cursor) <==> e in log && e.run == run && e.sequence > cursor
    ensures Increasing(EventsAfter(log, run, cursor))
  {
    var events, c := Select(log, OfRun(run)), w[run].conversation;
    AfterIsExact(events, cursor);
    forall e ensures e in events <==> e in log && e.run == run {
      if i :| 0 <= i < |events| && events[i] == e { SelectedAreStored(log, OfRun(run), i); }
      if k :| 0 <= k < |log| && log[k] == e && e.run == run { var i := StoredAreSelected(log, OfRun(run), k); }
    }
    assert Gapless(log, c);
    forall i | 0 <= i < |log| && log[i].run == run ensures log[i].conversation == c { assert EventSound(w, log[i]); }
    IncreasingInConversation(log, run, c);
  }

  /** From any cursor, after any number of polls of a growing log, what was sent is exactly what events_after would have
      listed at the last poll: nothing missing, nothing twice, in order. */
  lemma {:induction false} PollingIsExact(w: Bindings, log: Log, run: RunId, cursor: int, polls: seq<nat>)
    requires LogSound(w, log) && run in w && Ordered(polls, |log|) && polls != []
    ensures Sent(log, run, cursor, polls) == EventsAfter(log[..polls[|polls| - 1]], run, cursor)
    decreases |polls|
  {
    var first := log[..polls[0]];
    var batch := EventsAfter(first, run, cursor);
    if |polls| == 1 {
      assert polls[1..] == [];
      assert Sent(log, run, CursorAfter(batch, cursor), []) == [];
    } else {
      PollingIsExact(w, log, run, CursorAfter(batch, cursor), polls[1..]);
      var now := log[..polls[|polls| - 1]];
      assert polls[1..][|polls| - 2] == polls[|polls| - 1];
      assert now[..polls[0]] == first;
      SelectPrefix(now, OfRun(run), polls[0]);
      RunIncreasing(w, log, run, polls[|polls| - 1]);
      PollsCompose(Select(first, OfRun(run)), Select(now, OfRun(run)), cursor);
    }
  }

  lemma RunIncreasing(w: Bindings, log: Log, run: RunId, n: nat)
    requires LogSound(w, log) && run in w && n <= |log|
    ensures Increasing(Select(log[..n], OfRun(run)))
  {
    var c := w[run].conversation;
    assert forall i :: 0 <= i < |log| ==> EventSound(w, log[i]);
    SelectPrefix(log, OfConversation(c), n);
    assert Gapless(log[..n], c) by { assert Gapless(log, c); }
    IncreasingInConversation(log[..n], run, c);
  }

  /** Over every run of the projection, from any cursor: polling delivers a prefix of the run's later events. */
  lemma PollingDeliversPrefix(w: Bindings, steps: seq<Step>, run: RunId, cursor: int, polls: seq<nat>)
    requires OneOwner(w) && run in w && polls != [] && Ordered(polls, |Run(w, EMPTY, steps).log|)
    ensures var log := Run(w, EMPTY, steps).log;
            Sent(log, run, cursor, polls) <= EventsAfter(log, run, cursor)
  {
    var t := Run(w, EMPTY, steps);
    assert forall c :: Select([], OfConversation(c)) == [];
    assert forall r :: Select([], ProjectedOf(r)) == [];
    RunKeepsSound(w, EMPTY, steps);
    PollingFromLog(w, t.log, run, cursor, polls);
  }

  lemma PollingFromLog(w: Bindings, log: Log, run: RunId, cursor: int, polls: seq<nat>)
    requires LogSound(w, log) && run in w && polls != [] && Ordered(polls, |log|)
    ensures Sent(log, run, cursor, polls) <= EventsAfter(log, run, cursor)
  {
    PollingIsExact(w, log, run, cursor, polls);
    var n := polls[|polls| - 1];
    SelectPrefix(log, OfRun(run), n);
    RunIncreasing(w, log, run, |log|);
    assert log[..|log|] == log;
    PollsCompose(Select(log[..n], OfRun(run)), Select(log, OfRun(run)), cursor);
  }

  // ---------------------------------------------------------------- the end of the stream

  predicate Closes(status: RunStatus) { status == Completed || status == Failed || status == EventLog.Cancelled }

  /** The position in the log of the run's last event. */
  function LastOf(log: Log, run: RunId): (i: nat)
    requires Select(log, OfRun(run)) != []
    ensures i < |log| && log[i].run == run && forall k :: i < k < |log| ==> log[k].run != run
  {
    if log[|log| - 1].run == run then |log| - 1 else LastOf(log[..|log| - 1], run)
  }

  lemma {:induction false} SelectSkips(log: Log, run: RunId, n: nat, m: nat)
    requires n <= m <= |log| && forall k :: n <= k < m ==> log[k].run != run
    ensures Select(log[..n], OfRun(run)) == Select(log[..m], OfRun(run))
    decreases m - n
  {
    if n < m {
      assert log[..m][..m - 1] == log[..m - 1];
      SelectSkips(log, run, n, m - 1);
    }
  }

  lemma SelectMore(log: Log, run: RunId, n: nat, m: nat, i: nat)
    requires n <= i < m <= |log| && log[i].run == run
    ensures |Select(log[..n], OfRun(run))| < |Select(log[..m], OfRun(run))|
  {
    assert log[..m][..n] == log[..n] && log[..m][..i] == log[..i] && log[..m][..i + 1] == log[..i + 1];
    assert log[..i + 1][..i] == log[..i] && log[..i][..n] == log[..n];
    SelectPrefix(log[..i], OfRun(run), n);
    SelectPrefix(log[..m], OfRun(run), i + 1);
  }

  /** The events of the run at the last poll and at the snapshot. */
  lemma PolledAndSeen(w: Bindings, log: Log, run: RunId, n: nat, seen: nat)
    requires LogSound(w, log) && run in w && n <= seen <= |log|
    ensures Select(log[..n], OfRun(run)) <= Select(log[..seen], OfRun(run)) && Increasing(Select(log[..seen], OfRun(run)))
  {
    RunIncreasing(w, log, run, seen);
    assert log[..seen][..n] == log[..n];
    SelectPrefix(log[..seen], OfRun(run), n);
  }

  /** What the last poll listed is all up to the snapshot exactly when the closing event was in it, or before the cursor. */
  lemma ListedAllIff(w: Bindings, log: Log, run: RunId, cursor: int, n: nat, seen: nat)
    requires LogSound(w, log) && run in w && n <= seen <= |log| && Select(log[..seen], OfRun(run)) != []
    ensures var closing := LastOf(log[..seen], run);
            EventsAfter(log[..n], run, cursor) == EventsAfter(log[..seen], run, cursor) <==>
            closing < n || log[closing].sequence <= cursor
  {
    var closing := LastOf(log[..seen], run);
    var older, newer := Select(log[..n], OfRun(run)), Select(log[..seen], OfRun(run));
    PolledAndSeen(w, log, run, n, seen);
    LastIsSelected(log[..seen], run);
    if closing < n {
      SelectSkips(log, run, n, seen);
    } else {
      SelectMore(log, run, n, seen, closing);
      if log[closing].sequence <= cursor {
        assert forall i :: 0 <= i < |newer| - 1 ==> newer[i].sequence < newer[|newer| - 1].sequence;
        AfterNone(newer, cursor);
        AfterNone(older, cursor);
      } else {
        NewEventIsUnsent(older, newer, cursor);
      }
    }
  }

  /** The loop polls, then looks at a snapshot taken later, and ends if that is closed. It has sent everything up to the
      snapshot if and only if the closing event was stored before the last poll, or the client had it already. */
  lemma EndedStreamIsCompleteIff(w: Bindings, log: Log, run: RunId, cursor: int, polls: seq<nat>, seen: nat)
    requires LogSound(w, log) && run in w && Ordered(polls, seen) && polls != [] && seen <= |log|
    requires Closes(Status(log[..seen], run))
    ensures var closing := LastOf(log[..seen], run);
            Sent(log, run, cursor, polls) == EventsAfter(log[..seen], run, cursor) <==>
            closing < polls[|polls| - 1] || log[closing].sequence <= cursor
  {
    PollingIsExact(w, log, run, cursor, polls);
    ListedAllIff(w, log, run, cursor, polls[|polls| - 1], seen);
  }

  lemma {:induction false} LastIsSelected(log: Log, run: RunId)
    requires Select(log, OfRun(run)) != []
    ensures var events := Select(log, OfRun(run)); events[|events| - 1] == log[LastOf(log, run)]
    decreases |log|
  {
    if log[|log| - 1].run != run { LastIsSelected(log[..|log| - 1], run); }
  }

  lemma NewEventIsUnsent(older: Log, newer: Log, cursor: int)
    requires older <= newer && Increasing(newer) && (newer != [] ==> newer[|newer| - 1].sequence > cursor)
    ensures After(older, cursor) == After(newer, cursor) <==> |older| == |newer|
  {
    PollsCompose(older, newer, cursor);
    var batch := After(older, cursor);
    if |older| == |newer| {
      assert older == newer;
    } else if older != [] && older[|older| - 1].sequence > cursor {
      assert newer[|newer| - 1].sequence > newer[|older| - 1].sequence;
      assert batch[|batch| - 1] == older[|older| - 1];
    } else {
      assert forall i :: 0 <= i < |older| - 1 ==> newer[i].sequence < newer[|older| - 1].sequence;
      AfterNone(older, cursor);
    }
  }

  // ---------------------------------------------------------------- a concrete run

  const RUN: RunId := 0
  const CLOSING := Source(4, Some(StateChanged(Completed)))

  function Bound(): Bindings { map[RUN := Binding(0, 0)] }

  function At(pc: Pc): State { State(map[RUN := [CLOSING]], [], map[0 := Proc(Project(RUN), pc)]) }

  function ClosingEvent(): Event { Event(FromSidecar(4), 1, FromSidecar(4), 0, 0, RUN, StateChanged(Completed)) }

  function ClosingStored(): State { State(map[RUN := [CLOSING]], [ClosingEvent()], map[0 := Proc(Project(RUN), Stopped(Finished))]) }

  lemma RunTwice(w: Bindings, s: State, a: Step, b: Step, rest: seq<Step>)
    ensures Run(w, s, [a] + ([b] + rest)) == Run(w, Next(w, Next(w, s, a), b), rest)
  {
    assert ([a] + ([b] + rest))[1..] == [b] + rest && ([b] + rest)[1..] == rest;
  }

  lemma ProjectionBegins()
    ensures Next(Bound(), Next(Bound(), EMPTY, Emit(RUN, CLOSING)), Begin(0, Project(RUN))) == At(Look(0))
  {
    assert [] + [CLOSING] == [CLOSING];
  }

  lemma ProjectionLooks()
    ensures Next(Bound(), Next(Bound(), At(Look(0)), Advance(0)), Advance(0)) == At(List(0, 0))
  {
    assert StreamOf(At(Look(0)).streams, RUN) == [CLOSING];
    assert Next(Bound(), At(Look(0)), Advance(0)) == At(Probe(0, 0));
  }

  lemma ProjectionStores()
    ensures Next(Bound(), Next(Bound(), At(List(0, 0)), Advance(0)), Advance(0)) == ClosingStored()
  {
    assert Next(Bound(), At(List(0, 0)), Advance(0)) == At(Append(0, 0, 1));
    assert [] + [ClosingEvent()] == [ClosingEvent()];
  }

  /** From the empty Outbox: the loop polls, the projector stores the run's closing event, and the snapshot is closed. The
      client has got nothing. */
  lemma LateClosingIsNeverSent()
    ensures var steps := [Emit(RUN, CLOSING)] + ([Begin(0, Project(RUN))] + ([Advance(0)] + ([Advance(0)]
                           + ([Advance(0)] + ([Advance(0)] + [])))));
            var log := Run(Bound(), EMPTY, steps).log;
            && Closes(Status(log, RUN))
            && Sent(log, RUN, 0, [0]) == [] && EventsAfter(log, RUN, 0) == [ClosingEvent()]
  {
    var last := [Advance(0)] + ([Advance(0)] + []);
    RunTwice(Bound(), EMPTY, Emit(RUN, CLOSING), Begin(0, Project(RUN)), [Advance(0)] + ([Advance(0)] + last));
    ProjectionBegins();
    RunTwice(Bound(), At(Look(0)), Advance(0), Advance(0), last);
    ProjectionLooks();
    RunTwice(Bound(), At(List(0, 0)), Advance(0), Advance(0), []);
    ProjectionStores();
    ClosingIsSelected();
  }

  lemma ClosingIsSelected()
    ensures Select([ClosingEvent()], OfRun(RUN)) == [ClosingEvent()]
    ensures EventsAfter([ClosingEvent()], RUN, 0) == [ClosingEvent()] && Sent([ClosingEvent()], RUN, 0, [0]) == []
  {
    assert [ClosingEvent()][..0] == [] && [ClosingEvent()] == [] + [ClosingEvent()];
    SelectSnoc([], ClosingEvent(), OfRun(RUN));
    AfterAll([ClosingEvent()], 0);
    assert [0][1..] == [];
    assert Sent([ClosingEvent()], RUN, 0, []) == [];
  }
}
