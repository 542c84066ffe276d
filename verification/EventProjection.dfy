/** HarnessRunProjector: any number of projectors, restarted at will and each replaying its run's Sidecar stream from the
    start, and interrupt publishers, append to one Outbox with optimistic retries. */
module EventProjection {
  import opened Common
  import opened EventLog

  type Pid = nat

  /** A Sidecar event; `public` is its filtered public form, absent when the filter refuses it. */
  datatype Source = Source(id: nat, public: Option<Public>)

  datatype Binding = Binding(conversation: ConversationId, user: UserId)

  type Bindings = map<RunId, Binding>

  datatype Task = Project(run: RunId) | Publish(run: RunId, id: nat, closed: bool)

  datatype Ending = Finished | Unsafe | Exhausted | Crashed

  /** Where an append stands. `next` is the stream position, `tries` counts refused attempts, `sequence` is the one read. */
  datatype Pc =
    | Look(next: nat)
    | Probe(next: nat, tries: nat)
    | List(next: nat, tries: nat)
    | Append(next: nat, tries: nat, sequence: int)
    | Stopped(ending: Ending)

  datatype Proc = Proc(task: Task, pc: Pc)

  datatype State = State(streams: map<RunId, seq<Source>>, log: Log, procs: map<Pid, Proc>)

  datatype Step =
    | Emit(run: RunId, source: Source)
    | Begin(pid: Pid, task: Task)
    | Advance(pid: Pid)
    | Crash(pid: Pid)

  predicate Terminal(p: Public) { p.StateChanged? && p.status != Accepted && p.status != Running }

  function StreamOf(streams: map<RunId, seq<Source>>, r: RunId): seq<Source> {
    if r in streams then streams[r] else []
  }

  predicate Emitted(streams: map<RunId, seq<Source>>, id: nat) {
    exists r, i :: r in streams && 0 <= i < |streams[r]| && streams[r][i].id == id
  }

  /** get_event. */
  function Find(log: Log, id: EventId): (r: Option<Event>)
    ensures r.Some? ==> r.value in log && r.value.id == id
    ensures r.None? ==> !Stored(log, id)
  {
    if log == [] then None
    else if log[|log| - 1].id == id then Some(log[|log| - 1])
    else Find(log[..|log| - 1], id)
  }

  /** One past the last listed event of the conversation. */
  function NextSequence(log: Log, c: ConversationId): int {
    var listed := Select(log, OfConversation(c));
    if listed == [] then 1 else listed[|listed| - 1].sequence + 1
  }

  function IdOf(streams: map<RunId, seq<Source>>, task: Task, next: nat): EventId {
    match task
    case Project(r) => if next < |StreamOf(streams, r)| then FromSidecar(StreamOf(streams, r)[next].id) else FromSidecar(0)
    case Publish(_, id, _) => Published(id)
  }

  function PublicOf(streams: map<RunId, seq<Source>>, task: Task, next: nat): Option<Public> {
    match task
    case Project(r) => if next < |StreamOf(streams, r)| then StreamOf(streams, r)[next].public else None
    case Publish(_, _, closed) => Some(InterruptNotice(closed))
  }

  /** After the event is in the Outbox: a publisher is done, a projector stops at a terminal run state. */
  function Past(task: Task, next: nat, stored: Public): Pc {
    if task.Publish? || Terminal(stored) then Stopped(Finished) else Look(next + 1)
  }

  function RecordOf(w: Bindings, task: Task, id: EventId, public: Public, sequence: int): Event
    requires task.run in w
  {
    Event(id, sequence, id, w[task.run].conversation, w[task.run].user, task.run, public)
  }

  function Moved(s: State, pid: Pid, pc: Pc): State
    requires pid in s.procs
  {
    s.(procs := s.procs[pid := Proc(s.procs[pid].task, pc)])
  }

  function Looked(s: State, task: Task, next: nat): Pc {
    if task.Project? && next >= |StreamOf(s.streams, task.run)| then Look(next)
    else
      var found := Find(s.log, IdOf(s.streams, task, next));
      if found.Some? then Past(task, next, found.value.public)
      else if task.Publish? then List(next, 0)
      else if PublicOf(s.streams, task, next).None? then Stopped(Unsafe)
      else Probe(next, 0)
  }

  function Probed(s: State, task: Task, next: nat, tries: nat): Pc {
    var found := Find(s.log, IdOf(s.streams, task, next));
    if found.Some? then Past(task, next, found.value.public)
    else if tries == 8 then Stopped(Exhausted)
    else List(next, tries)
  }

  function Appended(w: Bindings, s: State, pid: Pid): State
    requires pid in s.procs && s.procs[pid].pc.Append? && s.procs[pid].task.run in w
  {
    var p := s.procs[pid];
    var public := PublicOf(s.streams, p.task, p.pc.next);
    if public.None? then s
    else
      match Create(s.log, RecordOf(w, p.task, IdOf(s.streams, p.task, p.pc.next), public.value, p.pc.sequence))
      case Done(log, e) => Moved(s.(log := log), pid, Past(p.task, p.pc.next, e.public))
      case Raised(_) =>
        Moved(s, pid, if p.task.Project? && p.pc.tries == 7 then Stopped(Exhausted) else Probe(p.pc.next, p.pc.tries + 1))
  }

  function Advanced(w: Bindings, s: State, pid: Pid): State
    requires pid in s.procs && s.procs[pid].task.run in w
  {
    var p := s.procs[pid];
    match p.pc
    case Look(next) => Moved(s, pid, Looked(s, p.task, next))
    case Probe(next, tries) => Moved(s, pid, Probed(s, p.task, next, tries))
    case List(next, tries) => Moved(s, pid, Append(next, tries, NextSequence(s.log, w[p.task.run].conversation)))
    case Append(_, _, _) => Appended(w, s, pid)
    case Stopped(_) => s
  }

  /** Sidecar event ids are never reused, a task is for a registered run, and a step of a stopped process does nothing. */
  function Next(w: Bindings, s: State, step: Step): State {
    match step
    case Emit(r, source) =>
      if Emitted(s.streams, source.id) then s else s.(streams := s.streams[r := StreamOf(s.streams, r) + [source]])
    case Begin(pid, task) =>
      if pid in s.procs || task.run !in w then s else s.(procs := s.procs[pid := Proc(task, Look(0))])
    case Advance(pid) => if pid in s.procs && s.procs[pid].task.run in w then Advanced(w, s, pid) else s
    case Crash(pid) => if pid in s.procs then Moved(s, pid, Stopped(Crashed)) else s
  }

  function Run(w: Bindings, s: State, steps: seq<Step>): State
    decreases |steps|
  {
    if steps == [] then s else Run(w, Next(w, s, steps[0]), steps[1..])
  }

  // ---------------------------------------------------------------- what every step keeps

  predicate OneOwner(w: Bindings) {
    forall a, b :: a in w && b in w && w[a].conversation == w[b].conversation ==> w[a].user == w[b].user
  }

  predicate EventSound(w: Bindings, e: Event) {
    e.run in w && e.conversation == w[e.run].conversation && e.owner == w[e.run].user && e.cursor == e.id
  }

  ghost predicate LogSound(w: Bindings, log: Log) {
    && (forall i :: 0 <= i < |log| ==> EventSound(w, log[i]))
    && UniqueIds(log)
    && (forall c :: Gapless(log, c))
  }

  predicate DistinctIds(streams: map<RunId, seq<Source>>) {
    forall r, i, q, k :: (r in streams && q in streams && 0 <= i < |streams[r]| && 0 <= k < |streams[q]|
                          && streams[r][i].id == streams[q][k].id) ==> r == q && i == k
  }

  /** The projected events are, in order, the first events of the stream, and none follows a terminal one. */
  predicate PrefixOf(projected: Log, stream: seq<Source>) {
    && |projected| <= |stream|
    && forall i :: 0 <= i < |projected| ==>
         && projected[i].id == FromSidecar(stream[i].id) && stream[i].public == Some(projected[i].public)
         && (i + 1 < |projected| ==> !Terminal(projected[i].public))
  }

  /** The projector has the stream's first `next` events behind it, none of them terminal. */
  predicate Behind(projected: Log, next: nat) {
    next <= |projected| && forall i :: 0 <= i < next ==> !Terminal(projected[i].public)
  }

  predicate PcSound(w: Bindings, streams: map<RunId, seq<Source>>, log: Log, task: Task, pc: Pc) {
    && task.run in w
    && (!pc.Stopped? && task.Project? ==> Behind(Select(log, ProjectedOf(task.run)), pc.next))
    && (pc.Probe? || pc.List? || pc.Append? ==>
          PublicOf(streams, task, pc.next).Some?
          && (pc.tries == 0 || (pc.Probe? && pc.tries == 1 && Stored(log, IdOf(streams, task, pc.next)))))
    && (pc.Append? ==> pc.sequence <= LastSequence(log, w[task.run].conversation) + 1)
    && pc != Stopped(Exhausted)
  }

  ghost predicate Sound(w: Bindings, s: State) {
    && LogSound(w, s.log)
    && DistinctIds(s.streams)
    && (forall r :: r in w ==> PrefixOf(Select(s.log, ProjectedOf(r)), StreamOf(s.streams, r)))
    && (forall p :: p in s.procs ==> PcSound(w, s.streams, s.log, s.procs[p].task, s.procs[p].pc))
  }

  lemma PcMove(w: Bindings, s: State, pid: Pid, pc: Pc)
    requires Sound(w, s) && pid in s.procs && PcSound(w, s.streams, s.log, s.procs[pid].task, pc)
    ensures Sound(w, Moved(s, pid, pc))
  {
  }

  /** One more event in the log: what a process knows stays true. */
  lemma PcStays(w: Bindings, streams: map<RunId, seq<Source>>, log: Log, e: Event, task: Task, pc: Pc)
    requires PcSound(w, streams, log, task, pc)
    ensures PcSound(w, streams, log + [e], task, pc)
  {
    SelectSnoc(log, e, ProjectedOf(task.run));
    LastSnoc(log, e, w[task.run].conversation);
    if (pc.Probe? || pc.List? || pc.Append?) && Stored(log, IdOf(streams, task, pc.next)) {
      var i :| 0 <= i < |log| && log[i].id == IdOf(streams, task, pc.next);
      assert (log + [e])[i] == log[i];
    }
  }

  /** The next event of the stream, appended after a prefix without a terminal event, makes a longer prefix. */
  lemma LogMove(w: Bindings, s: State, e: Event)
    requires Sound(w, s) && EventSound(w, e) && Create(s.log, e).Done?
    requires e.id.FromSidecar? ==>
               var projected, stream := Select(s.log, ProjectedOf(e.run)), StreamOf(s.streams, e.run);
               && |projected| < |stream| && e.id == FromSidecar(stream[|projected|].id)
               && stream[|projected|].public == Some(e.public)
               && Behind(projected, |projected|)
    ensures Sound(w, s.(log := Create(s.log, e).state))
  {
    var stored := Create(s.log, e).value;
    var log := s.log + [stored];
    CreateKeepsUnique(s.log, e);
    forall c ensures Gapless(log, c) { CreateKeepsGapless(s.log, e, c); }
    forall r | r in w ensures PrefixOf(Select(log, ProjectedOf(r)), StreamOf(s.streams, r)) {
      SelectSnoc(s.log, stored, ProjectedOf(r));
      assert PrefixOf(Select(s.log, ProjectedOf(r)), StreamOf(s.streams, r));
    }
    forall p | p in s.procs ensures PcSound(w, s.streams, log, s.procs[p].task, s.procs[p].pc) {
      PcStays(w, s.streams, s.log, stored, s.procs[p].task, s.procs[p].pc);
    }
  }

  /** A projected event that is already in the log lies in its run's prefix, at the position the projector looks at. */
  lemma FoundInPrefix(w: Bindings, s: State, r: RunId, next: nat)
    requires Sound(w, s) && r in w && next < |StreamOf(s.streams, r)|
    requires Stored(s.log, FromSidecar(StreamOf(s.streams, r)[next].id))
    ensures next < |Select(s.log, ProjectedOf(r))|
    ensures Find(s.log, FromSidecar(StreamOf(s.streams, r)[next].id)) == Some(Select(s.log, ProjectedOf(r))[next])
  {
    var id := FromSidecar(StreamOf(s.streams, r)[next].id);
    var e := Find(s.log, id).value;
    var k :| 0 <= k < |s.log| && s.log[k] == e;
    assert EventSound(w, s.log[k]);
    var i := StoredAreSelected(s.log, ProjectedOf(e.run), k);
    assert PrefixOf(Select(s.log, ProjectedOf(e.run)), StreamOf(s.streams, e.run));
  }

  /** What is not in the log yet is exactly the next event after the prefix. */
  lemma AbsentIsNext(w: Bindings, s: State, r: RunId, next: nat)
    requires Sound(w, s) && r in w && next < |StreamOf(s.streams, r)| && Behind(Select(s.log, ProjectedOf(r)), next)
    requires !Stored(s.log, FromSidecar(StreamOf(s.streams, r)[next].id))
    ensures next == |Select(s.log, ProjectedOf(r))|
  {
    var projected := Select(s.log, ProjectedOf(r));
    assert PrefixOf(projected, StreamOf(s.streams, r));
    if next < |projected| {
      SelectedAreStored(s.log, ProjectedOf(r), next);
      assert false;
    }
  }

  /** After an event is found, the process moves past it. */
  lemma PastIsSound(w: Bindings, s: State, task: Task, next: nat, e: Event)
    requires Sound(w, s) && task.run in w
    requires task.Project? ==>
               Behind(Select(s.log, ProjectedOf(task.run)), next) && next < |Select(s.log, ProjectedOf(task.run))|
               && Select(s.log, ProjectedOf(task.run))[next].public == e.public
    ensures PcSound(w, s.streams, s.log, task, Past(task, next, e.public))
  {
  }

  lemma FoundIsSound(w: Bindings, s: State, task: Task, next: nat)
    requires Sound(w, s) && task.run in w && Find(s.log, IdOf(s.streams, task, next)).Some?
    requires task.Project? ==> next < |StreamOf(s.streams, task.run)| && Behind(Select(s.log, ProjectedOf(task.run)), next)
    ensures PcSound(w, s.streams, s.log, task, Past(task, next, Find(s.log, IdOf(s.streams, task, next)).value.public))
  {
    if task.Project? {
      var e := Find(s.log, IdOf(s.streams, task, next)).value;
      assert Stored(s.log, IdOf(s.streams, task, next));
      FoundInPrefix(w, s, task.run, next);
    }
    PastIsSound(w, s, task, next, Find(s.log, IdOf(s.streams, task, next)).value);
  }

  lemma LookKeepsSound(w: Bindings, s: State, pid: Pid)
    requires Sound(w, s) && pid in s.procs && s.procs[pid].pc.Look?
    ensures Sound(w, Moved(s, pid, Looked(s, s.procs[pid].task, s.procs[pid].pc.next)))
  {
    var task, next := s.procs[pid].task, s.procs[pid].pc.next;
    assert PcSound(w, s.streams, s.log, task, s.procs[pid].pc);
    if !(task.Project? && next >= |StreamOf(s.streams, task.run)|) && Find(s.log, IdOf(s.streams, task, next)).Some? {
      FoundIsSound(w, s, task, next);
    }
    PcMove(w, s, pid, Looked(s, task, next));
  }

  lemma ProbeKeepsSound(w: Bindings, s: State, pid: Pid)
    requires Sound(w, s) && pid in s.procs && s.procs[pid].pc.Probe?
    ensures Sound(w, Moved(s, pid, Probed(s, s.procs[pid].task, s.procs[pid].pc.next, s.procs[pid].pc.tries)))
  {
    var task, next := s.procs[pid].task, s.procs[pid].pc.next;
    assert PcSound(w, s.streams, s.log, task, s.procs[pid].pc);
    if Find(s.log, IdOf(s.streams, task, next)).Some? { FoundIsSound(w, s, task, next); }
    PcMove(w, s, pid, Probed(s, task, next, s.procs[pid].pc.tries));
  }

  lemma ListKeepsSound(w: Bindings, s: State, pid: Pid)
    requires Sound(w, s) && pid in s.procs && s.procs[pid].pc.List?
    ensures s.procs[pid].task.run in w && Sound(w, Advanced(w, s, pid))
  {
    var p := s.procs[pid];
    assert PcSound(w, s.streams, s.log, p.task, p.pc);
    var c := w[p.task.run].conversation;
    assert Gapless(s.log, c);
    LastIsCount(s.log, c);
    PcMove(w, s, pid, Append(p.pc.next, p.pc.tries, NextSequence(s.log, c)));
  }

  lemma NoOtherOwner(w: Bindings, log: Log, r: RunId)
    requires LogSound(w, log) && OneOwner(w) && r in w
    ensures !OwnedByOther(log, w[r].conversation, w[r].user)
  {
    forall i | 0 <= i < |log| && log[i].conversation == w[r].conversation ensures log[i].owner == w[r].user {
      assert EventSound(w, log[i]);
    }
  }

  /** The record that a process about to append hands over. */
  function Handed(w: Bindings, s: State, p: Proc): Event
    requires p.task.run in w && p.pc.Append? && PublicOf(s.streams, p.task, p.pc.next).Some?
  {
    RecordOf(w, p.task, IdOf(s.streams, p.task, p.pc.next), PublicOf(s.streams, p.task, p.pc.next).value, p.pc.sequence)
  }

  lemma HandedIsRefusedOnlyIfStored(w: Bindings, s: State, p: Proc)
    requires LogSound(w, s.log) && OneOwner(w) && p.pc.Append? && PcSound(w, s.streams, s.log, p.task, p.pc)
    ensures Create(s.log, Handed(w, s, p)).Raised? <==> Stored(s.log, IdOf(s.streams, p.task, p.pc.next))
  {
    NoOtherOwner(w, s.log, p.task.run);
    assert forall i :: 0 <= i < |s.log| ==> EventSound(w, s.log[i]);
    RefusedOnlyIfStored(s.log, Handed(w, s, p));
  }

  lemma StoringKeepsSound(w: Bindings, s: State, pid: Pid)
    requires Sound(w, s) && pid in s.procs && s.procs[pid].pc.Append?
    requires PcSound(w, s.streams, s.log, s.procs[pid].task, s.procs[pid].pc)
    requires Create(s.log, Handed(w, s, s.procs[pid])).Done?
    requires !Stored(s.log, IdOf(s.streams, s.procs[pid].task, s.procs[pid].pc.next))
    ensures Sound(w, Appended(w, s, pid))
  {
    var p := s.procs[pid];
    var task, next, e := p.task, p.pc.next, Handed(w, s, p);
    var r := Create(s.log, e);
    if task.Project? { AbsentIsNext(w, s, task.run, next); }
    LogMove(w, s, e);
    SelectSnoc(s.log, r.value, ProjectedOf(task.run));
    var t := s.(log := r.state);
    PastIsSound(w, t, task, next, r.value);
    PcMove(w, t, pid, Past(task, next, r.value.public));
  }

  lemma AppendKeepsSound(w: Bindings, s: State, pid: Pid)
    requires Sound(w, s) && OneOwner(w) && pid in s.procs && s.procs[pid].pc.Append?
    ensures s.procs[pid].task.run in w && Sound(w, Appended(w, s, pid))
  {
    var p := s.procs[pid];
    assert PcSound(w, s.streams, s.log, p.task, p.pc);
    HandedIsRefusedOnlyIfStored(w, s, p);
    if Create(s.log, Handed(w, s, p)).Raised? {
      PcMove(w, s, pid, Probe(p.pc.next, p.pc.tries + 1));
    } else {
      StoringKeepsSound(w, s, pid);
    }
  }

  lemma EmitKeepsSound(w: Bindings, s: State, run: RunId, source: Source)
    requires Sound(w, s) && !Emitted(s.streams, source.id)
    ensures Sound(w, s.(streams := s.streams[run := StreamOf(s.streams, run) + [source]]))
  {
    var streams := s.streams[run := StreamOf(s.streams, run) + [source]];
    forall p | p in s.procs ensures PcSound(w, streams, s.log, s.procs[p].task, s.procs[p].pc) {
      var task, pc := s.procs[p].task, s.procs[p].pc;
      assert PcSound(w, s.streams, s.log, task, pc);
      if pc.Probe? || pc.List? || pc.Append? {
        assert IdOf(streams, task, pc.next) == IdOf(s.streams, task, pc.next);
      }
    }
    forall r | r in w ensures PrefixOf(Select(s.log, ProjectedOf(r)), StreamOf(streams, r)) {
      assert PrefixOf(Select(s.log, ProjectedOf(r)), StreamOf(s.streams, r));
    }
    DistinctGrows(s.streams, run, source);
  }

  lemma DistinctGrows(streams: map<RunId, seq<Source>>, run: RunId, source: Source)
    requires DistinctIds(streams) && !Emitted(streams, source.id)
    ensures DistinctIds(streams[run := StreamOf(streams, run) + [source]])
  {
    var after: map<RunId, seq<Source>> := streams[run := StreamOf(streams, run) + [source]];
    forall r, i, q, k | r in after && q in after && 0 <= i < |after[r]| && 0 <= k < |after[q]| && after[r][i].id == after[q][k].id
      ensures r == q && i == k
    {
      assert (r == run && i == |StreamOf(streams, run)|) || (r in streams && i < |streams[r]| && after[r][i] == streams[r][i]);
      assert (q == run && k == |StreamOf(streams, run)|) || (q in streams && k < |streams[q]| && after[q][k] == streams[q][k]);
    }
  }

  lemma StepKeepsSound(w: Bindings, s: State, step: Step)
    requires Sound(w, s) && OneOwner(w)
    ensures Sound(w, Next(w, s, step))
  {
    match step
    case Emit(r, source) => if !Emitted(s.streams, source.id) { EmitKeepsSound(w, s, r, source); }
    case Begin(pid, task) => if pid !in s.procs && task.run in w { assert PcSound(w, s.streams, s.log, task, Look(0)); }
    case Crash(pid) =>
      if pid in s.procs {
        assert PcSound(w, s.streams, s.log, s.procs[pid].task, s.procs[pid].pc);
        PcMove(w, s, pid, Stopped(Crashed));
      }
    case Advance(pid) =>
      if pid in s.procs {
        match s.procs[pid].pc
        case Look(_) => LookKeepsSound(w, s, pid);
        case Probe(_, _) => ProbeKeepsSound(w, s, pid);
        case List(_, _) => ListKeepsSound(w, s, pid);
        case Append(_, _, _) => AppendKeepsSound(w, s, pid);
        case Stopped(_) =>
      }
  }

  lemma {:induction false} RunKeepsSound(w: Bindings, s: State, steps: seq<Step>)
    requires Sound(w, s) && OneOwner(w)
    ensures Sound(w, Run(w, s, steps))
    decreases |steps|
  {
    if steps != [] {
      StepKeepsSound(w, s, steps[0]);
      RunKeepsSound(w, Next(w, s, steps[0]), steps[1..]);
    }
  }

  // ---------------------------------------------------------------- theorems

  const EMPTY := State(map[], [], map[])

  /** In every run the events of each conversation are numbered 1..n, and what is projected of each Sidecar stream is, in
      order, a prefix of it that ends at its first terminal run state at the latest. */
  lemma OutboxIsPrefix(w: Bindings, steps: seq<Step>)
    requires OneOwner(w)
    ensures var t := Run(w, EMPTY, steps);
            && (forall c :: Gapless(t.log, c)) && UniqueIds(t.log)
            && forall r :: r in w ==> PrefixOf(Select(t.log, ProjectedOf(r)), StreamOf(t.streams, r))
  {
    assert forall c :: Select([], OfConversation(c)) == [];
    assert forall r :: Select([], ProjectedOf(r)) == [];
    RunKeepsSound(w, EMPTY, steps);
  }

  /** No process ever gives up after eight refused attempts: one refusal means that the event is there. */
  lemma NeverExhausted(w: Bindings, steps: seq<Step>, pid: Pid)
    requires OneOwner(w) && pid in Run(w, EMPTY, steps).procs
    ensures var pc := Run(w, EMPTY, steps).procs[pid].pc;
            pc != Stopped(Exhausted) && (pc.Probe? || pc.List? || pc.Append? ==> pc.tries <= 1)
  {
    OutboxIsPrefix(w, steps);
    assert forall c :: Select([], OfConversation(c)) == [];
    assert forall r :: Select([], ProjectedOf(r)) == [];
    RunKeepsSound(w, EMPTY, steps);
    var p := Run(w, EMPTY, steps).procs[pid];
    assert PcSound(w, Run(w, EMPTY, steps).streams, Run(w, EMPTY, steps).log, p.task, p.pc);
  }
}
