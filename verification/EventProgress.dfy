/** A projector that is left alone catches up with its stream, wherever others left the Outbox. */
module EventProgress {
  import opened Common
  import opened EventLog
  import opened EventProjection

  /** Only this process moves. */
  predicate Alone(steps: seq<Step>, pid: Pid) { forall i :: 0 <= i < |steps| ==> steps[i] == Advance(pid) }

  /** Look, probe, list, append. */
  function FourSteps(pid: Pid): seq<Step> {
    [Advance(pid)] + ([Advance(pid)] + ([Advance(pid)] + ([Advance(pid)] + [])))
  }

  lemma RunCons(w: Bindings, s: State, step: Step, rest: seq<Step>)
    ensures Run(w, s, [step] + rest) == Run(w, Next(w, s, step), rest)
  {
    assert ([step] + rest)[1..] == rest;
  }

  /** The projector of the run looks at this position of its stream. */
  predicate LooksAt(w: Bindings, s: State, pid: Pid, run: RunId, next: nat) {
    run in w && pid in s.procs && s.procs[pid] == Proc(Project(run), Look(next))
  }

  /** How far a projector that is left alone gets: through the whole stream, to the first event that ends the run, or to the
      first one that the filter refuses. */
  predicate CaughtUp(s: State, pid: Pid, run: RunId) {
    var projected, stream := Select(s.log, ProjectedOf(run)), StreamOf(s.streams, run);
    && pid in s.procs && s.procs[pid].task == Project(run) && |projected| <= |stream|
    && match s.procs[pid].pc
       case Look(next) => next >= |stream| && |projected| == |stream|
       case Stopped(Finished) => projected != [] && Terminal(projected[|projected| - 1].public)
       case Stopped(Unsafe) => |projected| < |stream| && stream[|projected|].public.None?
       case _ => false
  }

  /** The event at the position is in the Outbox already: the projector passes it. */
  lemma PassesStored(w: Bindings, s: State, pid: Pid, run: RunId, next: nat)
    requires Sound(w, s) && LooksAt(w, s, pid, run, next) && next < |StreamOf(s.streams, run)|
    requires Stored(s.log, FromSidecar(StreamOf(s.streams, run)[next].id))
    ensures var projected, t := Select(s.log, ProjectedOf(run)), Next(w, s, Advance(pid));
            && next < |projected| && t == Moved(s, pid, Past(Project(run), next, projected[next].public))
  {
    FoundInPrefix(w, s, run, next);
  }

  lemma FourAdvances(w: Bindings, s: State, pid: Pid)
    ensures Run(w, s, FourSteps(pid))
            == Next(w, Next(w, Next(w, Next(w, s, Advance(pid)), Advance(pid)), Advance(pid)), Advance(pid))
  {
    var one, two := Next(w, s, Advance(pid)), Next(w, Next(w, s, Advance(pid)), Advance(pid));
    var three := Next(w, two, Advance(pid));
    RunCons(w, s, Advance(pid), [Advance(pid)] + ([Advance(pid)] + ([Advance(pid)] + [])));
    RunCons(w, one, Advance(pid), [Advance(pid)] + ([Advance(pid)] + []));
    RunCons(w, two, Advance(pid), [Advance(pid)] + []);
    RunCons(w, three, Advance(pid), []);
  }

  /** The position's event is not in the Outbox and may be projected. */
  predicate IsMissing(s: State, run: RunId, next: nat) {
    && next < |StreamOf(s.streams, run)| && StreamOf(s.streams, run)[next].public.Some?
    && !Stored(s.log, FromSidecar(StreamOf(s.streams, run)[next].id))
  }

  lemma ReachesList(w: Bindings, s: State, pid: Pid, run: RunId, next: nat)
    requires LooksAt(w, s, pid, run, next) && IsMissing(s, run, next)
    ensures Next(w, s, Advance(pid)) == Moved(s, pid, Probe(next, 0))
    ensures Next(w, Moved(s, pid, Probe(next, 0)), Advance(pid)) == Moved(s, pid, List(next, 0))
  {
    assert Moved(Moved(s, pid, Probe(next, 0)), pid, List(next, 0)) == Moved(s, pid, List(next, 0));
  }

  lemma ReachesAppend(w: Bindings, s: State, pid: Pid, run: RunId, next: nat)
    requires LooksAt(w, s, pid, run, next)
    ensures Next(w, Moved(s, pid, List(next, 0)), Advance(pid))
            == Moved(s, pid, Append(next, 0, NextSequence(s.log, w[run].conversation)))
  {
    var append := Append(next, 0, NextSequence(s.log, w[run].conversation));
    assert Moved(Moved(s, pid, List(next, 0)), pid, append) == Moved(s, pid, append);
  }

  /** The state in which the projector stands at its append. */
  function AtAppend(w: Bindings, s: State, pid: Pid, run: RunId, next: nat): State
    requires LooksAt(w, s, pid, run, next)
  {
    Moved(s, pid, Append(next, 0, NextSequence(s.log, w[run].conversation)))
  }

  lemma SoundAtAppend(w: Bindings, s: State, pid: Pid, run: RunId, next: nat)
    requires Sound(w, s) && LooksAt(w, s, pid, run, next) && IsMissing(s, run, next)
    ensures Sound(w, AtAppend(w, s, pid, run, next))
  {
    assert PcSound(w, s.streams, s.log, s.procs[pid].task, s.procs[pid].pc);
    PcMove(w, s, pid, List(next, 0));
    ListKeepsSound(w, Moved(s, pid, List(next, 0)), pid);
    ReachesAppend(w, s, pid, run, next);
  }

  /** Standing at its append, the projector stores the event. */
  lemma AppendStores(w: Bindings, s: State, pid: Pid, run: RunId, next: nat, sequence: int)
    requires Sound(w, s) && OneOwner(w) && run in w && pid in s.procs && IsMissing(s, run, next)
    requires s.procs[pid] == Proc(Project(run), Append(next, 0, sequence))
    ensures var t := Next(w, s, Advance(pid));
            var public := StreamOf(s.streams, run)[next].public.value;
            && t.log == s.log + [RecordOf(w, Project(run), FromSidecar(StreamOf(s.streams, run)[next].id), public,
                                          LastSequence(s.log, w[run].conversation) + 1)]
            && t.streams == s.streams && t.procs == s.procs[pid := Proc(Project(run), Past(Project(run), next, public))]
  {
    assert PcSound(w, s.streams, s.log, s.procs[pid].task, s.procs[pid].pc);
    HandedIsRefusedOnlyIfStored(w, s, s.procs[pid]);
  }

  lemma ReachesLastStep(w: Bindings, s: State, pid: Pid, run: RunId, next: nat)
    requires LooksAt(w, s, pid, run, next) && IsMissing(s, run, next)
    ensures Run(w, s, FourSteps(pid)) == Next(w, AtAppend(w, s, pid, run, next), Advance(pid))
  {
    FourAdvances(w, s, pid);
    ReachesList(w, s, pid, run, next);
    ReachesAppend(w, s, pid, run, next);
  }

  lemma StoresFromAppend(w: Bindings, s: State, pid: Pid, run: RunId, next: nat)
    requires Sound(w, s) && OneOwner(w) && LooksAt(w, s, pid, run, next) && IsMissing(s, run, next)
    ensures var t := Next(w, AtAppend(w, s, pid, run, next), Advance(pid));
            var public := StreamOf(s.streams, run)[next].public.value;
            && t.log == s.log + [RecordOf(w, Project(run), FromSidecar(StreamOf(s.streams, run)[next].id), public,
                                          LastSequence(s.log, w[run].conversation) + 1)]
            && t.streams == s.streams && t.procs == s.procs[pid := Proc(Project(run), Past(Project(run), next, public))]
  {
    var at := AtAppend(w, s, pid, run, next);
    SoundAtAppend(w, s, pid, run, next);
    AppendStores(w, at, pid, run, next, NextSequence(s.log, w[run].conversation));
    var past := Proc(Project(run), Past(Project(run), next, StreamOf(s.streams, run)[next].public.value));
    assert at.procs[pid := past] == s.procs[pid := past];
  }

  /** The event is not there yet: the projector probes, lists and stores it. */
  lemma StoresNext(w: Bindings, s: State, pid: Pid, run: RunId, next: nat)
    requires Sound(w, s) && OneOwner(w) && LooksAt(w, s, pid, run, next) && IsMissing(s, run, next)
    ensures var t := Run(w, s, FourSteps(pid));
            var public := StreamOf(s.streams, run)[next].public.value;
            && t.log == s.log + [RecordOf(w, Project(run), FromSidecar(StreamOf(s.streams, run)[next].id), public,
                                          LastSequence(s.log, w[run].conversation) + 1)]
            && t.streams == s.streams && t.procs == s.procs[pid := Proc(Project(run), Past(Project(run), next, public))]
  {
    ReachesLastStep(w, s, pid, run, next);
    StoresFromAppend(w, s, pid, run, next);
  }

  /** The projector has moved past one position of its stream. */
  predicate Passed(w: Bindings, s: State, t: State, pid: Pid, run: RunId, next: nat) {
    && t.streams == s.streams && s.log <= t.log && pid in t.procs && t.procs[pid].task == Project(run)
    && next < |Select(t.log, ProjectedOf(run))|
    && t.procs[pid].pc == Past(Project(run), next, Select(t.log, ProjectedOf(run))[next].public)
  }

  lemma StoredIsPassed(w: Bindings, s: State, pid: Pid, run: RunId, next: nat)
    requires Sound(w, s) && OneOwner(w) && LooksAt(w, s, pid, run, next) && next < |StreamOf(s.streams, run)|
    requires Stored(s.log, FromSidecar(StreamOf(s.streams, run)[next].id))
    ensures var t := Run(w, s, [Advance(pid)] + []); Sound(w, t) && Passed(w, s, t, pid, run, next)
  {
    PassesStored(w, s, pid, run, next);
    StepKeepsSound(w, s, Advance(pid));
    RunCons(w, s, Advance(pid), []);
  }

  lemma LoggedIsPassed(w: Bindings, s: State, t: State, pid: Pid, run: RunId, next: nat, e: Event)
    requires t.streams == s.streams && t.log == s.log + [e]
    requires e.run == run && e.id.FromSidecar? && next == |Select(s.log, ProjectedOf(run))|
    requires pid in t.procs && t.procs[pid] == Proc(Project(run), Past(Project(run), next, e.public))
    ensures Passed(w, s, t, pid, run, next)
  {
    SelectSnoc(s.log, e, ProjectedOf(run));
  }

  lemma NextIsPassed(w: Bindings, s: State, pid: Pid, run: RunId, next: nat)
    requires Sound(w, s) && OneOwner(w) && LooksAt(w, s, pid, run, next) && next < |StreamOf(s.streams, run)|
    requires Behind(Select(s.log, ProjectedOf(run)), next)
    requires !Stored(s.log, FromSidecar(StreamOf(s.streams, run)[next].id)) && StreamOf(s.streams, run)[next].public.Some?
    ensures var t := Run(w, s, FourSteps(pid));
            Sound(w, t) && Passed(w, s, t, pid, run, next)
  {
    StoresNext(w, s, pid, run, next);
    AbsentIsNext(w, s, run, next);
    RunKeepsSound(w, s, FourSteps(pid));
    var t := Run(w, s, FourSteps(pid));
    LoggedIsPassed(w, s, t, pid, run, next, t.log[|s.log|]);
  }

  lemma HasBehind(w: Bindings, s: State, pid: Pid, run: RunId, next: nat)
    requires Sound(w, s) && LooksAt(w, s, pid, run, next)
    ensures Behind(Select(s.log, ProjectedOf(run)), next)
    ensures next >= |StreamOf(s.streams, run)| ==> CaughtUp(s, pid, run)
  {
    assert PrefixOf(Select(s.log, ProjectedOf(run)), StreamOf(s.streams, run));
    assert PcSound(w, s.streams, s.log, Project(run), s.procs[pid].pc);
  }

  lemma StopsUnsafe(w: Bindings, s: State, pid: Pid, run: RunId, next: nat)
    requires Sound(w, s) && LooksAt(w, s, pid, run, next) && next < |StreamOf(s.streams, run)|
    requires Behind(Select(s.log, ProjectedOf(run)), next)
    requires !Stored(s.log, FromSidecar(StreamOf(s.streams, run)[next].id)) && StreamOf(s.streams, run)[next].public.None?
    ensures var t := Run(w, s, [Advance(pid)] + []); t.log == s.log && t.streams == s.streams && CaughtUp(t, pid, run)
  {
    AbsentIsNext(w, s, run, next);
    RunCons(w, s, Advance(pid), []);
    assert Next(w, s, Advance(pid)) == Moved(s, pid, Stopped(Unsafe));
  }

  lemma PassesOne(w: Bindings, s: State, pid: Pid, run: RunId, next: nat) returns (first: seq<Step>)
    requires Sound(w, s) && OneOwner(w) && LooksAt(w, s, pid, run, next) && next < |StreamOf(s.streams, run)|
    requires Behind(Select(s.log, ProjectedOf(run)), next)
    requires Stored(s.log, FromSidecar(StreamOf(s.streams, run)[next].id)) || StreamOf(s.streams, run)[next].public.Some?
    ensures Alone(first, pid) && Sound(w, Run(w, s, first)) && Passed(w, s, Run(w, s, first), pid, run, next)
  {
    if Stored(s.log, FromSidecar(StreamOf(s.streams, run)[next].id)) {
      first := [Advance(pid)] + [];
      StoredIsPassed(w, s, pid, run, next);
    } else {
      first := FourSteps(pid);
      NextIsPassed(w, s, pid, run, next);
    }
  }

  /** From any state that a run reaches, with any events already there, a projector that is left alone projects its stream to
      the end: every event of it, or all up to the first that ends the run, or all before the first that the filter refuses. */
  lemma {:induction false} ProjectorCatchesUp(w: Bindings, s: State, pid: Pid, run: RunId, next: nat) returns (steps: seq<Step>)
    requires Sound(w, s) && OneOwner(w) && LooksAt(w, s, pid, run, next)
    ensures Alone(steps, pid) && Run(w, s, steps).streams == s.streams && CaughtUp(Run(w, s, steps), pid, run)
    ensures s.log <= Run(w, s, steps).log
    decreases |StreamOf(s.streams, run)| - next
  {
    HasBehind(w, s, pid, run, next);
    if next >= |StreamOf(s.streams, run)| {
      steps := [];
    } else if Stored(s.log, FromSidecar(StreamOf(s.streams, run)[next].id)) || StreamOf(s.streams, run)[next].public.Some? {
      var first := PassesOne(w, s, pid, run, next);
      steps := AfterStep(w, s, pid, run, next, first);
    } else {
      steps := [Advance(pid)] + [];
      StopsUnsafe(w, s, pid, run, next);
    }
  }

  /** The steps that passed one position, and those that follow. */
  lemma {:induction false} AfterStep(w: Bindings, s: State, pid: Pid, run: RunId, next: nat, first: seq<Step>)
    returns (steps: seq<Step>)
    requires Sound(w, Run(w, s, first)) && OneOwner(w) && Alone(first, pid) && run in w && next < |StreamOf(s.streams, run)|
    requires Passed(w, s, Run(w, s, first), pid, run, next)
    ensures Alone(steps, pid) && Run(w, s, steps).streams == s.streams && CaughtUp(Run(w, s, steps), pid, run)
    ensures s.log <= Run(w, s, steps).log
    decreases |StreamOf(s.streams, run)| - next, 0
  {
    var t := Run(w, s, first);
    var projected := Select(t.log, ProjectedOf(run));
    assert PrefixOf(projected, StreamOf(t.streams, run));
    if Terminal(projected[next].public) {
      assert next == |projected| - 1;
      steps := first;
    } else {
      var rest := ProjectorCatchesUp(w, t, pid, run, next + 1);
      RunAppend(w, s, first, rest);
      steps := first + rest;
    }
  }

  lemma {:induction false} RunAppend(w: Bindings, s: State, first: seq<Step>, rest: seq<Step>)
    ensures Run(w, s, first + rest) == Run(w, Run(w, s, first), rest)
    decreases |first|
  {
    if first == [] {
      assert first + rest == rest;
    } else {
      assert (first + rest)[0] == first[0] && (first + rest)[1..] == first[1..] + rest;
      RunAppend(w, Next(w, s, first[0]), first[1..], rest);
    }
  }
}
