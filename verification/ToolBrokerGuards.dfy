/** What a started execution has behind it: the request matches the run's frozen binding and manifest, and the workspace is
    the run's own at the expected revision. */
module ToolBrokerGuards {
  import opened Common
  import I = Interrupts
  import opened ToolLedger
  import opened ToolBrokerSteps

  /** The request comes under its own key and agrees with what was frozen for its run. */
  predicate Frozen(br: Broker, bindings: map<RunId, Binding>, r: Request) {
    && r.run in bindings && r.idempotencyKey == KeyOf(r)
    && r.session == bindings[r.run].session && r.contextDigest == bindings[r.run].contextDigest
    && r.toolset == bindings[r.run].toolset && bindings[r.run].manifest == br.manifest
  }

  /** The workspace is the one of the run's conversation, as the request expects it. */
  predicate OwnWorkspace(b: Binding, r: Request, w: Workspace) {
    w.conversation == b.conversation && w.revision == r.expectedRevision
  }

  predicate PcGuarded(br: Broker, bindings: map<RunId, Binding>, p: Proc) {
    && (!p.pc.Ended? ==> Frozen(br, bindings, p.request) && p.pc.binding == bindings[p.request.run])
    && match p.pc
       case ToCheckAuthorization(_) => p.request.tool in br.tools
       case ToReadWorkspace(_, hasCost, _) => p.request.tool in br.tools && br.tools[p.request.tool].hasCost == hasCost
       case ToTakeCredential(b, _, w) =>
         p.request.tool in br.tools && br.tools[p.request.tool].hasCost && OwnWorkspace(b, p.request, w)
       case ToStart(b, w, withCredential) =>
         p.request.tool in br.tools && br.tools[p.request.tool].hasCost == withCredential && OwnWorkspace(b, p.request, w)
       case _ => true
  }

  predicate ExecutionGuarded(br: Broker, bindings: map<RunId, Binding>, e: Execution) {
    && Frozen(br, bindings, e.request)
    && e.request.tool in br.tools && br.tools[e.request.tool].hasCost == e.withCredential
    && OwnWorkspace(bindings[e.request.run], e.request, e.workspace)
  }

  ghost predicate Guarded(br: Broker, s: State) {
    && (forall p :: p in s.procs ==> PcGuarded(br, s.bindings, s.procs[p]))
    && (forall i :: 0 <= i < |s.started| ==> ExecutionGuarded(br, s.bindings, s.started[i]))
  }

  lemma BindingsMove(br: Broker, s: State, b: Binding)
    requires Guarded(br, s)
    ensures Guarded(br, AfterRegister(s, b))
  {
    forall p | p in s.procs ensures PcGuarded(br, AfterRegister(s, b).bindings, s.procs[p]) {
      assert PcGuarded(br, s.bindings, s.procs[p]);
    }
    forall i | 0 <= i < |s.started| ensures ExecutionGuarded(br, AfterRegister(s, b).bindings, s.started[i]) {
      assert ExecutionGuarded(br, s.bindings, s.started[i]);
    }
  }

  lemma AdvanceKeepsGuarded(br: Broker, s: State, pid: Pid, op: Operation)
    requires Guarded(br, s) && pid in s.procs
    ensures Guarded(br, Advanced(br, s, pid, op))
  {
    var p, t := s.procs[pid], Advanced(br, s, pid, op);
    assert PcGuarded(br, s.bindings, p);
    PcStaysGuarded(br, s, pid, op);
    OthersStay(br, s, pid, op);
    StartIsGuarded(br, s, pid, op);
  }

  lemma NothingElseStarts(br: Broker, s: State, pid: Pid, op: Operation)
    requires pid in s.procs && !op.Start?
    ensures Advanced(br, s, pid, op).bindings == s.bindings && Advanced(br, s, pid, op).started == s.started
  {
  }

  lemma StartIsGuarded(br: Broker, s: State, pid: Pid, op: Operation)
    requires pid in s.procs && PcGuarded(br, s.bindings, s.procs[pid])
    ensures var p, t := s.procs[pid], Advanced(br, s, pid, op);
            && t.bindings == s.bindings
            && (t.started == s.started
                || (op.Start? && p.pc.ToStart? && t.started == s.started + [Execution(p.request, p.pc.workspace, p.pc.withCredential)]
                    && ExecutionGuarded(br, s.bindings, Execution(p.request, p.pc.workspace, p.pc.withCredential))))
  {
    if !op.Start? { NothingElseStarts(br, s, pid, op); }
  }

  /** The operations that end a stretch of a call, and those in between. */
  predicate Early(op: Operation) { op.TakeClaim? || op.Check? || op.CheckAuthorization? || op.ReadWorkspace? || op.TakeCredential? }

  lemma PcStaysGuardedEarly(br: Broker, s: State, pid: Pid, op: Operation)
    requires pid in s.procs && PcGuarded(br, s.bindings, s.procs[pid]) && Early(op)
    ensures pid in Advanced(br, s, pid, op).procs && PcGuarded(br, s.bindings, Advanced(br, s, pid, op).procs[pid])
  {
    match op
    case TakeClaim => case Check => case CheckAuthorization => case ReadWorkspace(_) => case TakeCredential(_) =>
  }

  lemma PcStaysGuardedLate(br: Broker, s: State, pid: Pid, op: Operation)
    requires pid in s.procs && PcGuarded(br, s.bindings, s.procs[pid]) && !Early(op)
    ensures pid in Advanced(br, s, pid, op).procs && PcGuarded(br, s.bindings, Advanced(br, s, pid, op).procs[pid])
  {
    match op
    case RaiseInterrupt => case Start => case Finish(_) => case CompleteCall => case Crash =>
  }

  lemma PcStaysGuarded(br: Broker, s: State, pid: Pid, op: Operation)
    requires pid in s.procs && PcGuarded(br, s.bindings, s.procs[pid])
    ensures pid in Advanced(br, s, pid, op).procs && PcGuarded(br, s.bindings, Advanced(br, s, pid, op).procs[pid])
  {
    if Early(op) { PcStaysGuardedEarly(br, s, pid, op); } else { PcStaysGuardedLate(br, s, pid, op); }
  }

  lemma OthersStay(br: Broker, s: State, pid: Pid, op: Operation)
    requires pid in s.procs
    ensures forall q :: q in Advanced(br, s, pid, op).procs && q != pid ==> q in s.procs && Advanced(br, s, pid, op).procs[q] == s.procs[q]
  {
  }

  lemma StepKeepsGuarded(br: Broker, s: State, step: Step)
    requires Guarded(br, s)
    ensures Guarded(br, Next(br, s, step))
  {
    match step
    case Register(b) => BindingsMove(br, s, b);
    case Begin(pid, r) => if pid !in s.procs { assert PcGuarded(br, s.bindings, Proc(r, Begun(br, s.bindings, r))); }
    case Advance(pid, op) => if pid in s.procs { AdvanceKeepsGuarded(br, s, pid, op); }
    case UserRead(_, _) =>
    case UserEnd(_) =>
  }

  lemma {:induction false} RunKeepsGuarded(br: Broker, s: State, steps: seq<Step>)
    requires Guarded(br, s)
    ensures Guarded(br, Run(br, s, steps))
    decreases |steps|
  {
    if steps != [] {
      StepKeepsGuarded(br, s, steps[0]);
      RunKeepsGuarded(br, Next(br, s, steps[0]), steps[1..]);
    }
  }

  /** In every run, every start of the executor is of a known tool for a request that matches its run's frozen binding and
      manifest, on the run's own workspace at the expected revision, with a credential exactly when the tool has a cost. */
  lemma ExecutionsAreGuarded(br: Broker, steps: seq<Step>)
    ensures var t := Run(br, EMPTY, steps);
            forall i :: 0 <= i < |t.started| ==> ExecutionGuarded(br, t.bindings, t.started[i])
  {
    RunKeepsGuarded(br, EMPTY, steps);
  }
}
