/** Each tool call executes at most once and has one observation, over every interleaving of calls, retries, cancellations
    and crashes. */
module ToolBrokerOnce {
  import opened Common
  import Interrupts
  import T = InterruptTransactions
  import opened ToolLedger
  import opened ToolBrokerSteps

  /** The part of the state that this is about. */
  datatype Core = Core(ledger: Ledger, procs: map<Pid, Proc>, started: seq<Execution>)

  function CoreOf(s: State): Core { Core(s.ledger, s.procs, s.started) }

  /** The row of an owner is open until the owner stores its observation; whoever was answered from the ledger was
      answered with what the ledger holds. */
  predicate ProcSound(ledger: Ledger, p: Proc) {
    var key := KeyOf(p.request);
    && (Owns(p.pc) ==> key in ledger)
    && (Owns(p.pc) && !p.pc.Ended? ==>
          ledger[key].digest == DigestOf(p.request, p.pc.binding) && ledger[key].response.None?)
    && (p.pc.Ended? && p.pc.reply.Stored? ==> key in ledger && ledger[key].response == Some(p.pc.reply.response))
    && (p.pc.Ended? && p.pc.owned && !p.pc.reply.Stored? ==> ledger[key].response.None?)
  }

  predicate BeforeStart(pc: Pc) {
    pc.ToCheck? || pc.ToCheckAuthorization? || pc.ToReadWorkspace? || pc.ToTakeCredential? || pc.ToInterrupt? || pc.ToStart?
  }

  ghost predicate ProcsSound(c: Core) {
    forall p :: p in c.procs ==> ProcSound(c.ledger, c.procs[p])
  }

  ghost predicate OneOwner(c: Core) {
    forall p, q :: (p in c.procs && q in c.procs && Owns(c.procs[p].pc) && Owns(c.procs[q].pc)
                    && KeyOf(c.procs[p].request) == KeyOf(c.procs[q].request)) ==> p == q
  }

  ghost predicate HasOwner(c: Core, key: ToolCallKey) {
    exists p :: p in c.procs && Owns(c.procs[p].pc) && KeyOf(c.procs[p].request) == key
  }

  ghost predicate RowsOwned(c: Core) {
    forall key :: key in c.ledger ==> HasOwner(c, key)
  }

  predicate NotStarted(started: seq<Execution>, key: ToolCallKey) {
    forall i :: 0 <= i < |started| ==> KeyOf(started[i].request) != key
  }

  ghost predicate StartsSound(c: Core) {
    && (forall i :: 0 <= i < |c.started| ==> KeyOf(c.started[i].request) in c.ledger)
    && (forall p :: p in c.procs && BeforeStart(c.procs[p].pc) ==> NotStarted(c.started, KeyOf(c.procs[p].request)))
  }

  /** No tool call key occurs twice among the executor's starts. */
  ghost predicate StartsOnce(started: seq<Execution>) {
    forall i, k :: 0 <= i < k < |started| ==> KeyOf(started[i].request) != KeyOf(started[k].request)
  }

  ghost predicate Sound(c: Core) {
    ProcsSound(c) && OneOwner(c) && RowsOwned(c) && StartsSound(c) && StartsOnce(c.started)
  }

  // ---------------------------------------------------------------- the moves

  function WithProc(c: Core, pid: Pid, p: Proc): Core { c.(procs := c.procs[pid := p]) }

  /** A process moves without touching the ledger or the executor. */
  lemma QuietMove(c: Core, pid: Pid, pc: Pc)
    requires Sound(c) && pid in c.procs
    requires var old_ := c.procs[pid].pc; Owns(pc) == Owns(old_) && (BeforeStart(pc) ==> BeforeStart(old_))
    requires ProcSound(c.ledger, Proc(c.procs[pid].request, pc))
    ensures Sound(WithProc(c, pid, Proc(c.procs[pid].request, pc)))
  {
    var after := WithProc(c, pid, Proc(c.procs[pid].request, pc));
    assert forall p :: p in after.procs ==>
      p in c.procs && KeyOf(after.procs[p].request) == KeyOf(c.procs[p].request) && Owns(after.procs[p].pc) == Owns(c.procs[p].pc);
    forall key | key in after.ledger ensures HasOwner(after, key) {
      assert HasOwner(c, key);
      var p :| p in c.procs && Owns(c.procs[p].pc) && KeyOf(c.procs[p].request) == key;
      assert Owns(after.procs[p].pc);
    }
  }

  lemma BeginMove(c: Core, pid: Pid, p: Proc)
    requires Sound(c) && pid !in c.procs && !Owns(p.pc) && (p.pc.Ended? ==> !p.pc.reply.Stored?)
    ensures Sound(WithProc(c, pid, p))
  {
    var after := WithProc(c, pid, p);
    forall key | key in after.ledger ensures HasOwner(after, key) {
      assert HasOwner(c, key);
      var q :| q in c.procs && Owns(c.procs[q].pc) && KeyOf(c.procs[q].request) == key;
      assert after.procs[q] == c.procs[q];
    }
  }

  /** A process gets a row nobody has. */
  lemma ClaimMove(c: Core, pid: Pid, b: Binding)
    requires Sound(c) && pid in c.procs && c.procs[pid].pc.ToClaim? && KeyOf(c.procs[pid].request) !in c.ledger
    ensures var r := c.procs[pid].request;
            Sound(Core(c.ledger[KeyOf(r) := Row(DigestOf(r, b), None)], c.procs[pid := Proc(r, ToCheck(b))], c.started))
  {
    var r := c.procs[pid].request;
    var after := Core(c.ledger[KeyOf(r) := Row(DigestOf(r, b), None)], c.procs[pid := Proc(r, ToCheck(b))], c.started);
    forall p | p in after.procs ensures ProcSound(after.ledger, after.procs[p]) {
      if p != pid { assert ProcSound(c.ledger, c.procs[p]); }
    }
    forall key | key in after.ledger ensures HasOwner(after, key) {
      if key == KeyOf(r) {
        assert Owns(after.procs[pid].pc);
      } else {
        assert HasOwner(c, key);
        var q :| q in c.procs && Owns(c.procs[q].pc) && KeyOf(c.procs[q].request) == key;
        assert after.procs[q] == c.procs[q];
      }
    }
    forall p, q | p in after.procs && q in after.procs && Owns(after.procs[p].pc) && Owns(after.procs[q].pc)
                  && KeyOf(after.procs[p].request) == KeyOf(after.procs[q].request) ensures p == q {
      if p != pid { assert ProcSound(c.ledger, c.procs[p]); }
      if q != pid { assert ProcSound(c.ledger, c.procs[q]); }
    }
  }

  /** The executor starts for a process: its key has never been started, and it moves past the point of starting. */
  lemma StartMove(c: Core, pid: Pid)
    requires Sound(c) && pid in c.procs && c.procs[pid].pc.ToStart?
    ensures var p := c.procs[pid];
            NotStarted(c.started, KeyOf(p.request))
            && Sound(Core(c.ledger, c.procs[pid := Proc(p.request, Running(p.pc.binding))],
                          c.started + [Execution(p.request, p.pc.workspace, p.pc.withCredential)]))
  {
    var p := c.procs[pid];
    assert ProcSound(c.ledger, p);
    QuietMove(c, pid, Running(p.pc.binding));
    var procs := c.procs[pid := Proc(p.request, Running(p.pc.binding))];
    forall q | q in procs && BeforeStart(procs[q].pc)
      ensures NotStarted(c.started + [Execution(p.request, p.pc.workspace, p.pc.withCredential)], KeyOf(procs[q].request))
    {
      assert Owns(procs[q].pc) && Owns(c.procs[pid].pc) && q != pid;
    }
    RowsOwnedAnyway(Core(c.ledger, procs, c.started), c.started + [Execution(p.request, p.pc.workspace, p.pc.withCredential)]);
  }

  lemma RowsOwnedAnyway(c: Core, started: seq<Execution>)
    requires RowsOwned(c)
    ensures RowsOwned(c.(started := started))
  {
    forall key | key in c.ledger ensures HasOwner(c.(started := started), key) {
      assert HasOwner(c, key);
    }
  }

  /** An owner stores its observation and is answered with it. */
  lemma CompleteMove(c: Core, pid: Pid)
    requires Sound(c) && pid in c.procs && c.procs[pid].pc.ToComplete?
    ensures var p := c.procs[pid];
            var key := KeyOf(p.request);
            && key in c.ledger && c.ledger[key].response.None?
            && c.ledger[key].digest == DigestOf(p.request, p.pc.binding)
            && Sound(Core(c.ledger[key := Row(DigestOf(p.request, p.pc.binding), Some(p.pc.response))],
                          c.procs[pid := Proc(p.request, Ended(Stored(p.pc.response, p.pc.raised), true))], c.started))
  {
    var p := c.procs[pid];
    var key := KeyOf(p.request);
    assert ProcSound(c.ledger, p);
    var after := Core(c.ledger[key := Row(DigestOf(p.request, p.pc.binding), Some(p.pc.response))],
                      c.procs[pid := Proc(p.request, Ended(Stored(p.pc.response, p.pc.raised), true))], c.started);
    forall q | q in after.procs ensures ProcSound(after.ledger, after.procs[q]) {
      if q != pid {
        assert ProcSound(c.ledger, c.procs[q]);
        if Owns(c.procs[q].pc) { assert KeyOf(c.procs[q].request) != key; }
      }
    }
    forall k | k in after.ledger ensures HasOwner(after, k) {
      assert HasOwner(c, k);
      var q :| q in c.procs && Owns(c.procs[q].pc) && KeyOf(c.procs[q].request) == k;
      assert Owns(after.procs[q].pc);
    }
  }

  // ---------------------------------------------------------------- every step

  lemma ClaimKeepsSound(s: State, pid: Pid)
    requires Sound(CoreOf(s)) && pid in s.procs && s.procs[pid].pc.ToClaim?
    ensures Sound(CoreOf(AfterClaim(s, pid)))
  {
    var c, p := CoreOf(s), s.procs[pid];
    if KeyOf(p.request) !in s.ledger {
      ClaimMove(c, pid, p.pc.binding);
    } else {
      QuietMove(c, pid, Claiming(s.ledger, p.request, p.pc.binding));
    }
  }

  lemma AdvanceKeepsSound(br: Broker, s: State, pid: Pid, op: Operation)
    requires Sound(CoreOf(s)) && pid in s.procs
    ensures Sound(CoreOf(Advanced(br, s, pid, op)))
  {
    var c, p := CoreOf(s), s.procs[pid];
    var after := Advanced(br, s, pid, op);
    assert ProcSound(c.ledger, p);
    if after == s {
    } else if op.TakeClaim? {
      ClaimKeepsSound(s, pid);
    } else if op.Start? {
      StartMove(c, pid);
    } else if op.CompleteCall? {
      CompleteMove(c, pid);
    } else {
      QuietOperation(br, s, pid, op);
      QuietMove(c, pid, after.procs[pid].pc);
    }
  }

  /** Only the process moved, and what it owns it still owns. */
  predicate IsQuiet(s: State, t: State, pid: Pid)
    requires pid in s.procs
  {
    var p := s.procs[pid];
    && t.ledger == s.ledger && t.started == s.started && pid in t.procs
    && t.procs == s.procs[pid := Proc(p.request, t.procs[pid].pc)]
    && Owns(t.procs[pid].pc) == Owns(p.pc) && (BeforeStart(t.procs[pid].pc) ==> BeforeStart(p.pc))
    && ProcSound(s.ledger, Proc(p.request, t.procs[pid].pc))
  }

  /** The operations, by where they come in a call. */
  datatype Phase = Opening | Checking | Acting | Closing

  function PhaseOf(op: Operation): Phase {
    if op.TakeClaim? || op.Check? then Opening
    else if op.CheckAuthorization? || op.ReadWorkspace? || op.TakeCredential? then Checking
    else if op.RaiseInterrupt? || op.Start? || op.Finish? then Acting
    else Closing
  }

  lemma QuietOperationOpening(br: Broker, s: State, pid: Pid, op: Operation)
    requires PhaseOf(op) == Opening
    requires pid in s.procs && !op.TakeClaim? && !op.Start? && !op.CompleteCall?
    requires ProcSound(s.ledger, s.procs[pid])
    ensures IsQuiet(s, Advanced(br, s, pid, op), pid)
  {
  }

  lemma QuietOperationChecking(br: Broker, s: State, pid: Pid, op: Operation)
    requires PhaseOf(op) == Checking
    requires pid in s.procs && !op.TakeClaim? && !op.Start? && !op.CompleteCall?
    requires ProcSound(s.ledger, s.procs[pid])
    ensures IsQuiet(s, Advanced(br, s, pid, op), pid)
  {
  }

  lemma QuietOperationActing(br: Broker, s: State, pid: Pid, op: Operation)
    requires PhaseOf(op) == Acting
    requires pid in s.procs && !op.TakeClaim? && !op.Start? && !op.CompleteCall?
    requires ProcSound(s.ledger, s.procs[pid])
    ensures IsQuiet(s, Advanced(br, s, pid, op), pid)
  {
    if op.RaiseInterrupt? { QuietRaise(br, s, pid); }
  }

  lemma QuietOperationClosing(br: Broker, s: State, pid: Pid, op: Operation)
    requires PhaseOf(op) == Closing
    requires pid in s.procs && !op.TakeClaim? && !op.Start? && !op.CompleteCall?
    requires ProcSound(s.ledger, s.procs[pid])
    ensures IsQuiet(s, Advanced(br, s, pid, op), pid)
  {
  }

  lemma QuietRaise(br: Broker, s: State, pid: Pid)
    requires pid in s.procs && ProcSound(s.ledger, s.procs[pid])
    ensures IsQuiet(s, Advanced(br, s, pid, RaiseInterrupt), pid)
  {
  }

  /** The other operations touch neither the ledger nor the executor, and leave an owner an owner of an open row. */
  lemma QuietOperation(br: Broker, s: State, pid: Pid, op: Operation)
    requires pid in s.procs && !op.TakeClaim? && !op.Start? && !op.CompleteCall?
    requires ProcSound(s.ledger, s.procs[pid])
    ensures IsQuiet(s, Advanced(br, s, pid, op), pid)
  {
    match PhaseOf(op)
    case Opening => QuietOperationOpening(br, s, pid, op);
    case Checking => QuietOperationChecking(br, s, pid, op);
    case Acting => QuietOperationActing(br, s, pid, op);
    case Closing => QuietOperationClosing(br, s, pid, op);
  }

  lemma StepKeepsSound(br: Broker, s: State, step: Step)
    requires Sound(CoreOf(s))
    ensures Sound(CoreOf(Next(br, s, step)))
  {
    if step.Begin? && step.pid !in s.procs {
      BeginMove(CoreOf(s), step.pid, Proc(step.request, Begun(br, s.bindings, step.request)));
    } else if step.Advance? && step.pid in s.procs {
      AdvanceKeepsSound(br, s, step.pid, step.operation);
    } else {
      assert CoreOf(Next(br, s, step)) == CoreOf(s);
    }
  }

  lemma {:induction false} RunKeepsSound(br: Broker, s: State, steps: seq<Step>)
    requires Sound(CoreOf(s))
    ensures Sound(CoreOf(Run(br, s, steps)))
    decreases |steps|
  {
    if steps != [] {
      StepKeepsSound(br, s, steps[0]);
      RunKeepsSound(br, Next(br, s, steps[0]), steps[1..]);
    }
  }

  /** The executor starts at most once per tool call, whatever calls, retries, cancellations and crashes happen. */
  lemma ExecutorStartsAtMostOnce(br: Broker, steps: seq<Step>)
    ensures StartsOnce(Run(br, EMPTY, steps).started)
  {
    RunKeepsSound(br, EMPTY, steps);
  }

  // ---------------------------------------------------------------- one observation per call

  /** Rows stay, keep their digest, and keep their observation once it is stored. */
  ghost predicate LedgerLater(a: Ledger, b: Ledger) {
    forall k :: k in a ==> k in b && b[k].digest == a[k].digest && (a[k].response.Some? ==> b[k] == a[k])
  }

  lemma {:induction false} RunIsLedgerLater(br: Broker, s: State, steps: seq<Step>)
    ensures LedgerLater(s.ledger, Run(br, s, steps).ledger)
    decreases |steps|
  {
    if steps != [] {
      StepIsLedgerLater(br, s, steps[0]);
      RunIsLedgerLater(br, Next(br, s, steps[0]), steps[1..]);
    }
  }

  lemma ClaimIsLedgerLater(s: State, pid: Pid)
    requires pid in s.procs && s.procs[pid].pc.ToClaim?
    ensures LedgerLater(s.ledger, AfterClaim(s, pid).ledger)
  {
  }

  lemma CompletionIsLedgerLater(s: State, pid: Pid)
    requires pid in s.procs && s.procs[pid].pc.ToComplete?
    ensures LedgerLater(s.ledger, AfterComplete(s, pid).ledger)
  {
  }

  /** No other operation touches the ledger. */
  lemma LedgerStays(br: Broker, s: State, pid: Pid, op: Operation)
    requires pid in s.procs && !op.TakeClaim? && !op.CompleteCall?
    ensures Advanced(br, s, pid, op).ledger == s.ledger
  {
  }

  lemma StepIsLedgerLater(br: Broker, s: State, step: Step)
    ensures LedgerLater(s.ledger, Next(br, s, step).ledger)
  {
    if step.Advance? && step.pid in s.procs {
      var pid := step.pid;
      if step.operation.TakeClaim? {
        if s.procs[pid].pc.ToClaim? { ClaimIsLedgerLater(s, pid); }
      } else if step.operation.CompleteCall? {
        if s.procs[pid].pc.ToComplete? { CompletionIsLedgerLater(s, pid); }
      } else {
        LedgerStays(br, s, pid, step.operation);
      }
    }
  }

  /** Once a tool call is completed, then after any further run a call that reaches the claim with the same digest is
      answered with exactly the stored observation, one with another digest is refused, and neither changes the ledger
      or reaches the executor. */
  lemma CompletedAnswersForever(br: Broker, s: State, steps: seq<Step>, pid: Pid, key: ToolCallKey)
    requires key in s.ledger && s.ledger[key].response.Some?
    requires var t := Run(br, s, steps); pid in t.procs && t.procs[pid].pc.ToClaim? && KeyOf(t.procs[pid].request) == key
    ensures var t := Run(br, s, steps);
            var after := Next(br, t, Advance(pid, TakeClaim));
            && after.ledger == t.ledger && after.started == t.started && after.interrupts == t.interrupts
            && after.procs[pid].pc == if DigestOf(t.procs[pid].request, t.procs[pid].pc.binding) == s.ledger[key].digest
                                      then Ended(Stored(s.ledger[key].response.value, false), false)
                                      else Ended(Errored(Interrupts.Conflict), false)
  {
    RunIsLedgerLater(br, s, steps);
  }

  /** All calls of one tool call key that were answered from the ledger, owner or retries, got the same observation. */
  lemma OneObservation(br: Broker, steps: seq<Step>, p: Pid, q: Pid)
    requires var t := Run(br, EMPTY, steps);
             && p in t.procs && q in t.procs && KeyOf(t.procs[p].request) == KeyOf(t.procs[q].request)
             && t.procs[p].pc.Ended? && t.procs[p].pc.reply.Stored? && t.procs[q].pc.Ended? && t.procs[q].pc.reply.Stored?
    ensures var t := Run(br, EMPTY, steps); t.procs[p].pc.reply.response == t.procs[q].pc.reply.response
  {
    var t := Run(br, EMPTY, steps);
    RunKeepsSound(br, EMPTY, steps);
    assert ProcSound(t.ledger, t.procs[p]) && ProcSound(t.ledger, t.procs[q]);
  }

  // ---------------------------------------------------------------- rows left executing

  /** Only the owner of a ledger row raises the interrupt of its key, and no owner is ever refused by the repository. */
  ghost predicate OwnersRaise(s: State) {
    && (forall k :: k in s.interrupts ==> k in s.ledger)
    && (forall tx :: tx in s.open ==> !s.open[tx].call.Raise?)
    && (forall p :: p in s.procs && BeforeStart(s.procs[p].pc) ==> KeyOf(s.procs[p].request) !in s.interrupts)
    && (forall p :: p in s.procs && s.procs[p].pc.Ended? && s.procs[p].pc.owned ==> !s.procs[p].pc.reply.Errored?)
  }

  lemma UsersRaiseNothing(rows: Interrupts.Interrupts, t: T.Transaction)
    requires !t.call.Raise?
    ensures T.After(rows, t).Keys == rows.Keys
  {
    match t.call
    case Reply(_, _, _, _, _) => case Close(_, _, _, _) => case Resume(_, _, _) =>
  }

  lemma RaiseKeepsOwners(s: State, pid: Pid)
    requires Sound(CoreOf(s)) && OwnersRaise(s) && pid in s.procs && s.procs[pid].pc.ToInterrupt?
    ensures OwnersRaise(AfterRaise(s, pid))
  {
    var p, t := s.procs[pid], AfterRaise(s, pid);
    assert ProcSound(s.ledger, p);
    assert KeyOf(p.request) !in s.interrupts;
    assert t.interrupts.Keys == s.interrupts.Keys + {KeyOf(p.request)};
    forall q | q in t.procs && BeforeStart(t.procs[q].pc) ensures KeyOf(t.procs[q].request) !in t.interrupts {
      assert q != pid && Owns(s.procs[q].pc) && Owns(p.pc);
    }
  }

  /** No interrupt changes, no ledger row goes, and a process that comes before its start owned its row or claimed it now. */
  predicate RaisesNothing(s: State, t: State, pid: Pid)
    requires pid in s.procs
  {
    && t.interrupts == s.interrupts && t.open == s.open && pid in t.procs
    && (forall k :: k in s.ledger ==> k in t.ledger)
    && t.procs[pid].request == s.procs[pid].request
    && (BeforeStart(t.procs[pid].pc) ==> BeforeStart(s.procs[pid].pc) || KeyOf(s.procs[pid].request) !in s.ledger)
    && (t.procs[pid].pc.Ended? && t.procs[pid].pc.owned && t.procs[pid].pc.reply.Errored? ==> t.procs[pid] == s.procs[pid])
  }

  lemma OtherOperationsOpening(br: Broker, s: State, pid: Pid, op: Operation)
    requires PhaseOf(op) == Opening
    requires pid in s.procs && !op.RaiseInterrupt? && ProcSound(s.ledger, s.procs[pid])
    ensures RaisesNothing(s, Advanced(br, s, pid, op), pid)
  {
  }

  lemma OtherOperationsChecking(br: Broker, s: State, pid: Pid, op: Operation)
    requires PhaseOf(op) == Checking
    requires pid in s.procs && !op.RaiseInterrupt? && ProcSound(s.ledger, s.procs[pid])
    ensures RaisesNothing(s, Advanced(br, s, pid, op), pid)
  {
  }

  lemma OtherOperationsActing(br: Broker, s: State, pid: Pid, op: Operation)
    requires PhaseOf(op) == Acting
    requires pid in s.procs && !op.RaiseInterrupt? && ProcSound(s.ledger, s.procs[pid])
    ensures RaisesNothing(s, Advanced(br, s, pid, op), pid)
  {
  }

  lemma OtherOperationsClosing(br: Broker, s: State, pid: Pid, op: Operation)
    requires PhaseOf(op) == Closing
    requires pid in s.procs && !op.RaiseInterrupt? && ProcSound(s.ledger, s.procs[pid])
    ensures RaisesNothing(s, Advanced(br, s, pid, op), pid)
  {
  }

  /** No other operation raises an interrupt, refuses an owner, or takes a process back before the start, except to claim. */
  lemma OtherOperations(br: Broker, s: State, pid: Pid, op: Operation)
    requires pid in s.procs && !op.RaiseInterrupt? && ProcSound(s.ledger, s.procs[pid])
    ensures RaisesNothing(s, Advanced(br, s, pid, op), pid)
  {
    match PhaseOf(op)
    case Opening => OtherOperationsOpening(br, s, pid, op);
    case Checking => OtherOperationsChecking(br, s, pid, op);
    case Acting => OtherOperationsActing(br, s, pid, op);
    case Closing => OtherOperationsClosing(br, s, pid, op);
  }

  lemma AdvanceKeepsOwners(br: Broker, s: State, pid: Pid, op: Operation)
    requires Sound(CoreOf(s)) && OwnersRaise(s) && pid in s.procs
    ensures OwnersRaise(Advanced(br, s, pid, op))
  {
    assert ProcSound(s.ledger, s.procs[pid]);
    if op.RaiseInterrupt? {
      if s.procs[pid].pc.ToInterrupt? { RaiseKeepsOwners(s, pid); }
    } else {
      OtherOperations(br, s, pid, op);
      OthersStay(br, s, pid, op);
      QuietKeepsOwners(s, Advanced(br, s, pid, op), pid);
    }
  }

  lemma QuietKeepsOwners(s: State, t: State, pid: Pid)
    requires OwnersRaise(s) && pid in s.procs && RaisesNothing(s, t, pid) && OnlyMoves(s, t, pid)
    ensures OwnersRaise(t)
  {
  }

  lemma OutsideKeepsOwners(br: Broker, s: State, step: Step)
    requires OwnersRaise(s) && !step.Advance?
    ensures OwnersRaise(Next(br, s, step))
  {
    match step
    case Register(_) =>
    case Begin(pid, r) => BeginKeepsOwners(br, s, pid, r);
    case UserRead(_, _) =>
    case UserEnd(tx) => if tx in s.open { UserEndKeepsOwners(br, s, tx); }
  }

  lemma BeginKeepsOwners(br: Broker, s: State, pid: Pid, r: Request)
    requires OwnersRaise(s)
    ensures OwnersRaise(Next(br, s, Begin(pid, r)))
  {
  }

  lemma UserEndKeepsOwners(br: Broker, s: State, tx: T.TxId)
    requires OwnersRaise(s) && tx in s.open
    ensures OwnersRaise(Next(br, s, UserEnd(tx)))
  {
    UsersRaiseNothing(s.interrupts, s.open[tx]);
  }

  lemma StepKeepsOwners(br: Broker, s: State, step: Step)
    requires Sound(CoreOf(s)) && OwnersRaise(s)
    ensures OwnersRaise(Next(br, s, step))
  {
    if step.Advance? {
      if step.pid in s.procs { AdvanceKeepsOwners(br, s, step.pid, step.operation); }
    } else {
      OutsideKeepsOwners(br, s, step);
    }
  }

  lemma {:induction false} RunKeepsOwners(br: Broker, s: State, steps: seq<Step>)
    requires Sound(CoreOf(s)) && OwnersRaise(s)
    ensures OwnersRaise(Run(br, s, steps))
    decreases |steps|
  {
    if steps != [] {
      StepKeepsOwners(br, s, steps[0]);
      StepKeepsSound(br, s, steps[0]);
      RunKeepsOwners(br, Next(br, s, steps[0]), steps[1..]);
    }
  }

  /** Every process has ended. */
  predicate Quiescent(s: State) { forall p :: p in s.procs ==> s.procs[p].pc.Ended? }

  /** The call claimed its row, and ended in a rejection that it did not store, or died. */
  predicate Abandoned(p: Proc) { p.pc.Ended? && p.pc.owned && (p.pc.reply.Unstored? || p.pc.reply.Crashed?) }

  /** At rest, a row still says executing, and answers every retry "in progress", exactly when the call that claimed it was
      rejected without storing that, or died. Nothing the repository can refuse leaves a row so. */
  lemma ExecutingIff(br: Broker, steps: seq<Step>, key: ToolCallKey)
    requires Quiescent(Run(br, EMPTY, steps)) && key in Run(br, EMPTY, steps).ledger
    ensures var t := Run(br, EMPTY, steps);
            t.ledger[key].response.None? <==> exists p :: p in t.procs && KeyOf(t.procs[p].request) == key && Abandoned(t.procs[p])
  {
    var t := Run(br, EMPTY, steps);
    RunKeepsSound(br, EMPTY, steps);
    RunKeepsOwners(br, EMPTY, steps);
    assert HasOwner(CoreOf(t), key);
    var owner :| owner in t.procs && Owns(t.procs[owner].pc) && KeyOf(t.procs[owner].request) == key;
    assert ProcSound(t.ledger, t.procs[owner]);
    OwnedRepliesAre(br, EMPTY, steps, owner);
    if p :| p in t.procs && KeyOf(t.procs[p].request) == key && Abandoned(t.procs[p]) {
      assert ProcSound(t.ledger, t.procs[p]);
    }
  }

  predicate OwnedReply(p: Proc) { p.pc.Ended? && p.pc.owned ==> !p.pc.reply.Direct? }

  lemma StepKeepsReplies(br: Broker, s: State, step: Step)
    requires forall p :: p in s.procs ==> OwnedReply(s.procs[p])
    ensures forall p :: p in Next(br, s, step).procs ==> OwnedReply(Next(br, s, step).procs[p])
  {
    if step.Advance? && step.pid in s.procs {
      OthersStay(br, s, step.pid, step.operation);
      AdvanceReplies(br, s, step.pid, step.operation);
    }
  }

  lemma AdvanceRepliesOpening(br: Broker, s: State, pid: Pid, op: Operation)
    requires PhaseOf(op) == Opening
    requires pid in s.procs && OwnedReply(s.procs[pid])
    ensures pid in Advanced(br, s, pid, op).procs && OwnedReply(Advanced(br, s, pid, op).procs[pid])
  {
  }

  lemma AdvanceRepliesChecking(br: Broker, s: State, pid: Pid, op: Operation)
    requires PhaseOf(op) == Checking
    requires pid in s.procs && OwnedReply(s.procs[pid])
    ensures pid in Advanced(br, s, pid, op).procs && OwnedReply(Advanced(br, s, pid, op).procs[pid])
  {
  }

  lemma AdvanceRepliesActing(br: Broker, s: State, pid: Pid, op: Operation)
    requires PhaseOf(op) == Acting
    requires pid in s.procs && OwnedReply(s.procs[pid])
    ensures pid in Advanced(br, s, pid, op).procs && OwnedReply(Advanced(br, s, pid, op).procs[pid])
  {
  }

  lemma AdvanceRepliesClosing(br: Broker, s: State, pid: Pid, op: Operation)
    requires PhaseOf(op) == Closing
    requires pid in s.procs && OwnedReply(s.procs[pid])
    ensures pid in Advanced(br, s, pid, op).procs && OwnedReply(Advanced(br, s, pid, op).procs[pid])
  {
  }

  lemma AdvanceReplies(br: Broker, s: State, pid: Pid, op: Operation)
    requires pid in s.procs && OwnedReply(s.procs[pid])
    ensures pid in Advanced(br, s, pid, op).procs && OwnedReply(Advanced(br, s, pid, op).procs[pid])
  {
    match PhaseOf(op)
    case Opening => AdvanceRepliesOpening(br, s, pid, op);
    case Checking => AdvanceRepliesChecking(br, s, pid, op);
    case Acting => AdvanceRepliesActing(br, s, pid, op);
    case Closing => AdvanceRepliesClosing(br, s, pid, op);
  }

  /** An owner is never answered directly. */
  lemma {:induction false} OwnedRepliesAre(br: Broker, s: State, steps: seq<Step>, pid: Pid)
    requires forall p :: p in s.procs ==> OwnedReply(s.procs[p])
    ensures pid in Run(br, s, steps).procs ==> OwnedReply(Run(br, s, steps).procs[pid])
    decreases |steps|
  {
    if steps != [] {
      StepKeepsReplies(br, s, steps[0]);
      OwnedRepliesAre(br, Next(br, s, steps[0]), steps[1..], pid);
    }
  }

  /** The rejections that are not stored: of an unknown tool, and of a cost without confirmation. */
  predicate RejectsUnstored(br: Broker, s: State, pid: Pid)
    requires pid in s.procs
  {
    var p := s.procs[pid];
    || (p.pc.ToCheck? && p.request.tool !in br.tools)
    || (p.pc.ToCheckAuthorization? && p.request.tool in br.tools
        && br.tools[p.request.tool].hasCost && !br.tools[p.request.tool].confirmationRequired
        && !Interrupts.GrantedBy(s.interrupts, Interrupts.AuthorizationRequired, p.request.run, p.request.tool))
  }

  predicate EndsUnstored(s: State, pid: Pid) {
    pid in s.procs && s.procs[pid].pc.Ended? && s.procs[pid].pc.reply.Unstored?
  }

  /** A claimed call ends in a rejection that is not stored exactly when its tool is unknown, or has a cost, asks for no
      confirmation, and neither query found a grant. The row then says executing for good. */
  lemma RejectedUnstoredIff(br: Broker, s: State, pid: Pid, op: Operation, steps: seq<Step>)
    requires Sound(CoreOf(s)) && pid in s.procs && Owns(s.procs[pid].pc) && !s.procs[pid].pc.Ended?
    requires s.procs[pid].request.tool in br.tools || s.procs[pid].pc.ToCheck?
    requires (op.Check? <==> s.procs[pid].pc.ToCheck?) && (op.CheckAuthorization? <==> s.procs[pid].pc.ToCheckAuthorization?)
    ensures var key := KeyOf(s.procs[pid].request);
            var t := Next(br, s, Advance(pid, op));
            && (EndsUnstored(t, pid) <==> RejectsUnstored(br, s, pid))
            && (RejectsUnstored(br, s, pid) ==>
                  var u := Run(br, t, steps); key in u.ledger && u.ledger[key].response.None?)
  {
    var t := Next(br, s, Advance(pid, op));
    StepKeepsSound(br, s, Advance(pid, op));
    UnstoredIff(br, s, pid, op);
    if RejectsUnstored(br, s, pid) { EndedStaysOpen(br, t, pid, steps); }
  }

  predicate MovesUnstoredIff(br: Broker, s: State, pid: Pid, p: Proc)
    requires pid in s.procs
  {
    && p.request == s.procs[pid].request
    && (p.pc.Ended? && p.pc.reply.Unstored? <==> RejectsUnstored(br, s, pid))
    && (p.pc.Ended? ==> p.pc.owned)
  }

  lemma UnstoredIffOpening(br: Broker, s: State, pid: Pid, op: Operation)
    requires PhaseOf(op) == Opening
    requires pid in s.procs && Owns(s.procs[pid].pc) && !s.procs[pid].pc.Ended?
    requires s.procs[pid].request.tool in br.tools || s.procs[pid].pc.ToCheck?
    requires (op.Check? <==> s.procs[pid].pc.ToCheck?) && (op.CheckAuthorization? <==> s.procs[pid].pc.ToCheckAuthorization?)
    ensures MovesUnstoredIff(br, s, pid, Next(br, s, Advance(pid, op)).procs[pid])
  {
  }

  lemma UnstoredIffChecking(br: Broker, s: State, pid: Pid, op: Operation)
    requires PhaseOf(op) == Checking
    requires pid in s.procs && Owns(s.procs[pid].pc) && !s.procs[pid].pc.Ended?
    requires s.procs[pid].request.tool in br.tools || s.procs[pid].pc.ToCheck?
    requires (op.Check? <==> s.procs[pid].pc.ToCheck?) && (op.CheckAuthorization? <==> s.procs[pid].pc.ToCheckAuthorization?)
    ensures MovesUnstoredIff(br, s, pid, Next(br, s, Advance(pid, op)).procs[pid])
  {
  }

  lemma UnstoredIffActing(br: Broker, s: State, pid: Pid, op: Operation)
    requires PhaseOf(op) == Acting
    requires pid in s.procs && Owns(s.procs[pid].pc) && !s.procs[pid].pc.Ended?
    requires s.procs[pid].request.tool in br.tools || s.procs[pid].pc.ToCheck?
    requires (op.Check? <==> s.procs[pid].pc.ToCheck?) && (op.CheckAuthorization? <==> s.procs[pid].pc.ToCheckAuthorization?)
    ensures MovesUnstoredIff(br, s, pid, Next(br, s, Advance(pid, op)).procs[pid])
  {
  }

  lemma UnstoredIffClosing(br: Broker, s: State, pid: Pid, op: Operation)
    requires PhaseOf(op) == Closing
    requires pid in s.procs && Owns(s.procs[pid].pc) && !s.procs[pid].pc.Ended?
    requires s.procs[pid].request.tool in br.tools || s.procs[pid].pc.ToCheck?
    requires (op.Check? <==> s.procs[pid].pc.ToCheck?) && (op.CheckAuthorization? <==> s.procs[pid].pc.ToCheckAuthorization?)
    ensures MovesUnstoredIff(br, s, pid, Next(br, s, Advance(pid, op)).procs[pid])
  {
  }

  lemma UnstoredIff(br: Broker, s: State, pid: Pid, op: Operation)
    requires pid in s.procs && Owns(s.procs[pid].pc) && !s.procs[pid].pc.Ended?
    requires s.procs[pid].request.tool in br.tools || s.procs[pid].pc.ToCheck?
    requires (op.Check? <==> s.procs[pid].pc.ToCheck?) && (op.CheckAuthorization? <==> s.procs[pid].pc.ToCheckAuthorization?)
    ensures MovesUnstoredIff(br, s, pid, Next(br, s, Advance(pid, op)).procs[pid])
  {
    match PhaseOf(op)
    case Opening => UnstoredIffOpening(br, s, pid, op);
    case Checking => UnstoredIffChecking(br, s, pid, op);
    case Acting => UnstoredIffActing(br, s, pid, op);
    case Closing => UnstoredIffClosing(br, s, pid, op);
  }

  // ---------------------------------------------------------------- such a run

  const BINDING := Interrupts.Binding(1, 1, 1, 1, 1, 1, 1, 1, 1)
  const UNKNOWN := Request(1, 1, "unknown", "", 1, 1, 1, 1, Interrupts.ToolCallKey(1, 1))

  /** From the empty repository: a call of a tool that the broker does not have is rejected, its retry is told "in
      progress", and so is every later one. */
  lemma UnknownToolNeverAnswers(br: Broker)
    requires br.manifest == 1 && "unknown" !in br.tools
    ensures var steps := [Register(BINDING), Begin(1, UNKNOWN), Advance(1, TakeClaim), Advance(1, Check), Begin(2, UNKNOWN),
                          Advance(2, TakeClaim)];
            var t := Run(br, EMPTY, steps);
            && t.procs.Keys == {1, 2}
            && t.procs[1].pc == Ended(Unstored(Rejected("tool not authorized")), true)
            && t.procs[2].pc == Ended(Direct(InProgress), false)
            && t.ledger == map[KeyOf(UNKNOWN) := Row(DigestOf(UNKNOWN, BINDING), None)]
  {
    var first := [Register(BINDING), Begin(1, UNKNOWN), Advance(1, TakeClaim)];
    var second := [Advance(1, Check), Begin(2, UNKNOWN), Advance(2, TakeClaim)];
    assert first + second == [Register(BINDING), Begin(1, UNKNOWN), Advance(1, TakeClaim), Advance(1, Check), Begin(2, UNKNOWN),
                              Advance(2, TakeClaim)];
    var claimed := State(map[1 := BINDING], map[KeyOf(UNKNOWN) := Row(DigestOf(UNKNOWN, BINDING), None)], map[], map[], {},
                         map[1 := Proc(UNKNOWN, ToCheck(BINDING))], [], map[]);
    ThreeSteps(br, EMPTY, first, second);
    assert Next(br, Next(br, Next(br, EMPTY, first[0]), first[1]), first[2]) == claimed;
    assert second + [] == second;
    ThreeSteps(br, claimed, second, []);
  }

  lemma ThreeSteps(br: Broker, s: State, steps: seq<Step>, rest: seq<Step>)
    requires |steps| == 3
    ensures Run(br, s, steps + rest) == Run(br, Next(br, Next(br, Next(br, s, steps[0]), steps[1]), steps[2]), rest)
  {
    var all := steps + rest;
    assert all[1..][1..][1..] == rest;
    assert all[1..][0] == steps[1] && all[1..][1..][0] == steps[2];
    assert Run(br, s, all) == Run(br, Next(br, s, steps[0]), all[1..]);
    assert Run(br, Next(br, s, steps[0]), all[1..]) == Run(br, Next(br, Next(br, s, steps[0]), steps[1]), all[1..][1..]);
  }

  predicate OnlyMoves(s: State, t: State, pid: Pid) {
    t.procs.Keys == s.procs.Keys && forall q :: q in s.procs && q != pid ==> t.procs[q] == s.procs[q]
  }

  lemma OthersStayOpening(br: Broker, s: State, pid: Pid, op: Operation)
    requires PhaseOf(op) == Opening
    requires pid in s.procs
    ensures OnlyMoves(s, Advanced(br, s, pid, op), pid)
  {
  }

  lemma OthersStayChecking(br: Broker, s: State, pid: Pid, op: Operation)
    requires PhaseOf(op) == Checking
    requires pid in s.procs
    ensures OnlyMoves(s, Advanced(br, s, pid, op), pid)
  {
  }

  lemma OthersStayActing(br: Broker, s: State, pid: Pid, op: Operation)
    requires PhaseOf(op) == Acting
    requires pid in s.procs
    ensures OnlyMoves(s, Advanced(br, s, pid, op), pid)
  {
  }

  lemma OthersStayClosing(br: Broker, s: State, pid: Pid, op: Operation)
    requires PhaseOf(op) == Closing
    requires pid in s.procs
    ensures OnlyMoves(s, Advanced(br, s, pid, op), pid)
  {
  }

  lemma OthersStay(br: Broker, s: State, pid: Pid, op: Operation)
    requires pid in s.procs
    ensures OnlyMoves(s, Advanced(br, s, pid, op), pid)
  {
    match PhaseOf(op)
    case Opening => OthersStayOpening(br, s, pid, op);
    case Checking => OthersStayChecking(br, s, pid, op);
    case Acting => OthersStayActing(br, s, pid, op);
    case Closing => OthersStayClosing(br, s, pid, op);
  }

  lemma EndedDoesNothing(br: Broker, s: State, pid: Pid, op: Operation)
    requires pid in s.procs && s.procs[pid].pc.Ended?
    ensures Advanced(br, s, pid, op) == s
  {
    match op
    case TakeClaim => case Check => case CheckAuthorization => case ReadWorkspace(_) => case TakeCredential(_) => case RaiseInterrupt =>
    case Start => case Finish(_) => case CompleteCall => case Crash =>
  }

  lemma EndedStays(br: Broker, s: State, step: Step, pid: Pid)
    requires pid in s.procs && s.procs[pid].pc.Ended?
    ensures pid in Next(br, s, step).procs && Next(br, s, step).procs[pid] == s.procs[pid]
  {
    if step.Advance? && step.pid in s.procs {
      OthersStay(br, s, step.pid, step.operation);
      if step.pid == pid { EndedDoesNothing(br, s, pid, step.operation); }
    } else {
      match step
      case Register(_) => case Begin(_, _) => case UserRead(_, _) => case UserEnd(_) => case Advance(_, _) =>
    }
  }

  /** The call claimed its row and ended without storing an observation. */
  predicate LeftOpen(p: Proc) { p.pc.Ended? && p.pc.owned && !p.pc.reply.Stored? }

  lemma {:induction false} EndedStaysOpen(br: Broker, s: State, pid: Pid, steps: seq<Step>)
    requires Sound(CoreOf(s)) && pid in s.procs && LeftOpen(s.procs[pid])
    ensures var u := Run(br, s, steps);
            KeyOf(s.procs[pid].request) in u.ledger && u.ledger[KeyOf(s.procs[pid].request)].response.None?
    decreases |steps|
  {
    if steps == [] {
      assert ProcSound(s.ledger, s.procs[pid]);
    } else {
      StepKeepsSound(br, s, steps[0]);
      EndedStays(br, s, steps[0], pid);
      EndedStaysOpen(br, Next(br, s, steps[0]), pid, steps[1..]);
    }
  }
}
