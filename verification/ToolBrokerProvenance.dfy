/** Whenever the executor starts a tool that needs confirmation or has a cost, the user confirmed that tool: a chain of
    answered interrupts leads from the run back to the confirmation. */
module ToolBrokerProvenance {
  import opened Common
  import I = Interrupts
  import T = InterruptTransactions
  import opened ToolLedger
  import opened ToolBrokerSteps

  type Bindings = set<(ToolCallKey, RunId)>

  /** Run after run back to the user's own confirmation: the first interrupt asked to confirm the tool, every later one
      asked for authorization with that confirmation granted, each was answered, and each answer was bound to the run in
      which the next interrupt was raised; the last one was bound to the given run. */
  ghost predicate Linked(rows: I.Interrupts, bound: Bindings, chain: seq<ToolCallKey>, run: RunId, tool: ToolName) {
    && chain != []
    && (forall i :: 0 <= i < |chain| ==>
          chain[i] in rows && rows[chain[i]].status == I.Responded && rows[chain[i]].payload.toolName == Some(tool))
    && rows[chain[0]].kind == I.AwaitingConfirmation
    && (forall i :: 1 <= i < |chain| ==>
          rows[chain[i]].kind == I.AuthorizationRequired && rows[chain[i]].payload.confirmationGranted == Some(true)
          && (chain[i - 1], rows[chain[i]].run) in bound)
    && (chain[|chain| - 1], run) in bound
  }

  /** The tool was confirmed for the run. */
  ghost predicate Confirmed(rows: I.Interrupts, bound: Bindings, run: RunId, tool: ToolName) {
    exists chain :: Linked(rows, bound, chain, run, tool)
  }

  /** What every transaction, overtaken or not, leaves of the rows that confirm: they stay, answered, as they were raised. */
  predicate Stays(a: I.Interrupt, b: I.Interrupt) {
    && b.run == a.run && b.kind == a.kind && b.payload == a.payload
    && (a.kind != I.Form && a.status == I.Responded ==> b.status == I.Responded)
  }

  ghost predicate AllStay(a: I.Interrupts, b: I.Interrupts) { forall k :: k in a ==> k in b && Stays(a[k], b[k]) }

  lemma ConfirmedStays(a: I.Interrupts, x: Bindings, b: I.Interrupts, y: Bindings, run: RunId, tool: ToolName)
    requires AllStay(a, b) && x <= y && Confirmed(a, x, run, tool)
    ensures Confirmed(b, y, run, tool)
  {
    var chain :| Linked(a, x, chain, run, tool);
    assert forall i :: 0 <= i < |chain| ==> Stays(a[chain[i]], b[chain[i]]);
    assert Linked(b, y, chain, run, tool);
  }

  /** An interrupt that claims its tool was already confirmed is right. */
  ghost predicate ClaimBacked(rows: I.Interrupts, bound: Bindings, row: I.Interrupt) {
    row.kind == I.AuthorizationRequired && row.payload.confirmationGranted == Some(true) ==>
      row.payload.toolName.Some? && Confirmed(rows, bound, row.run, row.payload.toolName.value)
  }

  ghost predicate Backed(rows: I.Interrupts, bound: Bindings) {
    forall k :: k in rows ==> ClaimBacked(rows, bound, rows[k])
  }

  /** A resumed run that a row shows was bound. */
  predicate Shown(rows: I.Interrupts, bound: Bindings) {
    forall k :: k in rows && rows[k].resumedRun.Some? ==> (k, rows[k].resumedRun.value) in bound
  }

  /** The grant the broker reads is always backed by a chain. */
  lemma GrantedIsConfirmed(rows: I.Interrupts, bound: Bindings, kind: I.Kind, run: RunId, tool: ToolName)
    requires Backed(rows, bound) && Shown(rows, bound) && I.GrantedBy(rows, kind, run, tool)
    ensures Confirmed(rows, bound, run, tool)
  {
    var k :| k in rows && rows[k].kind == kind && I.Grants(rows[k], run, tool);
    if rows[k].kind == I.AwaitingConfirmation {
      assert Linked(rows, bound, [k], run, tool);
    } else {
      assert ClaimBacked(rows, bound, rows[k]);
      var chain :| Linked(rows, bound, chain, rows[k].run, tool);
      LinkOneMore(rows, bound, chain, k, run, tool);
    }
  }

  lemma LinkOneMore(
    rows: I.Interrupts, bound: Bindings, chain: seq<ToolCallKey>, k: ToolCallKey, run: RunId, tool: ToolName)
    requires k in rows && rows[k].kind != I.AwaitingConfirmation && I.Grants(rows[k], run, tool) && Shown(rows, bound)
    requires Linked(rows, bound, chain, rows[k].run, tool)
    ensures Linked(rows, bound, chain + [k], run, tool)
  {
  }

  // ---------------------------------------------------------------- transactions

  /** An interrupt that claims a confirmation is raised only where there is one. */
  ghost predicate Honest(rows: I.Interrupts, bound: Bindings, c: I.Call) {
    c.Raise? && c.kind == I.AuthorizationRequired && c.payload.confirmationGranted == Some(true) ==>
      c.payload.toolName.Some? && Confirmed(rows, bound, c.binding.run, c.payload.toolName.value)
  }

  lemma EndStays(rows: I.Interrupts, t: T.Transaction)
    requires T.Possible(rows, t)
    ensures AllStay(rows, T.After(rows, t))
  {
  }

  lemma EndShows(rows: I.Interrupts, bound: Bindings, t: T.Transaction)
    requires Shown(rows, bound)
    ensures Shown(T.After(rows, t), bound + T.Bound(rows, t))
  {
  }

  lemma EndKeepsBacked(rows: I.Interrupts, bound: Bindings, t: T.Transaction)
    requires T.Possible(rows, t) && Backed(rows, bound) && Honest(rows, bound, t.call)
    ensures Backed(T.After(rows, t), bound + T.Bound(rows, t))
  {
    var after, more := T.After(rows, t), bound + T.Bound(rows, t);
    EndStays(rows, t);
    forall k | k in after ensures ClaimBacked(after, more, after[k]) {
      var row := after[k];
      if row.kind == I.AuthorizationRequired && row.payload.confirmationGranted == Some(true) {
        if k in rows { assert Stays(rows[k], row) && ClaimBacked(rows, bound, rows[k]); }
        ConfirmedStays(rows, bound, after, more, row.run, row.payload.toolName.value);
      }
    }
  }

  // ---------------------------------------------------------------- the broker

  predicate Needs(br: Broker, tool: ToolName) {
    tool in br.tools && (br.tools[tool].confirmationRequired || br.tools[tool].hasCost)
  }

  /** What a process remembers about the grant was true, and it carries one when its tool needs one. */
  ghost predicate RemembersGrant(br: Broker, s: State, r: Request, granted: bool) {
    (Needs(br, r.tool) ==> granted) && (granted ==> Confirmed(s.interrupts, s.bound, r.run, r.tool))
  }

  ghost predicate ProcHonest(br: Broker, s: State, p: Proc) {
    && (!p.pc.Ended? ==> p.pc.binding.run == p.request.run)
    && match p.pc
       case ToReadWorkspace(_, _, granted) => RemembersGrant(br, s, p.request, granted)
       case ToTakeCredential(_, granted, _) => RemembersGrant(br, s, p.request, granted)
       case ToInterrupt(_, kind, granted) =>
         kind == I.AwaitingConfirmation || (kind == I.AuthorizationRequired && RemembersGrant(br, s, p.request, granted))
       case ToStart(_, _, _) => Needs(br, p.request.tool) ==> Confirmed(s.interrupts, s.bound, p.request.run, p.request.tool)
       case _ => true
  }

  ghost predicate StartConfirmed(br: Broker, s: State, e: Execution) {
    Needs(br, e.request.tool) ==> Confirmed(s.interrupts, s.bound, e.request.run, e.request.tool)
  }

  predicate BindingsSound(bindings: map<RunId, Binding>) {
    forall run :: run in bindings ==> bindings[run].run == run
  }

  ghost predicate TableSound(s: State) {
    && T.AllPossible(T.State(s.interrupts, s.open))
    && Backed(s.interrupts, s.bound) && Shown(s.interrupts, s.bound)
    && forall tx :: tx in s.open ==> !s.open[tx].call.Raise?
  }

  ghost predicate Sound(br: Broker, s: State) {
    && BindingsSound(s.bindings) && TableSound(s)
    && (forall p :: p in s.procs ==> ProcHonest(br, s, s.procs[p]))
    && (forall i :: 0 <= i < |s.started| ==> StartConfirmed(br, s, s.started[i]))
  }

  /** The state after a transaction, with what it bound. */
  function Ended_(s: State, t: T.Transaction): State {
    s.(interrupts := T.After(s.interrupts, t), bound := s.bound + T.Bound(s.interrupts, t))
  }

  lemma TableMove(s: State, t: T.Transaction)
    requires TableSound(s) && T.Possible(s.interrupts, t) && Honest(s.interrupts, s.bound, t.call)
    ensures TableSound(Ended_(s, t)) && AllStay(s.interrupts, Ended_(s, t).interrupts)
  {
    EndStays(s.interrupts, t);
    EndShows(s.interrupts, s.bound, t);
    EndKeepsBacked(s.interrupts, s.bound, t);
    T.EndKeepsPossible(s.interrupts, t, t);
    forall tx | tx in s.open ensures T.Possible(Ended_(s, t).interrupts, s.open[tx]) {
      T.EndKeepsPossible(s.interrupts, t, s.open[tx]);
    }
  }

  lemma HonestStays(br: Broker, s: State, t: State, p: Proc)
    requires AllStay(s.interrupts, t.interrupts) && s.bound <= t.bound && ProcHonest(br, s, p)
    ensures ProcHonest(br, t, p)
  {
    if Confirmed(s.interrupts, s.bound, p.request.run, p.request.tool) {
      ConfirmedStays(s.interrupts, s.bound, t.interrupts, t.bound, p.request.run, p.request.tool);
    }
  }

  /** The interrupt table moves on; everything known about confirmations stays true. */
  lemma RowsMove(br: Broker, s: State, t: T.Transaction)
    requires Sound(br, s) && T.Possible(s.interrupts, t) && Honest(s.interrupts, s.bound, t.call)
    ensures Sound(br, Ended_(s, t))
  {
    var u := Ended_(s, t);
    TableMove(s, t);
    forall p | p in s.procs ensures ProcHonest(br, u, s.procs[p]) { HonestStays(br, s, u, s.procs[p]); }
    forall i | 0 <= i < |s.started| ensures StartConfirmed(br, u, s.started[i]) {
      assert StartConfirmed(br, s, s.started[i]);
      if Needs(br, s.started[i].request.tool) {
        ConfirmedStays(s.interrupts, s.bound, u.interrupts, u.bound, s.started[i].request.run, s.started[i].request.tool);
      }
    }
  }

  /** Nothing that this is about changes. */
  lemma SameTable(br: Broker, s: State, t: State)
    requires Sound(br, s) && t.interrupts == s.interrupts && t.bound == s.bound
    requires BindingsSound(t.bindings) && t.started == s.started
    requires t.open.Keys <= s.open.Keys && forall tx :: tx in t.open ==> t.open[tx] == s.open[tx]
    requires forall p :: p in t.procs ==> ProcHonest(br, s, t.procs[p])
    ensures Sound(br, t)
  {
    assert forall p :: p in t.procs ==> ProcHonest(br, t, t.procs[p]);
    assert forall i :: 0 <= i < |s.started| ==> StartConfirmed(br, s, s.started[i]);
  }

  lemma PcMove(br: Broker, s: State, pid: Pid, pc: Pc)
    requires Sound(br, s) && pid in s.procs && ProcHonest(br, s, Proc(s.procs[pid].request, pc))
    ensures Sound(br, Moved(s, pid, pc))
  {
    SameTable(br, s, Moved(s, pid, pc));
  }

  lemma MeetMove(br: Broker, s: State, pid: Pid, e: Encounter, pc: Pc)
    requires Sound(br, s) && pid in s.procs && ProcHonest(br, s, Proc(s.procs[pid].request, pc))
    ensures Sound(br, Meets(s, pid, e, pc))
  {
    SameTable(br, s, Meets(s, pid, e, pc));
  }

  lemma LedgerMove(br: Broker, s: State, ledger: Ledger)
    requires Sound(br, s)
    ensures Sound(br, s.(ledger := ledger))
  {
    SameTable(br, s, s.(ledger := ledger));
  }

  lemma StartMove(br: Broker, s: State, pid: Pid)
    requires Sound(br, s) && pid in s.procs && s.procs[pid].pc.ToStart?
    ensures Sound(br, AfterStart(s, pid))
  {
    var p := s.procs[pid];
    assert ProcHonest(br, s, p);
    var e := Execution(p.request, p.pc.workspace, p.pc.withCredential);
    assert StartConfirmed(br, s, e);
    PcMove(br, s, pid, Running(p.pc.binding));
    var t := Moved(s, pid, Running(p.pc.binding));
    assert forall i :: 0 <= i < |s.started| ==> StartConfirmed(br, t, s.started[i]);
    assert AfterStart(s, pid) == t.(started := s.started + [e]);
    assert forall q :: q in t.procs ==> ProcHonest(br, t, t.procs[q]) ==> ProcHonest(br, AfterStart(s, pid), t.procs[q]);
    assert forall x :: StartConfirmed(br, t, x) ==> StartConfirmed(br, AfterStart(s, pid), x);
  }

  lemma RaiseMove(br: Broker, s: State, pid: Pid)
    requires Sound(br, s) && pid in s.procs && s.procs[pid].pc.ToInterrupt?
    ensures Sound(br, AfterRaise(s, pid))
  {
    var p := s.procs[pid];
    assert ProcHonest(br, s, p);
    var call := RaiseCall(p.request, p.pc);
    var t := T.Transaction(call, I.Get(s.interrupts, call.key));
    assert T.Possible(s.interrupts, t);
    RowsMove(br, s, t);
    assert s.bound + {} == s.bound;
    if I.Perform(s.interrupts, call).Raised? {
      PcMove(br, s, pid, Ended(Errored(I.Perform(s.interrupts, call).error), true));
    } else {
      PcMove(br, Ended_(s, t), pid, ToComplete(p.pc.binding, Suspension(p.request, p.pc.kind), false));
    }
  }

  /** The answer of the confirmation check is honest about the grant. */
  lemma CheckedIsHonest(br: Broker, s: State, r: Request, b: Binding)
    requires TableSound(s) && b.run == r.run
    ensures ProcHonest(br, s, Proc(r, Checked(br, s.interrupts, r, b)))
    ensures ProcHonest(br, s, Proc(r, CheckedAgain(br, s.interrupts, r, b)))
  {
    if I.GrantedBy(s.interrupts, I.AwaitingConfirmation, r.run, r.tool) {
      GrantedIsConfirmed(s.interrupts, s.bound, I.AwaitingConfirmation, r.run, r.tool);
    }
    if I.GrantedBy(s.interrupts, I.AuthorizationRequired, r.run, r.tool) {
      GrantedIsConfirmed(s.interrupts, s.bound, I.AuthorizationRequired, r.run, r.tool);
    }
  }

  lemma AdvanceKeepsSound(br: Broker, s: State, pid: Pid, op: Operation)
    requires Sound(br, s) && pid in s.procs
    ensures Sound(br, Advanced(br, s, pid, op))
  {
    var p := s.procs[pid];
    assert ProcHonest(br, s, p);
    match op
    case TakeClaim =>
      if p.pc.ToClaim? {
        var r := Claim(s.ledger, KeyOf(p.request), DigestOf(p.request, p.pc.binding));
        LedgerMove(br, s, if r.Done? then r.state else s.ledger);
        PcMove(br, if r.Done? then s.(ledger := r.state) else s, pid, Claiming(s.ledger, p.request, p.pc.binding));
      }
    case Check =>
      if p.pc.ToCheck? {
        CheckedIsHonest(br, s, p.request, p.pc.binding);
        PcMove(br, s, pid, Checked(br, s.interrupts, p.request, p.pc.binding));
      }
    case CheckAuthorization =>
      if p.pc.ToCheckAuthorization? {
        CheckedIsHonest(br, s, p.request, p.pc.binding);
        PcMove(br, s, pid, CheckedAgain(br, s.interrupts, p.request, p.pc.binding));
      }
    case ReadWorkspace(w) =>
      if p.pc.ToReadWorkspace? {
        MeetMove(br, s, pid, SawWorkspace(w), WorkspaceRead(p.request, p.pc.binding, p.pc.hasCost, p.pc.granted, w));
      }
    case TakeCredential(available) =>
      if p.pc.ToTakeCredential? {
        MeetMove(br, s, pid, SawCredential(available),
                 CredentialTaken(p.pc.binding, p.pc.granted, p.pc.workspace, available));
      }
    case RaiseInterrupt => if p.pc.ToInterrupt? { RaiseMove(br, s, pid); }
    case Start => if p.pc.ToStart? { StartMove(br, s, pid); }
    case Finish(ending) => if p.pc.Running? { MeetMove(br, s, pid, SawEnding(ending), Finished(p.pc.binding, ending)); }
    case CompleteCall => if p.pc.ToComplete? { CompleteMove(br, s, pid); }
    case Crash => if !p.pc.Ended? { PcMove(br, s, pid, Ended(Crashed, Owns(p.pc))); }
  }

  lemma CompleteMove(br: Broker, s: State, pid: Pid)
    requires Sound(br, s) && pid in s.procs && s.procs[pid].pc.ToComplete?
    ensures Sound(br, AfterComplete(s, pid))
  {
    var p := s.procs[pid];
    match Complete(s.ledger, KeyOf(p.request), DigestOf(p.request, p.pc.binding), p.pc.response)
    case Raised(e) => PcMove(br, s, pid, Ended(Errored(e), true));
    case Done(ledger, response) =>
      LedgerMove(br, s, ledger);
      PcMove(br, s.(ledger := ledger), pid, Ended(Stored(response, p.pc.raised), true));
  }

  lemma UserEndMove(br: Broker, s: State, tx: T.TxId)
    requires Sound(br, s) && tx in s.open
    ensures Sound(br, Next(br, s, UserEnd(tx)))
  {
    assert T.Possible(s.interrupts, s.open[tx]);
    RowsMove(br, s, s.open[tx]);
    var t := Ended_(s, s.open[tx]);
    SameTable(br, t, t.(open := s.open - {tx}));
  }

  lemma UserReadMove(br: Broker, s: State, tx: T.TxId, call: I.Call)
    requires Sound(br, s) && tx !in s.open && !call.Raise?
    ensures Sound(br, Next(br, s, UserRead(tx, call)))
  {
    var t := Next(br, s, UserRead(tx, call));
    assert T.Possible(s.interrupts, t.open[tx]);
    assert TableSound(t);
    assert forall p :: p in s.procs ==> ProcHonest(br, s, s.procs[p]) && ProcHonest(br, t, s.procs[p]);
    assert forall i :: 0 <= i < |s.started| ==> StartConfirmed(br, s, s.started[i]) && StartConfirmed(br, t, s.started[i]);
  }

  lemma StepKeepsSound(br: Broker, s: State, step: Step)
    requires Sound(br, s)
    ensures Sound(br, Next(br, s, step))
  {
    match step
    case Register(b) => SameTable(br, s, AfterRegister(s, b));
    case Begin(pid, r) =>
      if pid !in s.procs {
        assert ProcHonest(br, s, Proc(r, Begun(br, s.bindings, r)));
        SameTable(br, s, AfterBegin(br, s, pid, r));
      }
    case Advance(pid, op) => if pid in s.procs { AdvanceKeepsSound(br, s, pid, op); }
    case UserRead(tx, call) => if tx !in s.open && !call.Raise? { UserReadMove(br, s, tx, call); }
    case UserEnd(tx) => if tx in s.open { UserEndMove(br, s, tx); }
  }

  lemma {:induction false} RunKeepsSound(br: Broker, s: State, steps: seq<Step>)
    requires Sound(br, s)
    ensures Sound(br, Run(br, s, steps))
    decreases |steps|
  {
    if steps != [] {
      StepKeepsSound(br, s, steps[0]);
      RunKeepsSound(br, Next(br, s, steps[0]), steps[1..]);
    }
  }

  /** In every run, whatever calls, answers and crashes overlap, every start of a tool that needs confirmation or has a cost
      traces back, run by run, to an answered interrupt that asked the user to confirm that very tool. */
  lemma ExecutionsAreConfirmed(br: Broker, steps: seq<Step>)
    ensures var t := Run(br, EMPTY, steps);
            forall i :: 0 <= i < |t.started| && Needs(br, t.started[i].request.tool) ==>
              exists chain :: Linked(t.interrupts, t.bound, chain, t.started[i].request.run, t.started[i].request.tool)
  {
    RunKeepsSound(br, EMPTY, steps);
    var t := Run(br, EMPTY, steps);
    forall i | 0 <= i < |t.started| && Needs(br, t.started[i].request.tool)
      ensures exists chain :: Linked(t.interrupts, t.bound, chain, t.started[i].request.run, t.started[i].request.tool)
    {
      assert StartConfirmed(br, t, t.started[i]);
    }
  }
}
