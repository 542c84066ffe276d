/** What the ledger answers for a tool call is what its one owner met: the observation of its execution, or what kept it from
    executing. */
module ToolBrokerAnswers {
  import opened Common
  import I = Interrupts
  import T = InterruptTransactions
  import opened ToolLedger
  import opened ToolBrokerSteps
  import Once = ToolBrokerOnce
  import Guards = ToolBrokerGuards
  import Provenance = ToolBrokerProvenance

  /** A tool call as its ledger row has it, in its run's conversation. */
  datatype Subject = Subject(key: ToolCallKey, conversation: ConversationId, revision: int, tool: ToolName)

  function SubjectOf(r: Request, b: Binding): Subject { Subject(KeyOf(r), b.conversation, r.expectedRevision, r.tool) }

  function SubjectOfRow(key: ToolCallKey, row: Row, b: Binding): Subject {
    Subject(key, b.conversation, row.digest.expectedRevision, row.digest.tool)
  }

  /** The workspace is there, belongs to the conversation and has the expected revision. */
  predicate Fits(x: Subject, w: Option<Workspace>) {
    w.Some? && w.value.conversation == x.conversation && w.value.revision == x.revision
  }

  /** What an owner met when its execution may start: the right workspace, and a credential if it asked for one. */
  predicate Ready(x: Subject, met: seq<Encounter>) {
    && 1 <= |met| <= 2 && met[0].SawWorkspace? && Fits(x, met[0].workspace)
    && (|met| == 2 ==> met[1] == SawCredential(true))
  }

  /** The execution started and ended so. */
  predicate Ran(x: Subject, met: seq<Encounter>, started: seq<Execution>, ending: Ending) {
    |met| >= 2 && Ready(x, met[..|met| - 1]) && met[|met| - 1] == SawEnding(ending) && !Once.NotStarted(started, x.key)
  }

  /** The interrupt of the call's own key was raised, of that kind and for its tool; an authorization says that the tool was
      confirmed. */
  predicate AskedFor(interrupts: I.Interrupts, x: Subject, kind: I.Kind, tool: ToolName, interrupt: ToolCallKey) {
    && interrupt == x.key && tool == x.tool && x.key in interrupts
    && interrupts[x.key].kind == kind
    && interrupts[x.key].payload == I.Payload(Some(tool), if kind == I.AuthorizationRequired then Some(true) else None)
  }

  /** Why a call was answered so. */
  predicate Story(interrupts: I.Interrupts, started: seq<Execution>, x: Subject, met: seq<Encounter>, response: Response) {
    match response
    case Rejected(summary) =>
      && |met| == 1 && met[0].SawWorkspace? && !Fits(x, met[0].workspace) && Once.NotStarted(started, x.key)
      && summary == if met[0].workspace.Some? && met[0].workspace.value.conversation == x.conversation
                    then "workspace revision changed" else "workspace missing"
    case NeedsConfirmation(tool, interrupt) =>
      met == [] && AskedFor(interrupts, x, I.AwaitingConfirmation, tool, interrupt) && Once.NotStarted(started, x.key)
    case NeedsAuthorization(tool, interrupt) =>
      && |met| == 2 && Ready(x, met[..1]) && met[1] == SawCredential(false)
      && AskedFor(interrupts, x, I.AuthorizationRequired, tool, interrupt) && Once.NotStarted(started, x.key)
    case ToolCompleted(observation) => Ran(x, met, started, Observed(observation))
    case ToolFailed => Ran(x, met, started, Erred)
    case ToolCancelled => Ran(x, met, started, CancelledMidway)
    case InProgress => false
  }

  /** What an owner has met, by where it stands. */
  predicate OwnerTold(s: State, p: Proc) {
    if p.pc.Ended? then p.pc.owned && p.pc.reply.Stored? ==> p.pc.reply.raised == p.pc.reply.response.ToolCancelled?
    else
      var x, met := SubjectOf(p.request, p.pc.binding), Met(s, KeyOf(p.request));
      match p.pc
      case ToClaim(_) => true
      case ToCheck(_) => met == []
      case ToCheckAuthorization(_) => met == []
      case ToReadWorkspace(_, hasCost, granted) => met == [] && (hasCost ==> granted)
      case ToTakeCredential(_, granted, w) => granted && met == [SawWorkspace(Some(w))] && Ready(x, met)
      case ToInterrupt(_, kind, granted) =>
        if kind == I.AwaitingConfirmation then met == []
        else granted && kind == I.AuthorizationRequired && |met| == 2 && Ready(x, met[..1]) && met[1] == SawCredential(false)
      case ToStart(_, w, _) => Ready(x, met)
      case Running(_) => Ready(x, met) && !Once.NotStarted(s.started, x.key)
      case ToComplete(_, response, raised) =>
        Story(s.interrupts, s.started, x, met, response) && raised == response.ToolCancelled?
  }

  predicate RowTold(s: State, key: ToolCallKey) {
    && key in s.ledger && key.run in s.bindings
    && (s.ledger[key].response.Some? ==>
          Story(s.interrupts, s.started, SubjectOfRow(key, s.ledger[key], s.bindings[key.run]), Met(s, key),
                s.ledger[key].response.value))
  }

  ghost predicate Told(s: State) {
    && (forall p :: p in s.procs && Owns(s.procs[p].pc) ==> OwnerTold(s, s.procs[p]))
    && (forall key :: key in s.ledger ==> RowTold(s, key))
    && (forall key :: key in s.met ==> key in s.ledger)
  }

  /** All that this rests on. */
  ghost predicate Sound(br: Broker, s: State) {
    Once.Sound(Once.CoreOf(s)) && Guards.Guarded(br, s) && Provenance.Sound(br, s) && Once.OwnersRaise(s) && Told(s)
  }

  // ---------------------------------------------------------------- what stays

  /** For this key the step changed nothing that its story tells. */
  predicate SameFor(s: State, t: State, key: ToolCallKey) {
    && Met(t, key) == Met(s, key)
    && (Once.NotStarted(t.started, key) <==> Once.NotStarted(s.started, key))
    && (key in s.interrupts ==> key in t.interrupts && t.interrupts[key].kind == s.interrupts[key].kind
                                && t.interrupts[key].payload == s.interrupts[key].payload)
    && (key.run in s.bindings ==> key.run in t.bindings && t.bindings[key.run] == s.bindings[key.run])
  }

  lemma StoryStays(s: State, t: State, x: Subject, response: Response)
    requires SameFor(s, t, x.key) && Story(s.interrupts, s.started, x, Met(s, x.key), response)
    ensures Story(t.interrupts, t.started, x, Met(t, x.key), response)
  {
  }

  lemma OwnerStays(s: State, t: State, p: Proc)
    requires SameFor(s, t, KeyOf(p.request)) && OwnerTold(s, p)
    ensures OwnerTold(t, p)
  {
    if p.pc.ToComplete? { StoryStays(s, t, SubjectOf(p.request, p.pc.binding), p.pc.response); }
  }

  lemma RowStays(s: State, t: State, key: ToolCallKey)
    requires SameFor(s, t, key) && RowTold(s, key) && key in t.ledger && t.ledger[key] == s.ledger[key]
    ensures RowTold(t, key)
  {
    if s.ledger[key].response.Some? {
      StoryStays(s, t, SubjectOfRow(key, s.ledger[key], s.bindings[key.run]), s.ledger[key].response.value);
    }
  }

  // ---------------------------------------------------------------- one operation

  /** The operations that add to what is told about their own call. */
  predicate Tells(op: Operation) {
    op.ReadWorkspace? || op.TakeCredential? || op.Finish? || op.Start? || op.RaiseInterrupt?
  }

  lemma SnocStarts(started: seq<Execution>, e: Execution, key: ToolCallKey)
    ensures Once.NotStarted(started + [e], key) <==> Once.NotStarted(started, key) && KeyOf(e.request) != key
  {
    if Once.NotStarted(started + [e], key) {
      assert forall i :: 0 <= i < |started| ==> (started + [e])[i] == started[i];
      assert (started + [e])[|started|] == e;
    }
  }

  lemma StartSameFor(br: Broker, s: State, pid: Pid, key: ToolCallKey)
    requires pid in s.procs && key != KeyOf(s.procs[pid].request)
    ensures SameFor(s, Advanced(br, s, pid, Start), key)
  {
    if s.procs[pid].pc.ToStart? {
      var p := s.procs[pid];
      SnocStarts(s.started, Execution(p.request, p.pc.workspace, p.pc.withCredential), key);
    }
  }

  lemma RaiseSameFor(br: Broker, s: State, pid: Pid, key: ToolCallKey)
    requires pid in s.procs && key != KeyOf(s.procs[pid].request)
    ensures SameFor(s, Advanced(br, s, pid, RaiseInterrupt), key)
  {
  }

  lemma ClaimSameFor(br: Broker, s: State, pid: Pid, key: ToolCallKey)
    requires pid in s.procs
    ensures SameFor(s, Advanced(br, s, pid, TakeClaim), key)
  {
  }

  lemma CompleteSameFor(br: Broker, s: State, pid: Pid, key: ToolCallKey)
    requires pid in s.procs
    ensures SameFor(s, Advanced(br, s, pid, CompleteCall), key)
  {
  }

  lemma CrashSameFor(br: Broker, s: State, pid: Pid, key: ToolCallKey)
    requires pid in s.procs
    ensures SameFor(s, Advanced(br, s, pid, Crash), key)
  {
  }

  lemma CheckingSameFor(br: Broker, s: State, pid: Pid, op: Operation, key: ToolCallKey)
    requires pid in s.procs && (op.Check? || op.CheckAuthorization?)
    ensures SameFor(s, Advanced(br, s, pid, op), key)
  {
  }

  lemma MeetingSameFor(br: Broker, s: State, pid: Pid, op: Operation, key: ToolCallKey)
    requires pid in s.procs && (op.ReadWorkspace? || op.TakeCredential? || op.Finish?) && key != KeyOf(s.procs[pid].request)
    ensures SameFor(s, Advanced(br, s, pid, op), key)
  {
  }

  lemma AdvanceSameFor(br: Broker, s: State, pid: Pid, op: Operation, key: ToolCallKey)
    requires pid in s.procs && (Tells(op) ==> key != KeyOf(s.procs[pid].request))
    ensures SameFor(s, Advanced(br, s, pid, op), key)
  {
    match op
    case Start => StartSameFor(br, s, pid, key);
    case RaiseInterrupt => RaiseSameFor(br, s, pid, key);
    case TakeClaim => ClaimSameFor(br, s, pid, key);
    case CompleteCall => CompleteSameFor(br, s, pid, key);
    case Crash => CrashSameFor(br, s, pid, key);
    case Check => CheckingSameFor(br, s, pid, op, key);
    case CheckAuthorization => CheckingSameFor(br, s, pid, op, key);
    case ReadWorkspace(_) => MeetingSameFor(br, s, pid, op, key);
    case TakeCredential(_) => MeetingSameFor(br, s, pid, op, key);
    case Finish(_) => MeetingSameFor(br, s, pid, op, key);
  }

  lemma NotOwnersTellNothing(br: Broker, s: State, pid: Pid, op: Operation, key: ToolCallKey)
    requires pid in s.procs && !Owns(s.procs[pid].pc)
    ensures SameFor(s, Advanced(br, s, pid, op), key)
  {
    if Tells(op) {
      assert Advanced(br, s, pid, op) == s;
    } else {
      AdvanceSameFor(br, s, pid, op, key);
    }
  }

  lemma OtherOwnersStay(br: Broker, s: State, pid: Pid, op: Operation, q: Pid)
    requires Once.Sound(Once.CoreOf(s)) && Told(s) && pid in s.procs && q in s.procs && q != pid && Owns(s.procs[q].pc)
    ensures OwnerTold(Advanced(br, s, pid, op), s.procs[q])
  {
    if Owns(s.procs[pid].pc) {
      AdvanceSameFor(br, s, pid, op, KeyOf(s.procs[q].request));
    } else {
      NotOwnersTellNothing(br, s, pid, op, KeyOf(s.procs[q].request));
    }
    OwnerStays(s, Advanced(br, s, pid, op), s.procs[q]);
  }

  lemma ClaimTells(br: Broker, s: State, pid: Pid)
    requires Told(s) && pid in s.procs && s.procs[pid].pc.ToClaim?
    ensures var t := Advanced(br, s, pid, TakeClaim); Owns(t.procs[pid].pc) ==> OwnerTold(t, t.procs[pid])
  {
    assert KeyOf(s.procs[pid].request) !in s.ledger ==> Met(s, KeyOf(s.procs[pid].request)) == [];
  }

  lemma WorkspaceTells(br: Broker, s: State, pid: Pid, w: Option<Workspace>)
    requires Once.Sound(Once.CoreOf(s)) && pid in s.procs && s.procs[pid].pc.ToReadWorkspace? && OwnerTold(s, s.procs[pid])
    ensures var t := Advanced(br, s, pid, ReadWorkspace(w)); OwnerTold(t, t.procs[pid])
  {
    var t := Advanced(br, s, pid, ReadWorkspace(w));
    assert Met(t, KeyOf(s.procs[pid].request)) == [SawWorkspace(w)];
    assert Once.NotStarted(s.started, KeyOf(s.procs[pid].request));
  }

  lemma CredentialTells(br: Broker, s: State, pid: Pid, available: bool)
    requires pid in s.procs && s.procs[pid].pc.ToTakeCredential? && OwnerTold(s, s.procs[pid])
    ensures var t := Advanced(br, s, pid, TakeCredential(available)); OwnerTold(t, t.procs[pid])
  {
    var t, w := Advanced(br, s, pid, TakeCredential(available)), s.procs[pid].pc.workspace;
    var met := Met(t, KeyOf(s.procs[pid].request));
    assert met == [SawWorkspace(Some(w)), SawCredential(available)];
    assert met[..1] == [SawWorkspace(Some(w))];
  }

  lemma EndingTells(br: Broker, s: State, pid: Pid, ending: Ending)
    requires pid in s.procs && s.procs[pid].pc.Running? && OwnerTold(s, s.procs[pid])
    ensures var t := Advanced(br, s, pid, Finish(ending)); OwnerTold(t, t.procs[pid])
  {
    var t, before := Advanced(br, s, pid, Finish(ending)), Met(s, KeyOf(s.procs[pid].request));
    var met := Met(t, KeyOf(s.procs[pid].request));
    assert met == before + [SawEnding(ending)] && met[..|met| - 1] == before;
  }

  lemma StartTells(br: Broker, s: State, pid: Pid)
    requires pid in s.procs && s.procs[pid].pc.ToStart? && OwnerTold(s, s.procs[pid])
    ensures var t := Advanced(br, s, pid, Start); OwnerTold(t, t.procs[pid])
  {
    var p := s.procs[pid];
    SnocStarts(s.started, Execution(p.request, p.pc.workspace, p.pc.withCredential), KeyOf(p.request));
  }

  lemma RaiseTells(br: Broker, s: State, pid: Pid)
    requires Once.Sound(Once.CoreOf(s)) && Once.OwnersRaise(s)
    requires pid in s.procs && s.procs[pid].pc.ToInterrupt? && OwnerTold(s, s.procs[pid])
    ensures var t := Advanced(br, s, pid, RaiseInterrupt); OwnerTold(t, t.procs[pid])
  {
    assert KeyOf(s.procs[pid].request) !in s.interrupts;
    assert Once.NotStarted(s.started, KeyOf(s.procs[pid].request));
  }

  lemma CheckTells(br: Broker, s: State, pid: Pid, op: Operation)
    requires pid in s.procs && (op.Check? || op.CheckAuthorization? || op.Crash?) && OwnerTold(s, s.procs[pid])
    ensures var t := Advanced(br, s, pid, op); OwnerTold(t, t.procs[pid])
  {
  }

  lemma CompleteTells(br: Broker, s: State, pid: Pid)
    requires Once.Sound(Once.CoreOf(s)) && pid in s.procs && s.procs[pid].pc.ToComplete? && OwnerTold(s, s.procs[pid])
    ensures var t := Advanced(br, s, pid, CompleteCall); OwnerTold(t, t.procs[pid])
  {
    Once.CompleteMove(Once.CoreOf(s), pid);
  }

  lemma OwnerOpens(br: Broker, s: State, pid: Pid, op: Operation)
    requires Once.PhaseOf(op) == Once.Opening && Once.Sound(Once.CoreOf(s)) && Told(s) && pid in s.procs
    ensures var t := Advanced(br, s, pid, op); pid in t.procs && (Owns(t.procs[pid].pc) ==> OwnerTold(t, t.procs[pid]))
  {
    var p := s.procs[pid];
    if Owns(p.pc) { assert OwnerTold(s, p); }
    match op
    case TakeClaim => if p.pc.ToClaim? { ClaimTells(br, s, pid); }
    case Check => if p.pc.ToCheck? { CheckTells(br, s, pid, op); }
  }

  lemma OwnerChecks(br: Broker, s: State, pid: Pid, op: Operation)
    requires Once.PhaseOf(op) == Once.Checking && Once.Sound(Once.CoreOf(s)) && Told(s) && pid in s.procs
    ensures var t := Advanced(br, s, pid, op); pid in t.procs && (Owns(t.procs[pid].pc) ==> OwnerTold(t, t.procs[pid]))
  {
    var p := s.procs[pid];
    if Owns(p.pc) { assert OwnerTold(s, p); }
    match op
    case CheckAuthorization => if p.pc.ToCheckAuthorization? { CheckTells(br, s, pid, op); }
    case ReadWorkspace(w) => if p.pc.ToReadWorkspace? { WorkspaceTells(br, s, pid, w); }
    case TakeCredential(available) => if p.pc.ToTakeCredential? { CredentialTells(br, s, pid, available); }
  }

  lemma OwnerExecutes(br: Broker, s: State, pid: Pid, op: Operation)
    requires Once.PhaseOf(op) == Once.Acting
    requires Once.Sound(Once.CoreOf(s)) && Once.OwnersRaise(s) && Told(s) && pid in s.procs
    ensures var t := Advanced(br, s, pid, op); pid in t.procs && (Owns(t.procs[pid].pc) ==> OwnerTold(t, t.procs[pid]))
  {
    var p := s.procs[pid];
    if Owns(p.pc) { assert OwnerTold(s, p); }
    match op
    case RaiseInterrupt => if p.pc.ToInterrupt? { RaiseTells(br, s, pid); }
    case Start => if p.pc.ToStart? { StartTells(br, s, pid); }
    case Finish(ending) => if p.pc.Running? { EndingTells(br, s, pid, ending); }
  }

  lemma OwnerCloses(br: Broker, s: State, pid: Pid, op: Operation)
    requires Once.PhaseOf(op) == Once.Closing && Once.Sound(Once.CoreOf(s)) && Told(s) && pid in s.procs
    ensures var t := Advanced(br, s, pid, op); pid in t.procs && (Owns(t.procs[pid].pc) ==> OwnerTold(t, t.procs[pid]))
  {
    var p := s.procs[pid];
    if Owns(p.pc) { assert OwnerTold(s, p); }
    match op
    case CompleteCall => if p.pc.ToComplete? { CompleteTells(br, s, pid); }
    case Crash => if Owns(p.pc) { CheckTells(br, s, pid, op); }
  }

  lemma OwnerAdvances(br: Broker, s: State, pid: Pid, op: Operation)
    requires Once.Sound(Once.CoreOf(s)) && Once.OwnersRaise(s) && Told(s) && pid in s.procs
    ensures var t := Advanced(br, s, pid, op); pid in t.procs && (Owns(t.procs[pid].pc) ==> OwnerTold(t, t.procs[pid]))
  {
    match Once.PhaseOf(op)
    case Opening => OwnerOpens(br, s, pid, op);
    case Checking => OwnerChecks(br, s, pid, op);
    case Acting => OwnerExecutes(br, s, pid, op);
    case Closing => OwnerCloses(br, s, pid, op);
  }

  // ---------------------------------------------------------------- rows

  /** An operation changes no row but its own call's, and that one only by claiming or completing it. */
  lemma OtherRowsStay(br: Broker, s: State, pid: Pid, op: Operation, key: ToolCallKey)
    requires pid in s.procs && (key != KeyOf(s.procs[pid].request) || !(op.TakeClaim? || op.CompleteCall?))
    ensures key in Advanced(br, s, pid, op).ledger <==> key in s.ledger
    ensures key in s.ledger ==> Advanced(br, s, pid, op).ledger[key] == s.ledger[key]
  {
    match op
    case TakeClaim => case Check => case CheckAuthorization => case ReadWorkspace(_) => case TakeCredential(_) => case RaiseInterrupt =>
    case Start => case Finish(_) => case CompleteCall => case Crash =>
  }

  lemma ClaimRow(br: Broker, s: State, pid: Pid)
    requires Guards.Guarded(br, s) && Told(s) && pid in s.procs && s.procs[pid].pc.ToClaim?
    ensures var t, key := Advanced(br, s, pid, TakeClaim), KeyOf(s.procs[pid].request);
            key in t.ledger && RowTold(t, key)
  {
    var t, p := Advanced(br, s, pid, TakeClaim), s.procs[pid];
    var key := KeyOf(p.request);
    assert Guards.PcGuarded(br, s.bindings, p);
    if key in s.ledger {
      AdvanceSameFor(br, s, pid, TakeClaim, key);
      RowStays(s, t, key);
    }
  }

  lemma CompletedRow(br: Broker, s: State, pid: Pid)
    requires Once.Sound(Once.CoreOf(s)) && pid in s.procs && s.procs[pid].pc.ToComplete?
    ensures var t, p := Advanced(br, s, pid, CompleteCall), s.procs[pid];
            && KeyOf(p.request) in t.ledger
            && t.ledger[KeyOf(p.request)] == Row(DigestOf(p.request, p.pc.binding), Some(p.pc.response))
            && t.bindings == s.bindings && t.interrupts == s.interrupts && t.started == s.started && t.met == s.met
  {
    Once.CompleteMove(Once.CoreOf(s), pid);
  }

  lemma CompleteRow(br: Broker, s: State, pid: Pid)
    requires Once.Sound(Once.CoreOf(s)) && Guards.Guarded(br, s) && Told(s) && pid in s.procs && s.procs[pid].pc.ToComplete?
    ensures var t, key := Advanced(br, s, pid, CompleteCall), KeyOf(s.procs[pid].request);
            key in t.ledger && RowTold(t, key)
  {
    var t, p := Advanced(br, s, pid, CompleteCall), s.procs[pid];
    var key := KeyOf(p.request);
    assert Guards.PcGuarded(br, s.bindings, p) && OwnerTold(s, p);
    CompletedRow(br, s, pid);
    assert SubjectOfRow(key, t.ledger[key], t.bindings[key.run]) == SubjectOf(p.request, p.pc.binding);
  }

  /** A row that is completed belongs to a call that has ended, so nothing more is told about it. */
  lemma CompletedRowsStay(br: Broker, s: State, pid: Pid, op: Operation, key: ToolCallKey)
    requires Once.Sound(Once.CoreOf(s)) && Told(s) && pid in s.procs && key in s.ledger
    requires key == KeyOf(s.procs[pid].request) && !op.TakeClaim? && !op.CompleteCall?
    ensures var t := Advanced(br, s, pid, op); key in t.ledger && RowTold(t, key)
  {
    var t := Advanced(br, s, pid, op);
    OtherRowsStay(br, s, pid, op, key);
    assert Once.ProcSound(s.ledger, s.procs[pid]);
    BindingsStay(br, s, pid, op);
    if s.ledger[key].response.Some? {
      if Owns(s.procs[pid].pc) {
        assert s.procs[pid].pc.Ended?;
        Once.EndedDoesNothing(br, s, pid, op);
      } else {
        NotOwnersTellNothing(br, s, pid, op, key);
      }
      RowStays(s, t, key);
    }
  }

  lemma BindingsStay(br: Broker, s: State, pid: Pid, op: Operation)
    requires pid in s.procs
    ensures Advanced(br, s, pid, op).bindings == s.bindings
  {
    if !op.Start? { Guards.NothingElseStarts(br, s, pid, op); }
  }

  lemma RowAdvances(br: Broker, s: State, pid: Pid, op: Operation, key: ToolCallKey)
    requires Sound(br, s) && pid in s.procs && key in Advanced(br, s, pid, op).ledger
    ensures RowTold(Advanced(br, s, pid, op), key)
  {
    var p := s.procs[pid];
    if key != KeyOf(p.request) {
      OtherRowsStay(br, s, pid, op, key);
      AdvanceSameFor(br, s, pid, op, key);
      RowStays(s, Advanced(br, s, pid, op), key);
    } else if op.TakeClaim? && p.pc.ToClaim? {
      ClaimRow(br, s, pid);
    } else if op.CompleteCall? && p.pc.ToComplete? {
      CompleteRow(br, s, pid);
    } else if op.TakeClaim? || op.CompleteCall? {
      assert Advanced(br, s, pid, op) == s;
    } else {
      OtherRowsStay(br, s, pid, op, key);
      CompletedRowsStay(br, s, pid, op, key);
    }
  }

  lemma MetIsClaimed(br: Broker, s: State, pid: Pid, op: Operation)
    requires Once.Sound(Once.CoreOf(s)) && Told(s) && pid in s.procs
    ensures forall key :: key in Advanced(br, s, pid, op).met ==> key in Advanced(br, s, pid, op).ledger
  {
    assert Once.ProcSound(s.ledger, s.procs[pid]);
    Once.StepIsLedgerLater(br, s, Advance(pid, op));
    if op.ReadWorkspace? || op.TakeCredential? || op.Finish? {
      MeetingIsOwned(br, s, pid, op);
    } else {
      NothingElseMeets(br, s, pid, op);
    }
  }

  lemma MeetingIsOwned(br: Broker, s: State, pid: Pid, op: Operation)
    requires pid in s.procs && (op.ReadWorkspace? || op.TakeCredential? || op.Finish?)
    ensures forall key :: key in Advanced(br, s, pid, op).met && key !in s.met ==>
              key == KeyOf(s.procs[pid].request) && Owns(s.procs[pid].pc)
  {
  }

  lemma NothingElseMeets(br: Broker, s: State, pid: Pid, op: Operation)
    requires pid in s.procs && !op.ReadWorkspace? && !op.TakeCredential? && !op.Finish?
    ensures Advanced(br, s, pid, op).met == s.met
  {
  }

  lemma AdvanceKeepsTold(br: Broker, s: State, pid: Pid, op: Operation)
    requires Sound(br, s) && pid in s.procs
    ensures Told(Advanced(br, s, pid, op))
  {
    var t := Advanced(br, s, pid, op);
    Once.OthersStay(br, s, pid, op);
    forall q | q in t.procs && Owns(t.procs[q].pc) ensures OwnerTold(t, t.procs[q]) {
      if q == pid { OwnerAdvances(br, s, pid, op); } else { OtherOwnersStay(br, s, pid, op, q); }
    }
    forall key | key in t.ledger ensures RowTold(t, key) { RowAdvances(br, s, pid, op, key); }
    MetIsClaimed(br, s, pid, op);
  }

  // ---------------------------------------------------------------- every run

  /** The step leaves ledger, starts and encounters, and lets interrupts and bindings stay. */
  lemma QuietStepKeepsTold(s: State, t: State)
    requires Told(s) && t.ledger == s.ledger && t.met == s.met && t.started == s.started
    requires Provenance.AllStay(s.interrupts, t.interrupts)
    requires forall run :: run in s.bindings ==> run in t.bindings && t.bindings[run] == s.bindings[run]
    requires forall p :: p in t.procs && Owns(t.procs[p].pc) ==> p in s.procs && t.procs[p] == s.procs[p]
    ensures Told(t)
  {
    forall key ensures SameFor(s, t, key) {
      if key in s.interrupts { assert Provenance.Stays(s.interrupts[key], t.interrupts[key]); }
    }
    forall p | p in t.procs && Owns(t.procs[p].pc) ensures OwnerTold(t, t.procs[p]) { OwnerStays(s, t, s.procs[p]); }
    forall key | key in t.ledger ensures RowTold(t, key) { RowStays(s, t, key); }
  }

  lemma RegisterKeepsTold(br: Broker, s: State, b: Binding)
    requires Told(s)
    ensures Told(AfterRegister(s, b))
  {
    QuietStepKeepsTold(s, AfterRegister(s, b));
  }

  lemma BeginKeepsTold(br: Broker, s: State, pid: Pid, r: Request)
    requires Told(s)
    ensures Told(AfterBegin(br, s, pid, r))
  {
    QuietStepKeepsTold(s, AfterBegin(br, s, pid, r));
  }

  lemma UserReadKeepsTold(br: Broker, s: State, tx: T.TxId, call: I.Call)
    requires Told(s)
    ensures Told(Next(br, s, UserRead(tx, call)))
  {
    QuietStepKeepsTold(s, Next(br, s, UserRead(tx, call)));
  }

  lemma UserEndKeepsTold(br: Broker, s: State, tx: T.TxId)
    requires Told(s) && tx in s.open && T.Possible(s.interrupts, s.open[tx])
    ensures Told(Next(br, s, UserEnd(tx)))
  {
    Provenance.EndStays(s.interrupts, s.open[tx]);
    QuietStepKeepsTold(s, Next(br, s, UserEnd(tx)));
  }

  lemma StepKeepsTold(br: Broker, s: State, step: Step)
    requires Sound(br, s)
    ensures Told(Next(br, s, step))
  {
    match step
    case Register(b) => RegisterKeepsTold(br, s, b);
    case Begin(pid, r) => BeginKeepsTold(br, s, pid, r);
    case UserRead(tx, call) => UserReadKeepsTold(br, s, tx, call);
    case UserEnd(tx) => if tx in s.open { UserEndKeepsTold(br, s, tx); }
    case Advance(pid, op) => if pid in s.procs { AdvanceKeepsTold(br, s, pid, op); }
  }

  lemma StepKeepsSound(br: Broker, s: State, step: Step)
    requires Sound(br, s)
    ensures Sound(br, Next(br, s, step))
  {
    StepKeepsTold(br, s, step);
    Once.StepKeepsSound(br, s, step);
    Once.StepKeepsOwners(br, s, step);
    Guards.StepKeepsGuarded(br, s, step);
    Provenance.StepKeepsSound(br, s, step);
  }

  lemma {:induction false} RunKeepsSound(br: Broker, s: State, steps: seq<Step>)
    requires Sound(br, s)
    ensures Sound(br, Run(br, s, steps))
    decreases |steps|
  {
    if steps != [] {
      StepKeepsSound(br, s, steps[0]);
      RunKeepsSound(br, Next(br, s, steps[0]), steps[1..]);
    }
  }

  lemma FromEmpty(br: Broker, steps: seq<Step>)
    ensures Sound(br, Run(br, EMPTY, steps))
  {
    RunKeepsSound(br, EMPTY, steps);
  }

  /** The execution of the call ended so. */
  predicate EndedBy(s: State, key: ToolCallKey, ending: Ending) { SawEnding(ending) in Met(s, key) }

  /** Some workspace that the call read was not there, was another conversation's, or had another revision. */
  predicate SawWrongWorkspace(met: seq<Encounter>, x: Subject) {
    exists i :: 0 <= i < |met| && met[i].SawWorkspace? && !Fits(x, met[i].workspace)
  }

  /** The only ending that an execution met is its own, and nothing kept it from starting. */
  lemma RanIsTold(x: Subject, met: seq<Encounter>, started: seq<Execution>, ending: Ending)
    requires Ran(x, met, started, ending)
    ensures forall e :: SawEnding(e) in met <==> e == ending
    ensures SawCredential(false) !in met && met != [] && !SawWrongWorkspace(met, x)
  {
    var front, last := met[..|met| - 1], met[|met| - 1];
    assert last in met && met == front + [last];
    assert forall k :: 0 <= k < |front| ==> met[k] == front[k];
    assert forall e :: SawEnding(e) !in front;
  }

  /** A call that did not start met no ending. */
  lemma KeptIsTold(
    interrupts: I.Interrupts, started: seq<Execution>, x: Subject, met: seq<Encounter>, response: Response)
    requires Story(interrupts, started, x, met, response)
    requires response.Rejected? || response.NeedsConfirmation? || response.NeedsAuthorization?
    ensures forall e :: SawEnding(e) !in met
    ensures response.NeedsAuthorization? <==> SawCredential(false) in met
    ensures response.NeedsConfirmation? <==> met == []
    ensures response.Rejected? <==> SawWrongWorkspace(met, x)
    ensures Once.NotStarted(started, x.key)
  {
    if response.NeedsAuthorization? { assert met[1] in met && met[0] == met[..1][0]; }
  }

  lemma StoryIsTold(interrupts: I.Interrupts, started: seq<Execution>, x: Subject, met: seq<Encounter>, response: Response)
    requires Story(interrupts, started, x, met, response)
    ensures forall o :: response == ToolCompleted(o) <==> SawEnding(Observed(o)) in met
    ensures response == ToolFailed <==> SawEnding(Erred) in met
    ensures response == ToolCancelled <==> SawEnding(CancelledMidway) in met
    ensures response.NeedsAuthorization? <==> SawCredential(false) in met
    ensures response.NeedsConfirmation? <==> met == []
    ensures response.Rejected? <==> SawWrongWorkspace(met, x)
    ensures Once.NotStarted(started, x.key) <==> forall ending :: SawEnding(ending) !in met
  {
    match response
    case ToolCompleted(o) => RanIsTold(x, met, started, Observed(o));
    case ToolFailed => RanIsTold(x, met, started, Erred);
    case ToolCancelled => RanIsTold(x, met, started, CancelledMidway);
    case _ => KeptIsTold(interrupts, started, x, met, response);
  }

  /** Over every run from the empty repository, with retries, overlapping user transactions and crashes: a stored answer tells
      what happened. It is a completed observation, a failure or a cancellation if and only if the one execution of the call
      ended with that observation, with an error or by cancellation; it asks for authorization if and only if the call was
      refused a credential, and for confirmation if and only if the call met nothing; it is a rejection if and only if the
      workspace was wrong, and says how. The executor was never started exactly when none ended, and a suspension names the
      interrupt of its own key, which has that kind and that tool. */
  lemma StoredAnswerIsTrue(br: Broker, steps: seq<Step>, key: ToolCallKey)
    requires key in Run(br, EMPTY, steps).ledger && Run(br, EMPTY, steps).ledger[key].response.Some?
    ensures var t := Run(br, EMPTY, steps);
            var answer := t.ledger[key].response.value;
            && key.run in t.bindings
            && var x := SubjectOfRow(key, t.ledger[key], t.bindings[key.run]);
            && (forall o :: answer == ToolCompleted(o) <==> EndedBy(t, key, Observed(o)))
            && (answer == ToolFailed <==> EndedBy(t, key, Erred))
            && (answer == ToolCancelled <==> EndedBy(t, key, CancelledMidway))
            && (answer.NeedsAuthorization? <==> SawCredential(false) in Met(t, key))
            && (answer.NeedsConfirmation? <==> Met(t, key) == [])
            && (answer.Rejected? <==> SawWrongWorkspace(Met(t, key), x))
            && (Once.NotStarted(t.started, key) <==> forall ending :: !EndedBy(t, key, ending))
            && Story(t.interrupts, t.started, x, Met(t, key), answer)
  {
    FromEmpty(br, steps);
    var t := Run(br, EMPTY, steps);
    assert RowTold(t, key);
    StoryIsTold(t.interrupts, t.started, SubjectOfRow(key, t.ledger[key], t.bindings[key.run]), Met(t, key),
                t.ledger[key].response.value);
  }

  /** The caller that executed gets the answer raised instead of returned if and only if its execution was cancelled. */
  lemma RaisedIffCancelled(br: Broker, steps: seq<Step>, pid: Pid)
    requires var t := Run(br, EMPTY, steps);
             pid in t.procs && t.procs[pid].pc.Ended? && t.procs[pid].pc.owned && t.procs[pid].pc.reply.Stored?
    ensures var t := Run(br, EMPTY, steps);
            t.procs[pid].pc.reply.raised <==> EndedBy(t, KeyOf(t.procs[pid].request), CancelledMidway)
  {
    FromEmpty(br, steps);
    var t := Run(br, EMPTY, steps);
    var p := t.procs[pid];
    assert OwnerTold(t, p) && Once.ProcSound(t.ledger, p);
    StoredAnswerIsTrue(br, steps, KeyOf(p.request));
  }

  /** No key is met by two executions: at most one ending, and only of an execution that started. */
  lemma OneEnding(br: Broker, steps: seq<Step>, key: ToolCallKey, a: Ending, b: Ending)
    requires var t := Run(br, EMPTY, steps);
             key in t.ledger && t.ledger[key].response.Some? && EndedBy(t, key, a) && EndedBy(t, key, b)
    ensures a == b && !Once.NotStarted(Run(br, EMPTY, steps).started, key)
  {
    StoredAnswerIsTrue(br, steps, key);
  }
}
