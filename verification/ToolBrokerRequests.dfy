/** A tool call key stands for one request: whoever is answered from the ledger asked for the very thing that was executed. */
module ToolBrokerRequests {
  import opened Common
  import I = Interrupts
  import opened ToolLedger
  import opened ToolBrokerSteps
  import Once = ToolBrokerOnce
  import Guards = ToolBrokerGuards

  /** The row of the request's key was claimed for a request with this digest. */
  predicate Matched(s: State, r: Request) {
    r.run in s.bindings && KeyOf(r) in s.ledger && s.ledger[KeyOf(r)].digest == DigestOf(r, s.bindings[r.run])
  }

  predicate AnsweredFromLedger(p: Proc) { p.pc.Ended? && p.pc.reply.Stored? }

  predicate AnswerMatched(s: State, p: Proc) { AnsweredFromLedger(p) ==> Matched(s, p.request) }

  ghost predicate Sound(br: Broker, s: State) {
    && Once.Sound(Once.CoreOf(s)) && Guards.Guarded(br, s)
    && (forall p :: p in s.procs ==> AnswerMatched(s, s.procs[p]))
    && (forall i :: 0 <= i < |s.started| ==> Matched(s, s.started[i].request))
  }

  lemma MatchedStays(s: State, t: State, r: Request)
    requires Matched(s, r) && Once.LedgerLater(s.ledger, t.ledger)
    requires forall run :: run in s.bindings ==> run in t.bindings && t.bindings[run] == s.bindings[run]
    ensures Matched(t, r)
  {
  }

  lemma ClaimMatches(br: Broker, s: State, pid: Pid)
    requires Guards.Guarded(br, s) && pid in s.procs && s.procs[pid].pc.ToClaim?
    ensures var t := Advanced(br, s, pid, TakeClaim); pid in t.procs && AnswerMatched(t, t.procs[pid])
  {
    assert Guards.PcGuarded(br, s.bindings, s.procs[pid]);
  }

  lemma CompletionMatches(br: Broker, s: State, pid: Pid)
    requires Once.Sound(Once.CoreOf(s)) && Guards.Guarded(br, s) && pid in s.procs && s.procs[pid].pc.ToComplete?
    ensures var t := Advanced(br, s, pid, CompleteCall); pid in t.procs && AnswerMatched(t, t.procs[pid])
  {
    assert Guards.PcGuarded(br, s.bindings, s.procs[pid]);
    assert Once.ProcSound(s.ledger, s.procs[pid]);
  }

  /** Only a claim and a completion answer from the ledger. */
  lemma NothingElseAnswers(br: Broker, s: State, pid: Pid, op: Operation)
    requires pid in s.procs && !s.procs[pid].pc.Ended? && !op.TakeClaim? && !op.CompleteCall?
    ensures var t := Advanced(br, s, pid, op); pid in t.procs && !AnsweredFromLedger(t.procs[pid])
  {
    match op
    case Check => ChecksDoNotAnswer(br, s, pid, op);
    case CheckAuthorization => ChecksDoNotAnswer(br, s, pid, op);
    case ReadWorkspace(_) => MeetingsDoNotAnswer(br, s, pid, op);
    case TakeCredential(_) => MeetingsDoNotAnswer(br, s, pid, op);
    case Finish(_) => MeetingsDoNotAnswer(br, s, pid, op);
    case RaiseInterrupt => ActsDoNotAnswer(br, s, pid, op);
    case Start => ActsDoNotAnswer(br, s, pid, op);
    case Crash => ActsDoNotAnswer(br, s, pid, op);
  }

  lemma ChecksDoNotAnswer(br: Broker, s: State, pid: Pid, op: Operation)
    requires pid in s.procs && !s.procs[pid].pc.Ended? && (op.Check? || op.CheckAuthorization?)
    ensures var t := Advanced(br, s, pid, op); pid in t.procs && !AnsweredFromLedger(t.procs[pid])
  {
  }

  lemma MeetingsDoNotAnswer(br: Broker, s: State, pid: Pid, op: Operation)
    requires pid in s.procs && !s.procs[pid].pc.Ended? && (op.ReadWorkspace? || op.TakeCredential? || op.Finish?)
    ensures var t := Advanced(br, s, pid, op); pid in t.procs && !AnsweredFromLedger(t.procs[pid])
  {
  }

  lemma ActsDoNotAnswer(br: Broker, s: State, pid: Pid, op: Operation)
    requires pid in s.procs && !s.procs[pid].pc.Ended? && (op.RaiseInterrupt? || op.Start? || op.Crash?)
    ensures var t := Advanced(br, s, pid, op); pid in t.procs && !AnsweredFromLedger(t.procs[pid])
  {
  }

  lemma OwnAnswerMatches(br: Broker, s: State, pid: Pid, op: Operation)
    requires Sound(br, s) && pid in s.procs
    ensures var t := Advanced(br, s, pid, op); pid in t.procs && AnswerMatched(t, t.procs[pid])
  {
    var p := s.procs[pid];
    assert AnswerMatched(s, p);
    if p.pc.Ended? {
      Once.EndedDoesNothing(br, s, pid, op);
    } else if op.TakeClaim? {
      if p.pc.ToClaim? { ClaimMatches(br, s, pid); }
    } else if op.CompleteCall? {
      if p.pc.ToComplete? { CompletionMatches(br, s, pid); }
    } else {
      NothingElseAnswers(br, s, pid, op);
    }
  }

  lemma OtherAnswerMatches(s: State, t: State, p: Proc)
    requires AnswerMatched(s, p) && Once.LedgerLater(s.ledger, t.ledger) && t.bindings == s.bindings
    ensures AnswerMatched(t, p)
  {
    if AnsweredFromLedger(p) { MatchedStays(s, t, p.request); }
  }

  /** A call that starts owns the row that it claimed with its digest. */
  lemma StartMatches(br: Broker, s: State, pid: Pid)
    requires Once.Sound(Once.CoreOf(s)) && Guards.Guarded(br, s) && pid in s.procs && s.procs[pid].pc.ToStart?
    ensures Matched(s, s.procs[pid].request)
  {
    assert Guards.PcGuarded(br, s.bindings, s.procs[pid]) && Once.ProcSound(s.ledger, s.procs[pid]);
  }

  lemma StartsFrom(br: Broker, s: State, pid: Pid, op: Operation)
    requires Guards.Guarded(br, s) && pid in s.procs
    ensures var p, t := s.procs[pid], Advanced(br, s, pid, op);
            && t.bindings == s.bindings
            && (t.started == s.started
                || (p.pc.ToStart? && t.started == s.started + [Execution(p.request, p.pc.workspace, p.pc.withCredential)]))
  {
    assert Guards.PcGuarded(br, s.bindings, s.procs[pid]);
    Guards.StartIsGuarded(br, s, pid, op);
  }

  lemma AdvanceKeepsAnswers(br: Broker, s: State, pid: Pid, op: Operation)
    requires Sound(br, s) && pid in s.procs
    ensures var t := Advanced(br, s, pid, op); forall p :: p in t.procs ==> AnswerMatched(t, t.procs[p])
  {
    var t := Advanced(br, s, pid, op);
    Once.StepIsLedgerLater(br, s, Advance(pid, op));
    Once.OthersStay(br, s, pid, op);
    StartsFrom(br, s, pid, op);
    forall p | p in t.procs ensures AnswerMatched(t, t.procs[p]) {
      if p == pid { OwnAnswerMatches(br, s, pid, op); } else { OtherAnswerMatches(s, t, s.procs[p]); }
    }
  }

  lemma AdvanceKeepsStarts(br: Broker, s: State, pid: Pid, op: Operation)
    requires Sound(br, s) && pid in s.procs
    ensures var t := Advanced(br, s, pid, op); forall i :: 0 <= i < |t.started| ==> Matched(t, t.started[i].request)
  {
    var t := Advanced(br, s, pid, op);
    Once.StepIsLedgerLater(br, s, Advance(pid, op));
    StartsFrom(br, s, pid, op);
    forall i | 0 <= i < |t.started| ensures Matched(t, t.started[i].request) {
      if i < |s.started| {
        MatchedStays(s, t, s.started[i].request);
      } else {
        StartMatches(br, s, pid);
        MatchedStays(s, t, s.procs[pid].request);
      }
    }
  }

  /** The step leaves ledger and starts alone, bindings in place, and answers nobody from the ledger. */
  predicate Quiet(s: State, t: State) {
    && t.ledger == s.ledger && t.started == s.started
    && (forall run :: run in s.bindings ==> run in t.bindings && t.bindings[run] == s.bindings[run])
    && (forall p :: p in t.procs && AnsweredFromLedger(t.procs[p]) ==> p in s.procs && s.procs[p] == t.procs[p])
  }

  lemma QuietKeepsSame(s: State, t: State)
    requires (forall p :: p in s.procs ==> AnswerMatched(s, s.procs[p])) && Quiet(s, t)
    requires forall i :: 0 <= i < |s.started| ==> Matched(s, s.started[i].request)
    ensures forall p :: p in t.procs ==> AnswerMatched(t, t.procs[p])
    ensures forall i :: 0 <= i < |t.started| ==> Matched(t, t.started[i].request)
  {
    forall p | p in t.procs && AnsweredFromLedger(t.procs[p]) ensures AnswerMatched(t, t.procs[p]) {
      assert AnswerMatched(s, s.procs[p]);
      MatchedStays(s, t, s.procs[p].request);
    }
    forall i | 0 <= i < |t.started| ensures Matched(t, t.started[i].request) { MatchedStays(s, t, s.started[i].request); }
  }

  lemma BeginIsQuiet(br: Broker, s: State, pid: Pid, r: Request)
    ensures Quiet(s, AfterBegin(br, s, pid, r))
  {
  }

  lemma RegisterIsQuiet(s: State, b: Binding)
    ensures Quiet(s, AfterRegister(s, b))
  {
  }

  lemma UserIsQuiet(br: Broker, s: State, step: Step)
    requires step.UserRead? || step.UserEnd?
    ensures Quiet(s, Next(br, s, step))
  {
  }

  lemma OutsideIsQuiet(br: Broker, s: State, step: Step)
    requires !step.Advance?
    ensures Quiet(s, Next(br, s, step))
  {
    match step
    case Register(b) => RegisterIsQuiet(s, b);
    case Begin(pid, r) => BeginIsQuiet(br, s, pid, r);
    case UserRead(_, _) => UserIsQuiet(br, s, step);
    case UserEnd(_) => UserIsQuiet(br, s, step);
  }

  lemma {:induction false} RunKeepsSound(br: Broker, s: State, steps: seq<Step>)
    requires Sound(br, s)
    ensures Sound(br, Run(br, s, steps))
    decreases |steps|
  {
    if steps != [] {
      Once.StepKeepsSound(br, s, steps[0]);
      Guards.StepKeepsGuarded(br, s, steps[0]);
      if steps[0].Advance? {
        if steps[0].pid in s.procs {
          AdvanceKeepsAnswers(br, s, steps[0].pid, steps[0].operation);
          AdvanceKeepsStarts(br, s, steps[0].pid, steps[0].operation);
        }
      } else {
        OutsideIsQuiet(br, s, steps[0]);
        QuietKeepsSame(s, Next(br, s, steps[0]));
      }
      RunKeepsSound(br, Next(br, s, steps[0]), steps[1..]);
    }
  }

  /** The requests ask for the same: one tool, with the same arguments, on the same revision. */
  predicate SameAsk(a: Request, b: Request) {
    a.run == b.run && a.call == b.call && a.tool == b.tool && a.arguments == b.arguments && a.expectedRevision == b.expectedRevision
  }

  /** Over every run, whoever was answered from the ledger, as the one that executed or as a retry, asked for the same as every
      other one answered under the key, and as what was executed under it. */
  lemma AnsweredAskTheSame(br: Broker, steps: seq<Step>, p: Pid)
    requires var t := Run(br, EMPTY, steps); p in t.procs && t.procs[p].pc.Ended? && t.procs[p].pc.reply.Stored?
    ensures var t := Run(br, EMPTY, steps);
            && (forall q :: q in t.procs && t.procs[q].pc.Ended? && t.procs[q].pc.reply.Stored?
                            && KeyOf(t.procs[q].request) == KeyOf(t.procs[p].request) ==>
                  SameAsk(t.procs[p].request, t.procs[q].request))
            && (forall i :: 0 <= i < |t.started| && KeyOf(t.started[i].request) == KeyOf(t.procs[p].request) ==>
                  SameAsk(t.procs[p].request, t.started[i].request))
  {
    RunKeepsSound(br, EMPTY, steps);
    var t := Run(br, EMPTY, steps);
    assert AnswerMatched(t, t.procs[p]);
    forall q | q in t.procs && t.procs[q].pc.Ended? && t.procs[q].pc.reply.Stored?
               && KeyOf(t.procs[q].request) == KeyOf(t.procs[p].request)
      ensures SameAsk(t.procs[p].request, t.procs[q].request)
    {
      assert AnswerMatched(t, t.procs[q]);
    }
    forall i | 0 <= i < |t.started| && KeyOf(t.started[i].request) == KeyOf(t.procs[p].request)
      ensures SameAsk(t.procs[p].request, t.started[i].request)
    {
      assert Matched(t, t.started[i].request);
    }
  }
}
