/** AgentToolBroker.call against the repository: an undisturbed call is one particular run of the broker's processes. */
module AgentToolBroker {
  import opened Common
  import I = Interrupts
  import L = ToolLedger
  import opened ToolBrokerSteps
  import opened AgentToolRepository

  /** What the call meets outside the repository: the workspace, a transient credential, and how the executor ends. */
  datatype Surroundings = Surroundings(workspace: Option<Workspace>, credential: bool, ending: Ending)

  lemma RunCons(br: Broker, s: State, step: Step, rest: seq<Step>)
    ensures Run(br, s, [step] + rest) == Run(br, Next(br, s, step), rest)
  {
    assert ([step] + rest)[1..] == rest;
  }

  class AgentToolBroker {
    const repository: SqlAgentToolRepository
    const frozen: Broker

    constructor (repository: SqlAgentToolRepository, frozen: Broker)
      ensures this.repository == repository && this.frozen == frozen
    {
      this.repository, this.frozen := repository, frozen;
    }

    ghost predicate Matches(s: State)
      reads repository
    {
      s.bindings == repository.bindings && s.ledger == repository.calls && s.interrupts == repository.interrupts
    }

    /** The process stands at pc and the repository is as the state says. */
    ghost predicate StandsAt(s: State, pid: Pid, r: Request, pc: Pc)
      reads repository
    {
      Matches(s) && pid in s.procs && s.procs[pid] == Proc(r, pc)
    }

    /** These steps of the process, and nothing else, lead from s to the repository's state and to this reply. */
    ghost predicate Served(s: State, steps: seq<Step>, pid: Pid, r: Request, reply: Reply)
      reads repository
    {
      var t := Run(frozen, s, steps);
      && Matches(t)
      && pid in t.procs && t.procs[pid].request == r && t.procs[pid].pc.Ended? && t.procs[pid].pc.reply == reply
      && forall i :: 0 <= i < |steps| ==> (steps[i].Begin? || steps[i].Advance?) && steps[i].pid == pid
    }

    /** The call claimed its row and has not completed it. */
    ghost predicate Claimed(r: Request, b: Binding)
      reads repository
    {
      KeyOf(r) in repository.calls && repository.calls[KeyOf(r)] == L.Row(DigestOf(r, b), None)
    }

    /** The ledger got this answer to the call, and the caller gets it too. */
    ghost predicate Answered(before: L.Ledger, r: Request, b: Binding, answer: L.Response, reply: Reply)
      reads repository
    {
      && repository.calls == before[KeyOf(r) := L.Row(DigestOf(r, b), Some(answer))]
      && reply == Stored(answer, answer.ToolCancelled?)
    }

    /** The call executed, and is answered with how that ended. */
    ghost predicate Executed(before: L.Ledger, r: Request, b: Binding, ending: Ending, reply: Reply)
      reads repository
    {
      match ending
      case Observed(observation) => Answered(before, r, b, L.ToolCompleted(observation), reply)
      case Erred => Answered(before, r, b, L.ToolFailed, reply)
      case CancelledMidway => Answered(before, r, b, L.ToolCancelled, reply)
    }

    predicate WorkspaceFits(r: Request, b: Binding, around: Surroundings) {
      && around.workspace.Some? && around.workspace.value.conversation == b.conversation
      && around.workspace.value.revision == r.expectedRevision
    }

    /** The request comes under its own key and is the one that was frozen for its run. */
    predicate Matching(r: Request, b: Binding) {
      && r.idempotencyKey == KeyOf(r) && b.manifest == frozen.manifest
      && r.session == b.session && r.contextDigest == b.contextDigest && r.toolset == b.toolset
    }

    /** Everything that an execution needs is there. */
    predicate Executable(r: Request, b: Binding, granted: bool, around: Surroundings) {
      && r.tool in frozen.tools && WorkspaceFits(r, b, around)
      && (frozen.tools[r.tool].confirmationRequired || frozen.tools[r.tool].hasCost ==> granted)
      && (frozen.tools[r.tool].hasCost ==> around.credential)
    }

    /** The answer to a call whose key has a row. */
    function Known(row: L.Row, digest: L.Digest): Reply {
      if row.digest != digest then Errored(I.Conflict)
      else if row.response.Some? then Stored(row.response.value, false) else Direct(L.InProgress)
    }

    /** Besides being a run of the process: a call executes if and only if it is new, matches what was frozen, and everything
        that an execution needs is there; it is then answered with how the execution ended, and the ledger keeps that. A call
        whose row is completed is answered with what the row holds, and nothing changes. */
    method Call(ghost s: State, ghost pid: Pid, r: Request, around: Surroundings) returns (reply: Reply, ghost steps: seq<Step>)
      requires Matches(s) && pid !in s.procs
      modifies repository
      ensures Served(s, steps, pid, r, reply)
      ensures Advance(pid, Start) in steps
              <==> && r.run in old(repository.bindings) && KeyOf(r) !in old(repository.calls)
                   && Matching(r, old(repository.bindings)[r.run])
                   && Executable(r, old(repository.bindings)[r.run], I.Granted(old(repository.interrupts), r.run, r.tool), around)
      ensures Advance(pid, Start) in steps ==>
                Executed(old(repository.calls), r, old(repository.bindings)[r.run], around.ending, reply)
      ensures r.run in old(repository.bindings) && Matching(r, old(repository.bindings)[r.run]) && KeyOf(r) in old(repository.calls) ==>
                var b, row := old(repository.bindings)[r.run], old(repository.calls)[KeyOf(r)];
                && repository.calls == old(repository.calls) && repository.interrupts == old(repository.interrupts)
                && reply == Known(row, DigestOf(r, b))
    {
      ghost var t := Next(frozen, s, Begin(pid, r));
      steps := [];
      if r.run !in repository.bindings {
        reply := Direct(L.Rejected("run not registered"));
      } else {
        var b := repository.bindings[r.run];
        if r.idempotencyKey != KeyOf(r) {
          reply := Errored(I.Conflict);
        } else if r.session != b.session || r.contextDigest != b.contextDigest || r.toolset != b.toolset {
          reply := Direct(L.Rejected("call does not match binding"));
        } else if b.manifest != frozen.manifest {
          reply := Direct(L.Rejected("manifest does not match run"));
        } else {
          reply, steps := ClaimFirst(t, pid, r, b, around);
        }
      }
      RunCons(frozen, s, Begin(pid, r), steps);
      steps := [Begin(pid, r)] + steps;
    }

    method ClaimFirst(ghost s: State, ghost pid: Pid, r: Request, b: Binding, around: Surroundings)
      returns (reply: Reply, ghost steps: seq<Step>)
      requires StandsAt(s, pid, r, ToClaim(b))
      modifies repository
      ensures Served(s, steps, pid, r, reply)
      ensures Advance(pid, Start) in steps
              <==> KeyOf(r) !in old(repository.calls)
                   && Executable(r, b, I.Granted(old(repository.interrupts), r.run, r.tool), around)
      ensures Advance(pid, Start) in steps ==> Executed(old(repository.calls), r, b, around.ending, reply)
      ensures KeyOf(r) in old(repository.calls) ==>
                var row := old(repository.calls)[KeyOf(r)];
                && repository.calls == old(repository.calls) && repository.interrupts == old(repository.interrupts)
                && reply == Known(row, DigestOf(r, b))
    {
      ghost var before := repository.calls;
      ghost var t := Next(frozen, s, Advance(pid, TakeClaim));
      var known := TryClaim(s, pid, r, b);
      steps := [];
      if known.Some? {
        reply := known.value;
      } else {
        reply, steps := CheckConfirmation(t, pid, r, b, around);
        if Advance(pid, Start) in steps { ExecutedOverClaim(before, r, b, around.ending, reply); }
      }
      RunCons(frozen, s, Advance(pid, TakeClaim), steps);
      steps := [Advance(pid, TakeClaim)] + steps;
    }

    lemma ExecutedOverClaim(before: L.Ledger, r: Request, b: Binding, ending: Ending, reply: Reply)
      requires Executed(before[KeyOf(r) := L.Row(DigestOf(r, b), None)], r, b, ending, reply)
      ensures Executed(before, r, b, ending, reply)
    {
      assert before[KeyOf(r) := L.Row(DigestOf(r, b), None)][KeyOf(r) := repository.calls[KeyOf(r)]]
             == before[KeyOf(r) := repository.calls[KeyOf(r)]];
    }

    /** claim_tool_call, and the answer if the key had a row. */
    method TryClaim(ghost s: State, ghost pid: Pid, r: Request, b: Binding) returns (known: Option<Reply>)
      requires StandsAt(s, pid, r, ToClaim(b))
      modifies repository
      ensures StandsAt(Next(frozen, s, Advance(pid, TakeClaim)), pid, r,
                       if known.Some? then Ended(known.value, false) else ToCheck(b))
      ensures known.Some? <==> KeyOf(r) in old(repository.calls)
      ensures repository.interrupts == old(repository.interrupts)
      ensures known.Some? ==>
                repository.calls == old(repository.calls) && known.value == Known(old(repository.calls)[KeyOf(r)], DigestOf(r, b))
      ensures known.None? ==> repository.calls == old(repository.calls)[KeyOf(r) := L.Row(DigestOf(r, b), None)]
    {
      var claim := repository.ClaimToolCall(KeyOf(r), DigestOf(r, b));
      match claim {
        case Refused(e) => return Some(Errored(e));
        case Returned(Completed(response)) => return Some(Stored(response, false));
        case Returned(Executing) => return Some(Direct(L.InProgress));
        case Returned(Claimed) => return None;
      }
    }

    method CheckConfirmation(ghost s: State, ghost pid: Pid, r: Request, b: Binding, around: Surroundings)
      returns (reply: Reply, ghost steps: seq<Step>)
      requires StandsAt(s, pid, r, ToCheck(b))
      requires Claimed(r, b)
      modifies repository
      ensures Served(s, steps, pid, r, reply)
      ensures Advance(pid, Start) in steps
              <==> Executable(r, b, I.Granted(old(repository.interrupts), r.run, r.tool), around)
      ensures Advance(pid, Start) in steps ==> Executed(old(repository.calls), r, b, around.ending, reply)
    {
      ghost var t := Next(frozen, s, Advance(pid, Check));
      steps := [];
      if r.tool !in frozen.tools {
        reply := Unstored(L.Rejected("tool not authorized"));
      } else {
        var confirmed := repository.AnyGrant(I.AwaitingConfirmation, r.run, r.tool);
        if confirmed {
          reply, steps := Proceed(t, pid, r, b, true, around);
        } else {
          reply, steps := CheckAuthorizations(t, pid, r, b, around);
        }
      }
      RunCons(frozen, s, Advance(pid, Check), steps);
      steps := [Advance(pid, Check)] + steps;
    }

    method CheckAuthorizations(ghost s: State, ghost pid: Pid, r: Request, b: Binding, around: Surroundings)
      returns (reply: Reply, ghost steps: seq<Step>)
      requires r.tool in frozen.tools && StandsAt(s, pid, r, ToCheckAuthorization(b))
      requires Claimed(r, b)
      modifies repository
      ensures Served(s, steps, pid, r, reply)
      ensures Advance(pid, Start) in steps
              <==> Executable(r, b, I.GrantedBy(old(repository.interrupts), I.AuthorizationRequired, r.run, r.tool), around)
      ensures Advance(pid, Start) in steps ==> Executed(old(repository.calls), r, b, around.ending, reply)
    {
      ghost var t := Next(frozen, s, Advance(pid, CheckAuthorization));
      var granted := repository.AnyGrant(I.AuthorizationRequired, r.run, r.tool);
      reply, steps := Proceed(t, pid, r, b, granted, around);
      RunCons(frozen, s, Advance(pid, CheckAuthorization), steps);
      steps := [Advance(pid, CheckAuthorization)] + steps;
    }

    /** The guards behind is_tool_confirmation_granted. */
    method Proceed(ghost s: State, ghost pid: Pid, r: Request, b: Binding, granted: bool, around: Surroundings)
      returns (reply: Reply, ghost steps: seq<Step>)
      requires r.tool in frozen.tools && StandsAt(s, pid, r, Decided(frozen, r, b, granted))
      requires Claimed(r, b)
      modifies repository
      ensures Served(s, steps, pid, r, reply)
      ensures Advance(pid, Start) in steps <==> Executable(r, b, granted, around)
      ensures Advance(pid, Start) in steps ==> Executed(old(repository.calls), r, b, around.ending, reply)
    {
      var tool := frozen.tools[r.tool];
      steps := [];
      if tool.confirmationRequired && !granted {
        reply, steps := Suspend(s, pid, r, b, I.AwaitingConfirmation, granted);
      } else if tool.hasCost && !granted {
        reply := Unstored(L.Rejected("cost without confirmation"));
      } else {
        reply, steps := LoadWorkspace(s, pid, r, b, tool.hasCost, granted, around);
      }
    }

    method LoadWorkspace(ghost s: State, ghost pid: Pid, r: Request, b: Binding, hasCost: bool, granted: bool,
                         around: Surroundings)
      returns (reply: Reply, ghost steps: seq<Step>)
      requires StandsAt(s, pid, r, ToReadWorkspace(b, hasCost, granted))
      requires Claimed(r, b)
      modifies repository
      ensures Served(s, steps, pid, r, reply)
      ensures Advance(pid, Start) in steps <==> WorkspaceFits(r, b, around) && (hasCost ==> around.credential)
      ensures Advance(pid, Start) in steps ==> Executed(old(repository.calls), r, b, around.ending, reply)
    {
      ghost var step := Advance(pid, ReadWorkspace(around.workspace));
      ghost var t := Next(frozen, s, step);
      if around.workspace.None? || around.workspace.value.conversation != b.conversation {
        reply, steps := CompleteWith(t, pid, r, b, L.Rejected("workspace missing"), false);
      } else if around.workspace.value.revision != r.expectedRevision {
        reply, steps := CompleteWith(t, pid, r, b, L.Rejected("workspace revision changed"), false);
      } else if hasCost {
        reply, steps := BorrowCredential(t, pid, r, b, granted, around);
      } else {
        reply, steps := Execute(t, pid, r, b, false, around);
      }
      RunCons(frozen, s, step, steps);
      steps := [step] + steps;
    }

    method BorrowCredential(ghost s: State, ghost pid: Pid, r: Request, b: Binding, granted: bool, around: Surroundings)
      returns (reply: Reply, ghost steps: seq<Step>)
      requires around.workspace.Some? && StandsAt(s, pid, r, ToTakeCredential(b, granted, around.workspace.value))
      requires Claimed(r, b)
      modifies repository
      ensures Served(s, steps, pid, r, reply)
      ensures Advance(pid, Start) in steps <==> around.credential
      ensures Advance(pid, Start) in steps ==> Executed(old(repository.calls), r, b, around.ending, reply)
    {
      ghost var step := Advance(pid, TakeCredential(around.credential));
      ghost var t := Next(frozen, s, step);
      if !around.credential {
        reply, steps := Suspend(t, pid, r, b, I.AuthorizationRequired, granted);
      } else {
        reply, steps := Execute(t, pid, r, b, true, around);
      }
      RunCons(frozen, s, step, steps);
      steps := [step] + steps;
    }

    method Execute(ghost s: State, ghost pid: Pid, r: Request, b: Binding, withCredential: bool, around: Surroundings)
      returns (reply: Reply, ghost steps: seq<Step>)
      requires around.workspace.Some? && StandsAt(s, pid, r, ToStart(b, around.workspace.value, withCredential))
      requires Claimed(r, b)
      modifies repository
      ensures Served(s, steps, pid, r, reply)
      ensures Advance(pid, Start) in steps && Executed(old(repository.calls), r, b, around.ending, reply)
    {
      ghost var started := Next(frozen, s, Advance(pid, Start));
      ghost var t := Next(frozen, started, Advance(pid, Finish(around.ending)));
      match around.ending {
        case Observed(o) => reply, steps := CompleteWith(t, pid, r, b, L.ToolCompleted(o), false);
        case Erred => reply, steps := CompleteWith(t, pid, r, b, L.ToolFailed, false);
        case CancelledMidway => reply, steps := CompleteWith(t, pid, r, b, L.ToolCancelled, true);
      }
      RunCons(frozen, started, Advance(pid, Finish(around.ending)), steps);
      RunCons(frozen, s, Advance(pid, Start), [Advance(pid, Finish(around.ending))] + steps);
      steps := [Advance(pid, Start)] + ([Advance(pid, Finish(around.ending))] + steps);
    }

    /** The confirmation branch, and _authorization_required. */
    method Suspend(ghost s: State, ghost pid: Pid, r: Request, b: Binding, kind: I.Kind, granted: bool)
      returns (reply: Reply, ghost steps: seq<Step>)
      requires StandsAt(s, pid, r, ToInterrupt(b, kind, granted))
      modifies repository
      ensures Served(s, steps, pid, r, reply)
      ensures Advance(pid, Start) !in steps
    {
      ghost var t := Next(frozen, s, Advance(pid, RaiseInterrupt));
      var refusal := Raise(s, pid, r, b, kind, granted);
      steps := [];
      match refusal {
        case Some(e) => reply := Errored(e);
        case None => reply, steps := CompleteWith(t, pid, r, b, Suspension(r, kind), false);
      }
      RunCons(frozen, s, Advance(pid, RaiseInterrupt), steps);
      steps := [Advance(pid, RaiseInterrupt)] + steps;
    }

    /** get_or_create_interrupt. */
    method Raise(ghost s: State, ghost pid: Pid, r: Request, b: Binding, kind: I.Kind, granted: bool)
      returns (refusal: Option<I.Error>)
      requires StandsAt(s, pid, r, ToInterrupt(b, kind, granted))
      modifies repository
      ensures var t := Next(frozen, s, Advance(pid, RaiseInterrupt));
              StandsAt(t, pid, r, if refusal.Some? then Ended(Errored(refusal.value), true)
                                  else ToComplete(b, Suspension(r, kind), false))
    {
      var read := repository.GetInterrupt(KeyOf(r));
      var raised := repository.GetOrCreateInterrupt(read, KeyOf(r), b, kind, PayloadFor(r, kind, granted));
      match raised {
        case Refused(e) => refusal := Some(e);
        case Returned(_) => refusal := None;
      }
    }

    method CompleteWith(ghost s: State, ghost pid: Pid, r: Request, b: Binding, response: L.Response, raised: bool)
      returns (reply: Reply, ghost steps: seq<Step>)
      requires StandsAt(s, pid, r, ToComplete(b, response, raised))
      modifies repository
      ensures Served(s, steps, pid, r, reply)
      ensures steps == [Advance(pid, CompleteCall)]
      ensures old(Claimed(r, b)) && raised == response.ToolCancelled? ==> Answered(old(repository.calls), r, b, response, reply)
    {
      var persisted := repository.CompleteToolCall(KeyOf(r), DigestOf(r, b), response);
      reply := if persisted.Refused? then Errored(persisted.error) else Stored(persisted.value, raised);
      RunCons(frozen, s, Advance(pid, CompleteCall), []);
      steps := [Advance(pid, CompleteCall)] + [];
    }
  }
}
