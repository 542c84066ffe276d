/** What one request to the interrupt endpoints achieves when nothing comes between its steps: who is accepted, what is stored,
    and what a retry is told. */
module HarnessRequests {
  import opened Common
  import I = Interrupts
  import opened HarnessSidecar
  import opened HarnessResume

  /** The endpoint takes interrupts of this kind; /confirmations takes any. */
  predicate Takes(endpoint: Endpoint, kind: I.Kind) {
    match endpoint
    case Confirmations => true
    case Authorizations => kind == I.AuthorizationRequired
    case Responses(Confirm) => kind == I.AwaitingConfirmation
    case Responses(Submit) => kind == I.Form
    case Responses(FormCancelled) => kind == I.Form
  }

  /** What is stored as the answer: /responses keeps what was submitted, the others nothing. */
  function Stored(r: Request): I.Answer {
    if r.endpoint == Responses(Submit) then I.Submitted(I.Submit, r.content, r.fields)
    else if r.endpoint == Responses(Confirm) then I.Submitted(I.Confirm, r.content, r.fields)
    else I.Empty
  }

  /** The trigger that the Sidecar run is asked for under. */
  function Trigger(r: Request, kind: I.Kind): TriggerType {
    match r.endpoint
    case Confirmations => ConfirmationResume
    case Authorizations => AuthorizationResume
    case Responses(_) => if kind == I.AwaitingConfirmation then ConfirmationResume else FormResume
  }

  /** The interrupt is stored under its key, and its run has the binding that it was raised under. */
  predicate Known(s: State, k: ToolCallKey) {
    && k in s.interrupts && s.interrupts[k].key == k && s.interrupts[k].run in s.bindings
    && var row := s.interrupts[k];
       var b := s.bindings[row.run];
       b.run == row.run && b.user == row.user && b.conversation == row.conversation && b.workspace == row.workspace
  }

  /** The interrupt waits for its first answer. */
  predicate Waits(s: State, k: ToolCallKey) {
    && Known(s, k) && s.interrupts[k].status == I.Open
    && s.interrupts[k].responseId.None? && s.interrupts[k].resumedRun.None? && s.interrupts[k].answer == I.Empty
  }

  /** Nobody used the response id, for this or any other interrupt. */
  predicate NewResponse(s: State, id: ResponseId) { forall k :: k in s.interrupts ==> s.interrupts[k].responseId != Some(id) }

  predicate NewRun(s: State, run: RunId) { forall k :: k in s.interrupts ==> s.interrupts[k].resumedRun != Some(run) }

  lemma RunCons(s: State, step: Step, rest: seq<Step>)
    ensures Run(s, [step] + rest) == Run(Next(s, step), rest)
  {
    assert ([step] + rest)[1..] == rest;
  }

  function With(s: State, pid: Pid, r: Request, pc: Pc): State { s.(procs := s.procs[pid := Proc(r, pc)]) }

  lemma Unread(s: State, pid: Pid, r: Request)
    requires pid !in s.procs
    ensures Next(s, Begin(pid, r)) == With(s, pid, r, ToRead)
    ensures BindingOf(s, r.interrupt).None? ==> Next(With(s, pid, r, ToRead), Read(pid)) == With(s, pid, r, Ended(NotFound))
    ensures BindingOf(s, r.interrupt).Some? ==>
              Next(With(s, pid, r, ToRead), Read(pid)) == With(s, pid, r, ReadBy(r, s.interrupts[r.interrupt]))
  {
  }

  /** A transaction that ends right after it began. */
  lemma EndsAtOnce(s: State, pid: Pid, r: Request, at: Pc)
    requires (at.ToRespond? || at.ToCancel? || at.ToBind?) && CallOf(s, r, at).Some?
    ensures var fetched := With(s, pid, r, Fetched(at, I.Get(s.interrupts, r.interrupt)));
            var result := I.Perform(s.interrupts, CallOf(s, r, at).value);
            && Next(With(s, pid, r, at), Fetch(pid)) == fetched
            && Next(fetched, End(pid))
               == With(if result.Done? then s.(interrupts := result.state) else s, pid, r, AfterCall(at, result))
  {
    var fetched := With(s, pid, r, Fetched(at, I.Get(s.interrupts, r.interrupt)));
    assert CallOf(fetched, r, at) == CallOf(s, r, at);
    FetchesRow(s, pid, r, at);
    assert CallOf(s, r, at).value.key == r.interrupt;
  }

  lemma FetchesRow(s: State, pid: Pid, r: Request, at: Pc)
    requires at.ToRespond? || at.ToCancel? || at.ToBind?
    ensures Next(With(s, pid, r, at), Fetch(pid)) == With(s, pid, r, Fetched(at, I.Get(s.interrupts, r.interrupt)))
  {
  }

  /** A request reads, and its first transaction comes right after. */
  lemma Answers(s: State, pid: Pid, r: Request, rest: seq<Step>)
    requires pid !in s.procs && Known(s, r.interrupt)
    requires ReadBy(r, s.interrupts[r.interrupt]).ToRespond? || ReadBy(r, s.interrupts[r.interrupt]).ToCancel?
    ensures var at := ReadBy(r, s.interrupts[r.interrupt]);
            CallOf(s, r, at).Some?
            && var result := I.Perform(s.interrupts, CallOf(s, r, at).value);
               Run(s, [Begin(pid, r)] + ([Read(pid)] + ([Fetch(pid)] + ([End(pid)] + rest))))
               == Run(With(if result.Done? then s.(interrupts := result.state) else s, pid, r, AfterCall(at, result)), rest)
  {
    var at, read := ReadBy(r, s.interrupts[r.interrupt]), I.Get(s.interrupts, r.interrupt);
    Unread(s, pid, r);
    RunCons(s, Begin(pid, r), [Read(pid)] + ([Fetch(pid)] + ([End(pid)] + rest)));
    RunCons(With(s, pid, r, ToRead), Read(pid), [Fetch(pid)] + ([End(pid)] + rest));
    EndsAtOnce(s, pid, r, at);
    RunCons(With(s, pid, r, at), Fetch(pid), [End(pid)] + rest);
    RunCons(With(s, pid, r, Fetched(at, read)), End(pid), rest);
  }

  /** A request that got its answer stored has the run made and binds it. */
  lemma Resumes(s: State, pid: Pid, r: Request, row: I.Interrupt, newId: RunId, digest: nat)
    requires Known(s, r.interrupt) && s.interrupts[r.interrupt] == row && (forall k :: k in s.interrupts ==> s.interrupts[k].key == k)
    requires row.status == I.Responded && row.responseId == Some(r.responseId) && row.resumedRun.None?
    requires KeyOf(r, row) !in s.runs && !RunIdUsed(s.runs, newId) && NewRun(s, newId)
    ensures Run(With(s, pid, r, ToCreate(row)), [Create(pid, newId, digest)] + ([Fetch(pid)] + ([End(pid)] + [])))
            == With(s.(interrupts := s.interrupts[r.interrupt := row.(resumedRun := Some(newId))],
                       runs := s.runs[KeyOf(r, row) := Entry(newId, digest)],
                       creations := s.creations + [Creation(r.interrupt, r.endpoint, KeyOf(r, row))]),
                    pid, r, Ended(Accepted(newId)))
  {
    var key, bind := KeyOf(r, row), ToBind(row, newId);
    var standing := With(s, pid, r, ToCreate(row));
    var made := s.(runs := s.runs[key := Entry(newId, digest)], creations := s.creations + [Creation(r.interrupt, r.endpoint, key)]);
    RunCons(standing, Create(pid, newId, digest), [Fetch(pid)] + ([End(pid)] + []));
    assert Next(standing, Create(pid, newId, digest)) == With(made, pid, r, bind);
    RunCons(With(made, pid, r, bind), Fetch(pid), [End(pid)] + []);
    var fetched := With(made, pid, r, Fetched(bind, Some(row)));
    assert Next(With(made, pid, r, bind), Fetch(pid)) == fetched;
    RunCons(fetched, End(pid), []);
    BindSucceeds(s, r, row, newId);
    assert CallOf(fetched, r, bind) == Some(I.Resume(r.interrupt, r.responseId, newId));
  }

  lemma BindSucceeds(s: State, r: Request, row: I.Interrupt, newId: RunId)
    requires r.interrupt in s.interrupts && s.interrupts[r.interrupt] == row
    requires forall k :: k in s.interrupts ==> s.interrupts[k].key == k
    requires row.status == I.Responded && row.responseId == Some(r.responseId) && row.resumedRun.None? && NewRun(s, newId)
    ensures var c, after := I.Resume(r.interrupt, r.responseId, newId), row.(resumedRun := Some(newId));
            I.Commit(s.interrupts, Some(row), c) == Done(s.interrupts[r.interrupt := after], after)
  {
    I.ResumedAs(s.interrupts, I.Resume(r.interrupt, r.responseId, newId));
  }

  /** The steps of a request from beginning to end, one after the other. */
  function WholeRequest(pid: Pid, r: Request, newId: RunId, digest: nat): seq<Step> {
    [Begin(pid, r)] + ([Read(pid)] + ([Fetch(pid)] + ([End(pid)]
      + ([Create(pid, newId, digest)] + ([Fetch(pid)] + ([End(pid)] + []))))))
  }

  /** An undisturbed request for an open interrupt is accepted if and only if its endpoint takes the kind and the workspace
      revision it names is no older than the interrupt. It then stores its answer, has one new Sidecar run made under the
      trigger of its endpoint and the response, and binds that run, which its caller is told. Otherwise the interrupt stays
      open and no run is made. */
  lemma OpenInterruptResumes(s: State, pid: Pid, r: Request, newId: RunId, digest: nat)
    requires pid !in s.procs && Waits(s, r.interrupt) && r.endpoint != Responses(FormCancelled)
    requires forall k :: k in s.interrupts ==> s.interrupts[k].key == k
    requires NewResponse(s, r.responseId) && NewRun(s, newId) && !RunIdUsed(s.runs, newId)
    requires forall key :: key in s.runs ==> key.triggerId != OfResponse(r.interrupt, r.responseId)
    ensures var t, row := Run(s, WholeRequest(pid, r, newId, digest)), s.interrupts[r.interrupt];
            && pid in t.procs
            && (t.procs[pid].pc == Ended(Accepted(newId)) <==> Takes(r.endpoint, row.kind) && row.revision <= r.expectedRevision)
            && (t.procs[pid].pc == Ended(Accepted(newId)) ==>
                  && t.interrupts == s.interrupts[r.interrupt := row.(status := I.Responded, responseId := Some(r.responseId),
                                                                      answer := Stored(r), resumedRun := Some(newId))]
                  && t.runs == s.runs[RunKey(Trigger(r, row.kind), OfResponse(r.interrupt, r.responseId)) := Entry(newId, digest)])
            && (t.procs[pid].pc != Ended(Accepted(newId)) ==> t.interrupts == s.interrupts && t.runs == s.runs)
  {
    var row := s.interrupts[r.interrupt];
    if !Takes(r.endpoint, row.kind) {
      RefusedAtOnce(s, pid, r, newId, digest);
    } else if row.revision <= r.expectedRevision {
      AcceptedAlone(s, pid, r, newId, digest);
    } else {
      var resume := [Create(pid, newId, digest)] + ([Fetch(pid)] + ([End(pid)] + []));
      Answers(s, pid, r, resume);
      I.RepliedAs(s.interrupts, CallOf(s, r, ToRespond).value);
      EndedStays(With(s, pid, r, Ended(Conflict)), pid, newId, digest);
    }
  }

  /** The answer of a request that fits is stored. */
  lemma StoresAnswer(s: State, r: Request)
    requires Waits(s, r.interrupt) && r.endpoint != Responses(FormCancelled) && Takes(r.endpoint, s.interrupts[r.interrupt].kind)
    requires (forall k :: k in s.interrupts ==> s.interrupts[k].key == k) && NewResponse(s, r.responseId)
    requires s.interrupts[r.interrupt].revision <= r.expectedRevision
    ensures ReadBy(r, s.interrupts[r.interrupt]) == ToRespond && CallOf(s, r, ToRespond).Some?
    ensures var row := s.interrupts[r.interrupt].(status := I.Responded, responseId := Some(r.responseId), answer := Stored(r));
            I.Perform(s.interrupts, CallOf(s, r, ToRespond).value) == Done(s.interrupts[r.interrupt := row], row)
  {
    I.RepliedAs(s.interrupts, CallOf(s, r, ToRespond).value);
  }

  lemma AcceptedAlone(s: State, pid: Pid, r: Request, newId: RunId, digest: nat)
    requires pid !in s.procs && Waits(s, r.interrupt) && r.endpoint != Responses(FormCancelled)
    requires forall k :: k in s.interrupts ==> s.interrupts[k].key == k
    requires NewResponse(s, r.responseId) && NewRun(s, newId) && !RunIdUsed(s.runs, newId)
    requires forall key :: key in s.runs ==> key.triggerId != OfResponse(r.interrupt, r.responseId)
    requires Takes(r.endpoint, s.interrupts[r.interrupt].kind) && s.interrupts[r.interrupt].revision <= r.expectedRevision
    ensures var t, row := Run(s, WholeRequest(pid, r, newId, digest)), s.interrupts[r.interrupt];
            && pid in t.procs && t.procs[pid].pc == Ended(Accepted(newId))
            && t.interrupts == s.interrupts[r.interrupt := row.(status := I.Responded, responseId := Some(r.responseId),
                                                                answer := Stored(r), resumedRun := Some(newId))]
            && t.runs == s.runs[RunKey(Trigger(r, row.kind), OfResponse(r.interrupt, r.responseId)) := Entry(newId, digest)]
  {
    var row := s.interrupts[r.interrupt].(status := I.Responded, responseId := Some(r.responseId), answer := Stored(r));
    var t := s.(interrupts := s.interrupts[r.interrupt := row]);
    Answers(s, pid, r, [Create(pid, newId, digest)] + ([Fetch(pid)] + ([End(pid)] + [])));
    StoresAnswer(s, r);
    Resumes(t, pid, r, row, newId, digest);
    var both := row.(resumedRun := Some(newId));
    assert t.interrupts[r.interrupt := both] == s.interrupts[r.interrupt := both];
  }

  lemma EndedStays(s: State, pid: Pid, newId: RunId, digest: nat)
    requires pid in s.procs && s.procs[pid].pc.Ended?
    ensures Run(s, [Create(pid, newId, digest)] + ([Fetch(pid)] + ([End(pid)] + []))) == s
  {
    RunCons(s, Create(pid, newId, digest), [Fetch(pid)] + ([End(pid)] + []));
    RunCons(s, Fetch(pid), [End(pid)] + []);
    RunCons(s, End(pid), []);
  }

  lemma RefusedAtOnce(s: State, pid: Pid, r: Request, newId: RunId, digest: nat)
    requires pid !in s.procs && Known(s, r.interrupt) && !Takes(r.endpoint, s.interrupts[r.interrupt].kind)
    requires r.endpoint != Responses(FormCancelled)
    ensures var refusal := if r.endpoint == Authorizations then NotFound else NotSupported;
            Run(s, WholeRequest(pid, r, newId, digest)) == With(s, pid, r, Ended(refusal))
  {
    var rest := [Create(pid, newId, digest)] + ([Fetch(pid)] + ([End(pid)] + []));
    var t := With(s, pid, r, ReadBy(r, s.interrupts[r.interrupt]));
    Unread(s, pid, r);
    RunCons(s, Begin(pid, r), [Read(pid)] + ([Fetch(pid)] + ([End(pid)] + rest)));
    RunCons(With(s, pid, r, ToRead), Read(pid), [Fetch(pid)] + ([End(pid)] + rest));
    RunCons(t, Fetch(pid), [End(pid)] + rest);
    RunCons(t, End(pid), rest);
    EndedStays(t, pid, newId, digest);
  }

  /** The same for cancelling: an undisturbed form_cancelled request closes exactly an open form that is no newer than it
      says, and stores that; nothing is resumed. */
  lemma OpenFormCloses(s: State, pid: Pid, r: Request)
    requires pid !in s.procs && Waits(s, r.interrupt) && r.endpoint == Responses(FormCancelled)
    requires (forall k :: k in s.interrupts ==> s.interrupts[k].key == k) && NewResponse(s, r.responseId)
    ensures var t := Run(s, [Begin(pid, r)] + ([Read(pid)] + ([Fetch(pid)] + ([End(pid)] + []))));
            var row := s.interrupts[r.interrupt];
            && pid in t.procs && t.runs == s.runs
            && (t.procs[pid].pc == Ended(Cancelled) <==> row.kind == I.Form && row.revision <= r.expectedRevision)
            && (if t.procs[pid].pc == Ended(Cancelled) then
                  t.interrupts == s.interrupts[r.interrupt := row.(status := I.Cancelled, responseId := Some(r.responseId),
                                                                   answer := I.FormCancelled)]
                else t.interrupts == s.interrupts)
  {
    Answers(s, pid, r, []);
    I.ClosedAs(s.interrupts, CallOf(s, r, ToCancel).value);
  }

  lemma ConfirmedAgain(s: State, pid: Pid, r: Request)
    requires pid !in s.procs && Known(s, r.interrupt) && (forall k :: k in s.interrupts ==> s.interrupts[k].key == k)
    requires r.endpoint.Confirmations? && s.interrupts[r.interrupt].status == I.Responded
    requires s.interrupts[r.interrupt].responseId.Some? && s.interrupts[r.interrupt].resumedRun.Some?
    ensures var t := Run(s, [Begin(pid, r)] + ([Read(pid)] + ([Fetch(pid)] + ([End(pid)] + []))));
            var row := s.interrupts[r.interrupt];
            && pid in t.procs && t.interrupts == s.interrupts && t.runs == s.runs
            && t.procs[pid].pc == Ended(if row.responseId == Some(r.responseId) && row.answer == I.Empty
                                        then Accepted(row.resumedRun.value) else Conflict)
  {
    Answers(s, pid, r, []);
    I.RepliedAs(s.interrupts, CallOf(s, r, ToRespond).value);
  }

  /** A retry after the interrupt was resumed is told the run that was bound, and changes nothing: through /authorizations
      always, through /responses exactly with the same content, through /confirmations exactly with the same response id and
      when the stored content is its own. */
  lemma RetryIsTold(s: State, pid: Pid, r: Request)
    requires pid !in s.procs && Known(s, r.interrupt) && (forall k :: k in s.interrupts ==> s.interrupts[k].key == k)
    requires Takes(r.endpoint, s.interrupts[r.interrupt].kind) && r.endpoint != Responses(FormCancelled)
    requires s.interrupts[r.interrupt].status == I.Responded && s.interrupts[r.interrupt].responseId.Some?
    requires s.interrupts[r.interrupt].resumedRun.Some?
    ensures var t := Run(s, [Begin(pid, r)] + ([Read(pid)] + ([Fetch(pid)] + ([End(pid)] + []))));
            var row := s.interrupts[r.interrupt];
            && pid in t.procs && t.interrupts == s.interrupts && t.runs == s.runs
            && t.procs[pid].pc == Ended(
                 if match r.endpoint
                    case Authorizations => true
                    case Responses(_) => row.answer == Stored(r)
                    case Confirmations => row.responseId == Some(r.responseId) && row.answer == I.Empty
                 then Accepted(row.resumedRun.value) else Conflict)
  {
    var row := s.interrupts[r.interrupt];
    if r.endpoint.Confirmations? {
      ConfirmedAgain(s, pid, r);
    } else {
      var t := With(s, pid, r, ReadBy(r, row));
      Unread(s, pid, r);
      RunCons(s, Begin(pid, r), [Read(pid)] + ([Fetch(pid)] + ([End(pid)] + [])));
      RunCons(With(s, pid, r, ToRead), Read(pid), [Fetch(pid)] + ([End(pid)] + []));
      RunCons(t, Fetch(pid), [End(pid)] + []);
      RunCons(t, End(pid), []);
    }
  }
}
