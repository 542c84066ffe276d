/** The three endpoints that answer an interrupt and start the run that resumes it. Each request is a process that takes
    one repository or Sidecar operation at a time, so that requests, retries and crashes interleave; a transaction on an
    interrupt reads its row in one step and ends in another. */
module HarnessResume {
  import opened Common
  import I = Interrupts
  import T = InterruptTransactions
  import opened HarnessSidecar

  type ToolCallKey = I.ToolCallKey
  type ResponseId = I.ResponseId
  type Pid = nat

  datatype Endpoint = Confirmations | Responses(action: ResponseAction) | Authorizations
  datatype ResponseAction = Submit | Confirm | FormCancelled

  datatype Request = Request(
    endpoint: Endpoint, interrupt: ToolCallKey, responseId: ResponseId, expectedRevision: int,
    content: Option<string>, fields: map<string, string>)

  /** Where a request stands. ToCreate and ToBind carry the interrupt as the request last read it, Fetched the row as the
      transaction under way read it. */
  datatype Pc =
    | ToRead
    | ToRespond
    | ToCancel
    | ToCreate(row: I.Interrupt)
    | ToBind(row: I.Interrupt, run: RunId)
    | Fetched(pc: Pc, read: Option<I.Interrupt>)
    | Ended(reply: Reply)

  datatype Reply = Accepted(run: RunId) | Cancelled | NotFound | NotSupported | Conflict | Changed | Crashed

  datatype Proc = Proc(request: Request, pc: Pc)

  /** One create-or-read request to the Sidecar on behalf of an interrupt. */
  datatype Creation = Creation(interrupt: ToolCallKey, endpoint: Endpoint, key: RunKey)

  datatype State = State(
    bindings: map<RunId, I.Binding>, interrupts: I.Interrupts, runs: Runs, procs: map<Pid, Proc>, creations: seq<Creation>)

  datatype Step =
    | Begin(pid: Pid, request: Request)
    | Read(pid: Pid)
    | Fetch(pid: Pid)
    | End(pid: Pid)
    | Create(pid: Pid, newId: RunId, digest: nat)
    | Crash(pid: Pid)
    | Raise(key: ToolCallKey, binding: I.Binding, kind: I.Kind, payload: I.Payload)

  /** The content a request wants stored with its response. */
  function AnswerOf(r: Request): I.Answer {
    match r.endpoint
    case Responses(Submit) => I.Submitted(I.Submit, r.content, r.fields)
    case Responses(Confirm) => I.Submitted(I.Confirm, r.content, r.fields)
    case _ => I.Empty
  }

  /** After the interrupt was responded: a bound run ends the request, otherwise one is to be created. */
  function Responded(row: I.Interrupt): Pc {
    if row.resumedRun.Some? then Ended(Accepted(row.resumedRun.value)) else ToCreate(row)
  }

  /** The guards on the interrupt as first read. /confirmations reads no interrupt. */
  function ReadBy(r: Request, row: I.Interrupt): Pc {
    match r.endpoint
    case Confirmations => ToRespond
    case Responses(FormCancelled) => ToCancel
    case Responses(action) =>
      if (action == Confirm && row.kind != I.AwaitingConfirmation) || (action == Submit && row.kind != I.Form) then
        Ended(NotSupported)
      else if row.status == I.Responded then
        if row.answer != AnswerOf(r) then Ended(Conflict) else Responded(row)
      else ToRespond
    case Authorizations =>
      if row.kind != I.AuthorizationRequired then Ended(NotFound)
      else if row.status == I.Responded then Responded(row)
      else ToRespond
  }

  function TriggerFor(endpoint: Endpoint, kind: I.Kind): TriggerType {
    match endpoint
    case Confirmations => ConfirmationResume
    case Authorizations => AuthorizationResume
    case Responses(_) => if kind == I.AwaitingConfirmation then ConfirmationResume else FormResume
  }

  /** The response id the resume is keyed and bound with. */
  function ResumeId(r: Request, row: I.Interrupt): ResponseId {
    if r.endpoint.Confirmations? || row.responseId.None? then r.responseId else row.responseId.value
  }

  function KeyOf(r: Request, row: I.Interrupt): RunKey {
    RunKey(TriggerFor(r.endpoint, row.kind), OfResponse(r.interrupt, ResumeId(r, row)))
  }

  function BindingOf(s: State, k: ToolCallKey): Option<I.Binding> {
    if k in s.interrupts && s.interrupts[k].run in s.bindings then Some(s.bindings[s.interrupts[k].run]) else None
  }

  /** The interrupt call of a request that stands at one. */
  function CallOf(s: State, r: Request, pc: Pc): Option<I.Call> {
    var b := BindingOf(s, r.interrupt);
    match pc
    case ToRespond =>
      if b.None? then None else Some(I.Reply(r.interrupt, b.value, r.responseId, r.expectedRevision, AnswerOf(r)))
    case ToCancel => if b.None? then None else Some(I.Close(r.interrupt, b.value, r.responseId, r.expectedRevision))
    case ToBind(row, run) => Some(I.Resume(r.interrupt, ResumeId(r, row), run))
    case _ => None
  }

  /** Where the request stands after its call. */
  function AfterCall(pc: Pc, result: I.Result): Pc {
    if result.Raised? then Ended(Conflict)
    else match pc
      case ToRespond => Responded(result.value)
      case ToCancel => Ended(Cancelled)
      case ToBind(_, run) => Ended(Accepted(run))
      case _ => pc
  }

  function Moved(s: State, pid: Pid, pc: Pc): State
    requires pid in s.procs
  {
    s.(procs := s.procs[pid := Proc(s.procs[pid].request, pc)])
  }

  function AfterFetch(s: State, pid: Pid): State
    requires pid in s.procs
  {
    var p := s.procs[pid];
    if p.pc.ToRespond? || p.pc.ToCancel? || p.pc.ToBind? then Moved(s, pid, Fetched(p.pc, I.Get(s.interrupts, p.request.interrupt)))
    else s
  }

  function AfterEnd(s: State, pid: Pid): State
    requires pid in s.procs && s.procs[pid].pc.Fetched?
  {
    var p := s.procs[pid];
    var call := CallOf(s, p.request, p.pc.pc);
    if call.None? then s
    else
      Moved(s.(interrupts := I.Committed(s.interrupts, p.pc.read, call.value)), pid,
            AfterCall(p.pc.pc, I.Commit(s.interrupts, p.pc.read, call.value)))
  }

  function Created(s: State, pid: Pid, newId: RunId, digest: nat): State
    requires pid in s.procs && s.procs[pid].pc.ToCreate?
  {
    var p := s.procs[pid];
    var key := KeyOf(p.request, p.pc.row);
    if key !in s.runs && RunIdUsed(s.runs, newId) then s
    else
      var runs := CreateOrRead(s.runs, key, newId, digest);
      Moved(s.(runs := runs, creations := s.creations + [Creation(p.request.interrupt, p.request.endpoint, key)]), pid,
            if Accepts(s.runs, key, digest) then ToBind(p.pc.row, runs[key].run) else Ended(Changed))
  }

  /** A step of a request that does not stand there changes nothing. */
  function Next(s: State, step: Step): State {
    match step
    case Begin(pid, r) => if pid in s.procs then s else s.(procs := s.procs[pid := Proc(r, ToRead)])
    case Raise(key, b, kind, payload) => s.(interrupts := I.Next(s.interrupts, I.Raise(key, b, kind, payload)))
    case Read(pid) =>
      if pid !in s.procs || !s.procs[pid].pc.ToRead? then s
      else
        var r := s.procs[pid].request;
        Moved(s, pid, if BindingOf(s, r.interrupt).None? then Ended(NotFound) else ReadBy(r, s.interrupts[r.interrupt]))
    case Fetch(pid) => if pid in s.procs then AfterFetch(s, pid) else s
    case End(pid) => if pid in s.procs && s.procs[pid].pc.Fetched? then AfterEnd(s, pid) else s
    case Create(pid, newId, digest) => if pid in s.procs && s.procs[pid].pc.ToCreate? then Created(s, pid, newId, digest) else s
    case Crash(pid) => if pid in s.procs && !s.procs[pid].pc.Ended? then Moved(s, pid, Ended(Crashed)) else s
  }

  /** The step ends a transaction that overwrites an answer, or a resumed run, that came after it read the row. */
  predicate Overwrites(s: State, step: Step) {
    && step.End? && step.pid in s.procs && s.procs[step.pid].pc.Fetched?
    && var p := s.procs[step.pid];
       var call := CallOf(s, p.request, p.pc.pc);
       call.Some? && T.Overwrites(s.interrupts, T.Transaction(call.value, p.pc.read))
  }

  /** No transaction overwrites what came after it read the row. Overlapping retries and binds of one run do not. */
  predicate NeverOverwrites(s: State, steps: seq<Step>)
    decreases |steps|
  {
    steps == [] || (!Overwrites(s, steps[0]) && NeverOverwrites(Next(s, steps[0]), steps[1..]))
  }

  function Run(s: State, steps: seq<Step>): State
    decreases |steps|
  {
    if steps == [] then s else Run(Next(s, steps[0]), steps[1..])
  }

  // ---------------------------------------------------------------- one key per interrupt

  /** The key every request through /responses and /authorizations uses for an answered interrupt. */
  function ProperType(kind: I.Kind): TriggerType {
    match kind
    case AwaitingConfirmation => ConfirmationResume
    case AuthorizationRequired => AuthorizationResume
    case Form => FormResume
  }

  predicate CreationSound(rows: I.Interrupts, c: Creation) {
    && c.interrupt in rows && rows[c.interrupt].responseId.Some?
    && c.key.triggerId == OfResponse(c.interrupt, rows[c.interrupt].responseId.value)
    && c.key.triggerType == if c.endpoint.Confirmations? then ConfirmationResume else ProperType(rows[c.interrupt].kind)
  }

  /** What a request carries is the answered row, as far as later steps look at it. The content may be the request's own,
      when another request with the same response id came first. */
  predicate CarriesRow(rows: I.Interrupts, r: Request, row: I.Interrupt) {
    && r.interrupt in rows && row.responseId.Some? && row.status == I.Responded
    && row.kind == rows[r.interrupt].kind && row.responseId == rows[r.interrupt].responseId
    && row.status == rows[r.interrupt].status
    && (row.resumedRun.Some? ==> row.resumedRun == rows[r.interrupt].resumedRun)
    && (r.endpoint.Confirmations? ==> row.responseId == Some(r.responseId))
    && (r.endpoint.Authorizations? ==> row.kind == I.AuthorizationRequired)
    && (r.endpoint == Responses(Confirm) ==> row.kind == I.AwaitingConfirmation)
    && (r.endpoint == Responses(Submit) ==> row.kind == I.Form)
    && r.endpoint != Responses(FormCancelled)
  }

  /** The run is the Sidecar's answer to a request made on behalf of the interrupt. */
  ghost predicate RunFor(runs: Runs, creations: seq<Creation>, k: ToolCallKey, run: RunId) {
    exists i :: 0 <= i < |creations| && creations[i].interrupt == k && creations[i].key in runs
                && runs[creations[i].key].run == run
  }

  predicate RespondsToKind(rows: I.Interrupts, r: Request) {
    match r.endpoint
    case Confirmations => true
    case Authorizations => r.interrupt in rows && rows[r.interrupt].kind == I.AuthorizationRequired
    case Responses(Confirm) => r.interrupt in rows && rows[r.interrupt].kind == I.AwaitingConfirmation
    case Responses(Submit) => r.interrupt in rows && rows[r.interrupt].kind == I.Form
    case Responses(FormCancelled) => false
  }

  /** What a bind read is answered as the request that binds knows it. */
  predicate ReadAnswered(inner: Pc, read: Option<I.Interrupt>) {
    inner.ToBind? ==> read.Some? && read.value.status == I.Responded && read.value.responseId == inner.row.responseId
  }

  ghost predicate PcSound(rows: I.Interrupts, runs: Runs, creations: seq<Creation>, r: Request, pc: Pc) {
    match pc
    case ToRespond => RespondsToKind(rows, r)
    case ToCreate(row) => CarriesRow(rows, r, row)
    case ToBind(row, run) =>
      CarriesRow(rows, r, row) && RunFor(runs, creations, r.interrupt, run)
      && KeyOf(r, row) in runs && runs[KeyOf(r, row)].run == run
    case Fetched(inner, read) =>
      (inner.ToRespond? || inner.ToCancel? || inner.ToBind?) && PcSound(rows, runs, creations, r, inner)
      && T.ReadSound(rows, r.interrupt, read) && ReadAnswered(inner, read)
    case Ended(Accepted(run)) => r.interrupt in rows && rows[r.interrupt].resumedRun == Some(run)
    case _ => true
  }

  ghost predicate ProcSound(rows: I.Interrupts, runs: Runs, creations: seq<Creation>, p: Proc) {
    PcSound(rows, runs, creations, p.request, p.pc)
  }

  ghost predicate BoundSound(runs: Runs, creations: seq<Creation>, k: ToolCallKey, row: I.Interrupt) {
    row.resumedRun.Some? ==> RunFor(runs, creations, k, row.resumedRun.value)
  }

  ghost predicate AllBound(rows: I.Interrupts, runs: Runs, creations: seq<Creation>) {
    forall k :: k in rows ==> BoundSound(runs, creations, k, rows[k])
  }

  ghost predicate CreationsSound(rows: I.Interrupts, runs: Runs, creations: seq<Creation>) {
    forall i :: 0 <= i < |creations| ==> CreationSound(rows, creations[i]) && creations[i].key in runs
  }

  ghost predicate Sound(s: State) {
    && I.Sound(s.interrupts) && DistinctRuns(s.runs)
    && (forall p :: p in s.procs ==> ProcSound(s.interrupts, s.runs, s.creations, s.procs[p]))
    && AllBound(s.interrupts, s.runs, s.creations)
    && CreationsSound(s.interrupts, s.runs, s.creations)
  }

  // ---------------------------------------------------------------- every step keeps it

  lemma PcStays(a: I.Interrupts, b: I.Interrupts, runs: Runs, creations: seq<Creation>, r: Request, pc: Pc)
    requires I.Later(a, b) && PcSound(a, runs, creations, r, pc)
    ensures PcSound(b, runs, creations, r, pc)
  {
    if r.interrupt in a { assert I.RowLater(a[r.interrupt], b[r.interrupt]); }
    if pc.Fetched? { PcStays(a, b, runs, creations, r, pc.pc); }
  }

  lemma CreationStays(a: I.Interrupts, b: I.Interrupts, c: Creation)
    requires I.Later(a, b) && CreationSound(a, c)
    ensures CreationSound(b, c)
  {
    assert I.RowLater(a[c.interrupt], b[c.interrupt]);
  }

  /** An interrupt call keeps everything, provided that what it binds is a Sidecar run of the interrupt. */
  lemma RowsMove(s: State, call: I.Call)
    requires Sound(s) && AllBound(I.Next(s.interrupts, call), s.runs, s.creations)
    ensures Sound(s.(interrupts := I.Next(s.interrupts, call)))
  {
    var after := I.Next(s.interrupts, call);
    I.CallIsLater(s.interrupts, call);
    I.CallKeepsSound(s.interrupts, call);
    forall p | p in s.procs ensures ProcSound(after, s.runs, s.creations, s.procs[p]) {
      PcStays(s.interrupts, after, s.runs, s.creations, s.procs[p].request, s.procs[p].pc);
    }
    forall i | 0 <= i < |s.creations| ensures CreationSound(after, s.creations[i]) {
      CreationStays(s.interrupts, after, s.creations[i]);
    }
  }

  lemma UnboundCallKeepsBound(rows: I.Interrupts, runs: Runs, creations: seq<Creation>, call: I.Call)
    requires !call.Resume? && I.Sound(rows) && AllBound(rows, runs, creations)
    ensures AllBound(I.Next(rows, call), runs, creations)
  {
    var after := I.Next(rows, call);
    forall k | k in after ensures BoundSound(runs, creations, k, after[k]) {
      if k in rows {
        assert BoundSound(runs, creations, k, rows[k]) && after[k].resumedRun == rows[k].resumedRun;
      }
    }
  }

  lemma BindKeepsBound(rows: I.Interrupts, runs: Runs, creations: seq<Creation>, r: Request, pc: Pc)
    requires AllBound(rows, runs, creations) && pc.ToBind? && PcSound(rows, runs, creations, r, pc)
    ensures AllBound(I.Next(rows, I.Resume(r.interrupt, ResumeId(r, pc.row), pc.run)), runs, creations)
  {
    var after := I.Next(rows, I.Resume(r.interrupt, ResumeId(r, pc.row), pc.run));
    forall k | k in after ensures BoundSound(runs, creations, k, after[k]) {
      assert BoundSound(runs, creations, k, rows[k]);
    }
  }

  lemma PcMove(s: State, pid: Pid, pc: Pc)
    requires Sound(s) && pid in s.procs && ProcSound(s.interrupts, s.runs, s.creations, Proc(s.procs[pid].request, pc))
    ensures Sound(Moved(s, pid, pc))
  {
  }

  lemma ReadIsSound(s: State, r: Request)
    requires I.Sound(s.interrupts) && r.interrupt in s.interrupts
    ensures ProcSound(s.interrupts, s.runs, s.creations, Proc(r, ReadBy(r, s.interrupts[r.interrupt])))
  {
    assert I.RowSound(s.interrupts[r.interrupt]);
    match r.endpoint
    case Confirmations =>
    case Authorizations =>
    case Responses(action) => match action case Submit => case Confirm => case FormCancelled =>
  }

  /** After its own response the request carries the answered row. */
  lemma RespondIsSound(s: State, r: Request, read: Option<I.Interrupt>, b: I.Binding)
    requires I.Sound(s.interrupts) && RespondsToKind(s.interrupts, r) && T.ReadSound(s.interrupts, r.interrupt, read)
    requires var call := I.Reply(r.interrupt, b, r.responseId, r.expectedRevision, AnswerOf(r));
             !T.Overwrites(s.interrupts, T.Transaction(call, read))
    ensures var call := I.Reply(r.interrupt, b, r.responseId, r.expectedRevision, AnswerOf(r));
            PcSound(I.Committed(s.interrupts, read, call), s.runs, s.creations, r,
                    AfterCall(ToRespond, I.Commit(s.interrupts, read, call)))
  {
    if r.interrupt in s.interrupts { assert I.RowSound(s.interrupts[r.interrupt]); }
    match r.endpoint
    case Confirmations =>
    case Authorizations =>
    case Responses(action) => match action case Submit => case Confirm =>
  }

  lemma BindIsSound(s: State, r: Request, pc: Pc, read: Option<I.Interrupt>)
    requires pc.ToBind? && T.ReadSound(s.interrupts, r.interrupt, read)
    ensures var call := I.Resume(r.interrupt, ResumeId(r, pc.row), pc.run);
            PcSound(I.Committed(s.interrupts, read, call), s.runs, s.creations, r,
                    AfterCall(pc, I.Commit(s.interrupts, read, call)))
  {
  }

  lemma EndKeepsSound(s: State, pid: Pid)
    requires Sound(s) && pid in s.procs && s.procs[pid].pc.Fetched? && !Overwrites(s, End(pid))
    ensures Sound(AfterEnd(s, pid))
  {
    var p := s.procs[pid];
    var inner, read := p.pc.pc, p.pc.read;
    assert PcSound(s.interrupts, s.runs, s.creations, p.request, inner);
    var call := CallOf(s, p.request, inner);
    if call.Some? {
      if inner.ToBind? {
        BindKeepsBound(s.interrupts, s.runs, s.creations, p.request, inner);
        BindIsSound(s, p.request, inner, read);
      } else {
        UnboundCallKeepsBound(s.interrupts, s.runs, s.creations, call.value);
        if inner.ToRespond? { RespondIsSound(s, p.request, read, call.value.binding); }
      }
      T.EndIsCall(s.interrupts, T.Transaction(call.value, read));
      RowsMove(s, call.value);
      PcMove(s.(interrupts := I.Committed(s.interrupts, read, call.value)), pid,
             AfterCall(inner, I.Commit(s.interrupts, read, call.value)));
    }
  }

  lemma FetchKeepsSound(s: State, pid: Pid)
    requires Sound(s) && pid in s.procs
    ensures Sound(AfterFetch(s, pid))
  {
    var p := s.procs[pid];
    assert ProcSound(s.interrupts, s.runs, s.creations, p);
    if p.pc.ToRespond? || p.pc.ToCancel? || p.pc.ToBind? {
      PcMove(s, pid, Fetched(p.pc, I.Get(s.interrupts, p.request.interrupt)));
    }
  }

  lemma TriggerIsProper(rows: I.Interrupts, r: Request, row: I.Interrupt)
    requires CarriesRow(rows, r, row)
    ensures KeyOf(r, row).triggerType ==
            if r.endpoint.Confirmations? then ConfirmationResume else ProperType(rows[r.interrupt].kind)
  {
    match r.endpoint
    case Confirmations =>
    case Authorizations =>
    case Responses(action) => match action case Submit => case Confirm =>
  }

  lemma RunStaysFor(runs: Runs, creations: seq<Creation>, more: Runs, c: Creation, k: ToolCallKey, run: RunId)
    requires RunFor(runs, creations, k, run) && forall key :: key in runs ==> key in more && more[key] == runs[key]
    ensures RunFor(more, creations + [c], k, run)
  {
    var i :| 0 <= i < |creations| && creations[i].interrupt == k && creations[i].key in runs && runs[creations[i].key].run == run;
    assert (creations + [c])[i] == creations[i];
  }

  lemma PcStaysLogged(rows: I.Interrupts, runs: Runs, creations: seq<Creation>, more: Runs, c: Creation, r: Request, pc: Pc)
    requires PcSound(rows, runs, creations, r, pc) && forall key :: key in runs ==> key in more && more[key] == runs[key]
    ensures PcSound(rows, more, creations + [c], r, pc)
  {
    if pc.ToBind? { RunStaysFor(runs, creations, more, c, r.interrupt, pc.run); }
    if pc.Fetched? { PcStaysLogged(rows, runs, creations, more, c, r, pc.pc); }
  }

  /** The Sidecar's map and the log grow; everything about runs stays true. */
  lemma LogMove(s: State, c: Creation, newId: RunId, digest: nat)
    requires Sound(s) && CreationSound(s.interrupts, c) && (c.key in s.runs || !RunIdUsed(s.runs, newId))
    ensures Sound(s.(runs := CreateOrRead(s.runs, c.key, newId, digest), creations := s.creations + [c]))
  {
    var runs, log := CreateOrRead(s.runs, c.key, newId, digest), s.creations + [c];
    CreateKeepsDistinct(s.runs, c.key, newId, digest);
    forall k | k in s.interrupts ensures BoundSound(runs, log, k, s.interrupts[k]) {
      assert BoundSound(s.runs, s.creations, k, s.interrupts[k]);
      if s.interrupts[k].resumedRun.Some? { RunStaysFor(s.runs, s.creations, runs, c, k, s.interrupts[k].resumedRun.value); }
    }
    forall q | q in s.procs ensures ProcSound(s.interrupts, runs, log, s.procs[q]) {
      assert ProcSound(s.interrupts, s.runs, s.creations, s.procs[q]);
      PcStaysLogged(s.interrupts, s.runs, s.creations, runs, c, s.procs[q].request, s.procs[q].pc);
    }
  }

  lemma CreatedKeepsSound(s: State, pid: Pid, newId: RunId, digest: nat)
    requires Sound(s) && pid in s.procs && s.procs[pid].pc.ToCreate?
    ensures Sound(Created(s, pid, newId, digest))
  {
    var p := s.procs[pid];
    var key := KeyOf(p.request, p.pc.row);
    var c := Creation(p.request.interrupt, p.request.endpoint, key);
    if key in s.runs || !RunIdUsed(s.runs, newId) {
      assert ProcSound(s.interrupts, s.runs, s.creations, p);
      TriggerIsProper(s.interrupts, p.request, p.pc.row);
      LogMove(s, c, newId, digest);
      var t := s.(runs := CreateOrRead(s.runs, key, newId, digest), creations := s.creations + [c]);
      assert t.creations[|s.creations|] == c;
      assert RunFor(t.runs, t.creations, p.request.interrupt, t.runs[key].run);
      PcMove(t, pid, if Accepts(s.runs, key, digest) then ToBind(p.pc.row, t.runs[key].run) else Ended(Changed));
    }
  }

  lemma StepKeepsSound(s: State, step: Step)
    requires Sound(s) && !Overwrites(s, step)
    ensures Sound(Next(s, step))
  {
    match step
    case Begin(pid, r) => if pid !in s.procs { assert ProcSound(s.interrupts, s.runs, s.creations, Proc(r, ToRead)); }
    case Raise(key, b, kind, payload) =>
      UnboundCallKeepsBound(s.interrupts, s.runs, s.creations, I.Raise(key, b, kind, payload));
      RowsMove(s, I.Raise(key, b, kind, payload));
    case Read(pid) =>
      if pid in s.procs && s.procs[pid].pc.ToRead? {
        var r := s.procs[pid].request;
        if BindingOf(s, r.interrupt).Some? {
          ReadIsSound(s, r);
          PcMove(s, pid, ReadBy(r, s.interrupts[r.interrupt]));
        } else {
          PcMove(s, pid, Ended(NotFound));
        }
      }
    case Fetch(pid) => if pid in s.procs { FetchKeepsSound(s, pid); }
    case End(pid) => if pid in s.procs && s.procs[pid].pc.Fetched? { EndKeepsSound(s, pid); }
    case Create(pid, newId, digest) =>
      if pid in s.procs && s.procs[pid].pc.ToCreate? { CreatedKeepsSound(s, pid, newId, digest); }
    case Crash(pid) => if pid in s.procs { PcMove(s, pid, Ended(Crashed)); }
  }

  lemma {:induction false} RunKeepsSound(s: State, steps: seq<Step>)
    requires Sound(s) && NeverOverwrites(s, steps)
    ensures Sound(Run(s, steps))
    decreases |steps|
  {
    if steps != [] {
      StepKeepsSound(s, steps[0]);
      RunKeepsSound(Next(s, steps[0]), steps[1..]);
    }
  }

  // ---------------------------------------------------------------- theorems

  function Initial(bindings: map<RunId, I.Binding>): State { State(bindings, map[], map[], map[], []) }

  /** Over every run in which nothing is overwritten two Sidecar requests for one interrupt carry the same run_request_key
      exactly when the interrupt asks for a confirmation, or both or neither came through /confirmations, which does not look
      at the interrupt's kind. Retries, crashes, harmless overlaps and other response ids make no difference. */
  lemma SameKeyIff(bindings: map<RunId, I.Binding>, steps: seq<Step>, i: nat, j: nat)
    requires NeverOverwrites(Initial(bindings), steps)
    requires var t := Run(Initial(bindings), steps);
             i < |t.creations| && j < |t.creations| && t.creations[i].interrupt == t.creations[j].interrupt
    ensures var t := Run(Initial(bindings), steps);
            var a, b := t.creations[i], t.creations[j];
            && a.interrupt in t.interrupts
            && (a.key == b.key <==> t.interrupts[a.interrupt].kind == I.AwaitingConfirmation
                                    || (a.endpoint.Confirmations? <==> b.endpoint.Confirmations?))
  {
    var t := Run(Initial(bindings), steps);
    RunKeepsSound(Initial(bindings), steps);
    assert CreationSound(t.interrupts, t.creations[i]) && CreationSound(t.interrupts, t.creations[j]);
  }

  /** Nobody resumed the interrupt through /confirmations, or it is of the kind /confirmations is for. */
  ghost predicate ProperlyResumed(s: State, k: ToolCallKey) {
    && k in s.interrupts
    && (s.interrupts[k].kind == I.AwaitingConfirmation
        || forall i :: 0 <= i < |s.creations| && s.creations[i].interrupt == k ==> !s.creations[i].endpoint.Confirmations?)
  }

  lemma SameRun(s: State, k: ToolCallKey, i: nat, run: RunId)
    requires Sound(s) && ProperlyResumed(s, k) && RunFor(s.runs, s.creations, k, run)
    requires i < |s.creations| && s.creations[i].interrupt == k
    ensures s.creations[i].key in s.runs && s.runs[s.creations[i].key].run == run
  {
    var j :| 0 <= j < |s.creations| && s.creations[j].interrupt == k && s.creations[j].key in s.runs
             && s.runs[s.creations[j].key].run == run;
    assert CreationSound(s.interrupts, s.creations[i]) && CreationSound(s.interrupts, s.creations[j]);
  }

  /** A properly resumed interrupt has one Sidecar run: every creation on its behalf, before or after the binding, was
      answered with the run that is bound. */
  lemma OneRunPerInterrupt(bindings: map<RunId, I.Binding>, steps: seq<Step>, i: nat)
    requires NeverOverwrites(Initial(bindings), steps)
    requires var t := Run(Initial(bindings), steps);
             && i < |t.creations| && ProperlyResumed(t, t.creations[i].interrupt)
             && t.interrupts[t.creations[i].interrupt].resumedRun.Some?
    ensures var t := Run(Initial(bindings), steps);
            t.creations[i].key in t.runs && t.interrupts[t.creations[i].interrupt].resumedRun == Some(t.runs[t.creations[i].key].run)
  {
    var t := Run(Initial(bindings), steps);
    RunKeepsSound(Initial(bindings), steps);
    var k := t.creations[i].interrupt;
    assert BoundSound(t.runs, t.creations, k, t.interrupts[k]);
    SameRun(t, k, i, t.interrupts[k].resumedRun.value);
  }

  /** Then the guards against several resumed runs never fire: a binding that is about to end, whatever came since its
      transaction read the row, succeeds. */
  lemma BindNeverRefused(bindings: map<RunId, I.Binding>, steps: seq<Step>, pid: Pid)
    requires NeverOverwrites(Initial(bindings), steps)
    requires var t := Run(Initial(bindings), steps);
             && pid in t.procs && t.procs[pid].pc.Fetched? && t.procs[pid].pc.pc.ToBind?
             && ProperlyResumed(t, t.procs[pid].request.interrupt)
    ensures var t := Run(Initial(bindings), steps);
            && Next(t, End(pid)).procs[pid].pc == Ended(Accepted(t.procs[pid].pc.pc.run))
            && !Overwrites(t, End(pid))
  {
    RunKeepsSound(Initial(bindings), steps);
    BindFitsRow(Run(Initial(bindings), steps), pid);
  }

  /** What bind finds: the response is still the caller's, and there is no other resumed run. */
  lemma BindFitsRow(t: State, pid: Pid)
    requires Sound(t) && pid in t.procs && t.procs[pid].pc.Fetched? && t.procs[pid].pc.pc.ToBind?
    requires ProperlyResumed(t, t.procs[pid].request.interrupt)
    ensures var p, bind := t.procs[pid], t.procs[pid].pc.pc;
            var k := p.request.interrupt;
            && k in t.interrupts && t.interrupts[k].status == I.Responded && p.pc.read.Some?
            && p.pc.read.value.status == I.Responded && p.pc.read.value.responseId == Some(ResumeId(p.request, bind.row))
            && (t.interrupts[k].resumedRun.Some? ==> t.interrupts[k].resumedRun == Some(bind.run))
            && (p.pc.read.value.resumedRun.Some? ==> p.pc.read.value.resumedRun == Some(bind.run))
            && !I.RunResumed(t.interrupts, k, bind.run)
  {
    var p, bind := t.procs[pid], t.procs[pid].pc.pc;
    var k, run := p.request.interrupt, bind.run;
    assert ProcSound(t.interrupts, t.runs, t.creations, p);
    assert PcSound(t.interrupts, t.runs, t.creations, p.request, bind);
    var i :| 0 <= i < |t.creations| && t.creations[i].interrupt == k && t.creations[i].key in t.runs
             && t.runs[t.creations[i].key].run == run;
    if t.interrupts[k].resumedRun.Some? {
      assert BoundSound(t.runs, t.creations, k, t.interrupts[k]);
      SameRun(t, k, i, t.interrupts[k].resumedRun.value);
    }
    RunNotTaken(t, k, run);
  }

  /** A Sidecar run was created for one interrupt only. */
  lemma RunForOne(s: State, a: ToolCallKey, b: ToolCallKey, run: RunId)
    requires DistinctRuns(s.runs) && CreationsSound(s.interrupts, s.runs, s.creations)
    requires RunFor(s.runs, s.creations, a, run) && RunFor(s.runs, s.creations, b, run)
    ensures a == b
  {
    var i :| 0 <= i < |s.creations| && s.creations[i].interrupt == a && s.creations[i].key in s.runs
             && s.runs[s.creations[i].key].run == run;
    var j :| 0 <= j < |s.creations| && s.creations[j].interrupt == b && s.creations[j].key in s.runs
             && s.runs[s.creations[j].key].run == run;
    assert CreationSound(s.interrupts, s.creations[i]) && CreationSound(s.interrupts, s.creations[j]);
  }

  lemma RunNotTaken(s: State, k: ToolCallKey, run: RunId)
    requires Sound(s) && RunFor(s.runs, s.creations, k, run)
    ensures forall o :: o in s.interrupts && s.interrupts[o].resumedRun == Some(run) ==> o == k
  {
    forall o | o in s.interrupts && s.interrupts[o].resumedRun == Some(run) ensures o == k {
      assert BoundSound(s.runs, s.creations, o, s.interrupts[o]);
      RunForOne(s, o, k, run);
    }
  }

  /** Whatever endpoints were used, all accepted requests for one interrupt were told the same run. */
  lemma AcceptedRunsAgree(bindings: map<RunId, I.Binding>, steps: seq<Step>, p: Pid, q: Pid)
    requires NeverOverwrites(Initial(bindings), steps)
    requires var t := Run(Initial(bindings), steps);
             && p in t.procs && q in t.procs && t.procs[p].request.interrupt == t.procs[q].request.interrupt
             && t.procs[p].pc.Ended? && t.procs[p].pc.reply.Accepted? && t.procs[q].pc.Ended? && t.procs[q].pc.reply.Accepted?
    ensures var t := Run(Initial(bindings), steps); t.procs[p].pc.reply.run == t.procs[q].pc.reply.run
  {
    var t := Run(Initial(bindings), steps);
    RunKeepsSound(Initial(bindings), steps);
    assert ProcSound(t.interrupts, t.runs, t.creations, t.procs[p]);
    assert ProcSound(t.interrupts, t.runs, t.creations, t.procs[q]);
  }

  lemma {:induction false} EntriesStay(s: State, steps: seq<Step>, key: RunKey)
    requires key in s.runs
    ensures key in Run(s, steps).runs && Run(s, steps).runs[key] == s.runs[key]
    decreases |steps|
  {
    if steps != [] { EntriesStay(Next(s, steps[0]), steps[1..], key); }
  }

  /** Once a run was created, every later attempt to create it again is refused exactly when its request differs from the
      first one's, in the workspace revision for instance; the interrupt can then not be resumed by that attempt. */
  lemma RetryRefusedIff(s: State, steps: seq<Step>, pid: Pid, newId: RunId, digest: nat)
    requires var t := Run(s, steps);
             pid in t.procs && t.procs[pid].pc.ToCreate? && KeyOf(t.procs[pid].request, t.procs[pid].pc.row) in s.runs
    ensures var t := Run(s, steps);
            var entry := s.runs[KeyOf(t.procs[pid].request, t.procs[pid].pc.row)];
            && (Next(t, Create(pid, newId, digest)).procs[pid].pc == Ended(Changed) <==> digest != entry.digest)
            && (digest == entry.digest ==>
                  Next(t, Create(pid, newId, digest)).procs[pid].pc == ToBind(t.procs[pid].pc.row, entry.run))
  {
    var t := Run(s, steps);
    EntriesStay(s, steps, KeyOf(t.procs[pid].request, t.procs[pid].pc.row));
  }

  // ---------------------------------------------------------------- where it fails

  const BINDING := I.Binding(1, 1, 1, 1, 1, 1, 1, 1, 1)
  const ID := I.ToolCallKey(1, 1)
  const AUTHORIZE := I.Payload(Some("generate_scenes"), Some(true))
  const CONFIRM := I.Payload(Some("generate_scenes"), None)

  function Opened(kind: I.Kind): I.Interrupt {
    I.NewInterrupt(ID, BINDING, kind, if kind == I.AwaitingConfirmation then CONFIRM else AUTHORIZE)
  }

  function Serving(row: I.Interrupt, runs: Runs, procs: map<Pid, Proc>, creations: seq<Creation>): State {
    State(map[1 := BINDING], map[ID := row], runs, procs, creations)
  }

  /** A first and a second request, each somewhere. */
  function Two(row: I.Interrupt, runs: Runs, first: Proc, second: Proc, creations: seq<Creation>): State {
    Serving(row, runs, map[1 := first, 2 := second], creations)
  }

  lemma RunCons(s: State, step: Step, rest: seq<Step>)
    ensures Run(s, [step] + rest) == Run(Next(s, step), rest)
  {
    assert ([step] + rest)[1..] == rest;
  }

  lemma RunTwice(s: State, first: Step, second: Step, rest: seq<Step>)
    ensures Run(s, [first] + ([second] + rest)) == Run(Next(Next(s, first), second), rest)
  {
    RunCons(s, first, [second] + rest);
    RunCons(Next(s, first), second, rest);
  }

  lemma RunEnds(s: State)
    ensures Run(s, []) == s
  {
  }

  lemma InterruptRaised(kind: I.Kind)
    ensures Next(Initial(map[1 := BINDING]), Raise(ID, BINDING, kind, Opened(kind).payload)) == Serving(Opened(kind), map[], map[], [])
  {
  }

  // An authorization is answered through /confirmations.

  const FIRST := Request(Confirmations, ID, 5, 1, None, map[])
  const SECOND := Request(Authorizations, ID, 6, 1, None, map[])
  const FIRST_KEY := RunKey(ConfirmationResume, OfResponse(ID, 5))
  const SECOND_KEY := RunKey(AuthorizationResume, OfResponse(ID, 5))

  function Answered(row: I.Interrupt, r: Request): I.Interrupt {
    row.(status := I.Responded, responseId := Some(r.responseId), answer := AnswerOf(r))
  }

  lemma FirstReads()
    ensures Next(Next(Serving(Opened(I.AuthorizationRequired), map[], map[], []), Begin(1, FIRST)), Read(1))
            == Serving(Opened(I.AuthorizationRequired), map[], map[1 := Proc(FIRST, ToRespond)], [])
  {
  }

  lemma FirstResponds()
    ensures var row := Opened(I.AuthorizationRequired);
            Next(Next(Serving(row, map[], map[1 := Proc(FIRST, ToRespond)], []), Fetch(1)), End(1))
            == Serving(Answered(row, FIRST), map[], map[1 := Proc(FIRST, ToCreate(Answered(row, FIRST)))], [])
  {
    var row := Opened(I.AuthorizationRequired);
    var fetched := Serving(row, map[], map[1 := Proc(FIRST, Fetched(ToRespond, Some(row)))], []);
    assert Next(Serving(row, map[], map[1 := Proc(FIRST, ToRespond)], []), Fetch(1)) == fetched;
    AnswerEnds(row, row, FIRST);
  }

  /** The end of an answer that read the interrupt open, whatever it says by now. */
  lemma AnswerEnds(row: I.Interrupt, current: I.Interrupt, r: Request)
    requires row in {Opened(I.AuthorizationRequired), Opened(I.AwaitingConfirmation)} && r.interrupt == ID && r.expectedRevision == 1
    requires current in {row, Answered(row, ONE)} && (current == row || r == OTHER)
    ensures var call := I.Reply(ID, BINDING, r.responseId, 1, AnswerOf(r));
            && I.Commit(map[ID := current], Some(row), call) == Done(map[ID := Answered(row, r)], Answered(row, r))
  {
    var rows: I.Interrupts := map[ID := current];
    assert !I.ResponseIdUsed(rows, ID, r.responseId);
    assert I.Overlay(row, Answered(row, r), current) == Answered(row, r);
    assert rows[ID := Answered(row, r)] == map[ID := Answered(row, r)];
  }

  lemma FirstCreatesAndDies()
    ensures var row := Answered(Opened(I.AuthorizationRequired), FIRST);
            Next(Next(Serving(row, map[], map[1 := Proc(FIRST, ToCreate(row))], []), Create(1, 10, 0)), Crash(1))
            == Serving(row, map[FIRST_KEY := Entry(10, 0)], map[1 := Proc(FIRST, Ended(Crashed))],
                       [Creation(ID, Confirmations, FIRST_KEY)])
  {
  }

  lemma SecondReads(runs: Runs, log: seq<Creation>)
    ensures var row, dead := Answered(Opened(I.AuthorizationRequired), FIRST), Proc(FIRST, Ended(Crashed));
            Next(Next(Serving(row, runs, map[1 := dead], log), Begin(2, SECOND)), Read(2))
            == Two(row, runs, dead, Proc(SECOND, ToCreate(row)), log)
  {
  }

  lemma SecondCreates(log: seq<Creation>)
    ensures var row := Answered(Opened(I.AuthorizationRequired), FIRST);
            var s := Two(row, map[FIRST_KEY := Entry(10, 0)], Proc(FIRST, Ended(Crashed)), Proc(SECOND, ToCreate(row)), log);
            var t := Next(s, Create(2, 20, 0));
            t.runs == map[FIRST_KEY := Entry(10, 0), SECOND_KEY := Entry(20, 0)]
            && t.creations == log + [Creation(ID, Authorizations, SECOND_KEY)]
  {
  }

  /** One interrupt, two Sidecar requests with different keys and different runs. */
  predicate ResumedTwice(t: State) {
    && |t.creations| == 2 && t.creations[0].interrupt == t.creations[1].interrupt
    && t.creations[0].key in t.runs && t.creations[1].key in t.runs
    && t.runs[t.creations[0].key].run != t.runs[t.creations[1].key].run
  }

  /** An authorization interrupt is answered through /confirmations, whose process dies after the Sidecar made the run;
      then /authorizations resumes it. The Sidecar ends up with two runs for one interrupt. */
  lemma ConfirmingAnAuthorizationResumesTwice() returns (steps: seq<Step>)
    ensures ResumedTwice(Run(Initial(map[1 := BINDING]), steps))
  {
    var kind := I.AuthorizationRequired;
    var row := Answered(Opened(kind), FIRST);
    var r8 := [Create(2, 20, 0)] + [];
    var r6 := [Begin(2, SECOND)] + ([Read(2)] + r8);
    var r4 := [Create(1, 10, 0)] + ([Crash(1)] + r6);
    var r3 := [Fetch(1)] + ([End(1)] + r4);
    var r1 := [Begin(1, FIRST)] + ([Read(1)] + r3);
    steps := [Raise(ID, BINDING, kind, Opened(kind).payload)] + r1;
    RunCons(Initial(map[1 := BINDING]), Raise(ID, BINDING, kind, Opened(kind).payload), r1);
    InterruptRaised(kind);
    RunTwice(Serving(Opened(kind), map[], map[], []), Begin(1, FIRST), Read(1), r3);
    FirstReads();
    RunTwice(Serving(Opened(kind), map[], map[1 := Proc(FIRST, ToRespond)], []), Fetch(1), End(1), r4);
    FirstResponds();
    RunTwice(Serving(row, map[], map[1 := Proc(FIRST, ToCreate(row))], []), Create(1, 10, 0), Crash(1), r6);
    FirstCreatesAndDies();
    var log := [Creation(ID, Confirmations, FIRST_KEY)];
    RunTwice(Serving(row, map[FIRST_KEY := Entry(10, 0)], map[1 := Proc(FIRST, Ended(Crashed))], log), Begin(2, SECOND), Read(2), r8);
    SecondReads(map[FIRST_KEY := Entry(10, 0)], log);
    var s8 := Two(row, map[FIRST_KEY := Entry(10, 0)], Proc(FIRST, Ended(Crashed)), Proc(SECOND, ToCreate(row)), log);
    RunCons(s8, Create(2, 20, 0), []);
    SecondCreates(log);
    RunEnds(Next(s8, Create(2, 20, 0)));
  }

  // Two answers to one confirmation overlap.

  const ONE := Request(Responses(Confirm), ID, 5, 1, None, map[])
  const OTHER := Request(Responses(Confirm), ID, 6, 1, None, map[])
  const ONE_KEY := RunKey(ConfirmationResume, OfResponse(ID, 5))
  const OTHER_KEY := RunKey(ConfirmationResume, OfResponse(ID, 6))

  lemma BothRead()
    ensures var row := Opened(I.AwaitingConfirmation);
            var s := Next(Next(Serving(row, map[], map[], []), Begin(1, ONE)), Read(1));
            Next(Next(s, Begin(2, OTHER)), Read(2)) == Two(row, map[], Proc(ONE, ToRespond), Proc(OTHER, ToRespond), [])
  {
  }

  lemma BothFetch()
    ensures var row := Opened(I.AwaitingConfirmation);
            Next(Next(Two(row, map[], Proc(ONE, ToRespond), Proc(OTHER, ToRespond), []), Fetch(1)), Fetch(2))
            == Two(row, map[], Proc(ONE, Fetched(ToRespond, Some(row))), Proc(OTHER, Fetched(ToRespond, Some(row))), [])
  {
  }

  lemma BothEnd()
    ensures var row := Opened(I.AwaitingConfirmation);
            Next(Next(Two(row, map[], Proc(ONE, Fetched(ToRespond, Some(row))), Proc(OTHER, Fetched(ToRespond, Some(row))), []),
                      End(1)), End(2))
            == Two(Answered(row, OTHER), map[], Proc(ONE, ToCreate(Answered(row, ONE))),
                   Proc(OTHER, ToCreate(Answered(row, OTHER))), [])
  {
    var row := Opened(I.AwaitingConfirmation);
    AnswerEnds(row, row, ONE);
    AnswerEnds(row, Answered(row, ONE), OTHER);
    var first := Two(row, map[], Proc(ONE, Fetched(ToRespond, Some(row))), Proc(OTHER, Fetched(ToRespond, Some(row))), []);
    assert Next(first, End(1)) == Two(Answered(row, ONE), map[], Proc(ONE, ToCreate(Answered(row, ONE))),
                                      Proc(OTHER, Fetched(ToRespond, Some(row))), []);
  }

  lemma BothCreate()
    ensures var row := Opened(I.AwaitingConfirmation);
            var t := Next(Next(Two(Answered(row, OTHER), map[], Proc(ONE, ToCreate(Answered(row, ONE))),
                                   Proc(OTHER, ToCreate(Answered(row, OTHER))), []), Create(1, 10, 0)), Create(2, 20, 0));
            t.runs == map[ONE_KEY := Entry(10, 0), OTHER_KEY := Entry(20, 0)]
            && t.creations == [Creation(ID, Responses(Confirm), ONE_KEY)] + [Creation(ID, Responses(Confirm), OTHER_KEY)]
  {
  }

  /** Two clients confirm at once through /responses. Both transactions read the interrupt open, both end, each request goes
      on with its own response id, and the Sidecar ends up with two runs for one confirmation. */
  lemma OverlappingAnswersResumeTwice() returns (steps: seq<Step>)
    ensures ResumedTwice(Run(Initial(map[1 := BINDING]), steps)) && !NeverOverwrites(Initial(map[1 := BINDING]), steps)
  {
    var kind := I.AwaitingConfirmation;
    var row := Opened(kind);
    var r8 := [Create(1, 10, 0)] + ([Create(2, 20, 0)] + []);
    var r6 := [End(1)] + ([End(2)] + r8);
    var r4 := [Fetch(1)] + ([Fetch(2)] + r6);
    var r2 := [Begin(2, OTHER)] + ([Read(2)] + r4);
    var r1 := [Begin(1, ONE)] + ([Read(1)] + r2);
    steps := [Raise(ID, BINDING, kind, row.payload)] + r1;
    RunCons(Initial(map[1 := BINDING]), Raise(ID, BINDING, kind, row.payload), r1);
    InterruptRaised(kind);
    var s1 := Serving(row, map[], map[], []);
    RunTwice(s1, Begin(1, ONE), Read(1), r2);
    RunTwice(Next(Next(s1, Begin(1, ONE)), Read(1)), Begin(2, OTHER), Read(2), r4);
    BothRead();
    RunTwice(Two(row, map[], Proc(ONE, ToRespond), Proc(OTHER, ToRespond), []), Fetch(1), Fetch(2), r6);
    BothFetch();
    RunTwice(Two(row, map[], Proc(ONE, Fetched(ToRespond, Some(row))), Proc(OTHER, Fetched(ToRespond, Some(row))), []), End(1), End(2), r8);
    BothEnd();
    var s8 := Two(Answered(row, OTHER), map[], Proc(ONE, ToCreate(Answered(row, ONE))), Proc(OTHER, ToCreate(Answered(row, OTHER))), []);
    RunTwice(s8, Create(1, 10, 0), Create(2, 20, 0), []);
    BothCreate();
    RunEnds(Next(Next(s8, Create(1, 10, 0)), Create(2, 20, 0)));
    if NeverOverwrites(Initial(map[1 := BINDING]), steps) { SameKeyIff(map[1 := BINDING], steps, 0, 1); }
  }
}
