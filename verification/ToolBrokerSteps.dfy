/** AgentToolBroker.call as a process that takes one repository operation at a time, so that any number of calls, user
    responses and crashes interleave. A user's transaction on an interrupt reads its row in one step and ends in another. */
module ToolBrokerSteps {
  import opened Common
  import Interrupts
  import T = InterruptTransactions
  import opened ToolLedger

  type ToolName = Interrupts.ToolName
  type ToolCallKey = Interrupts.ToolCallKey
  type Binding = Interrupts.Binding
  type Pid = nat

  datatype Tool = Tool(confirmationRequired: bool, hasCost: bool)

  /** What the broker is built with: its frozen manifest and its registry. */
  datatype Broker = Broker(manifest: nat, tools: map<ToolName, Tool>)

  datatype Request = Request(
    run: RunId, call: nat, tool: ToolName, arguments: string, expectedRevision: int,
    session: nat, contextDigest: nat, toolset: nat, idempotencyKey: ToolCallKey)

  datatype Workspace = Workspace(conversation: ConversationId, revision: int)

  /** How the executor ends: with an observation, with an error, or by cancellation. */
  datatype Ending = Observed(observation: string) | Erred | CancelledMidway

  /** What the caller of a process got.
      Direct: a rejection before the claim, or "in progress". Stored: the observation the ledger holds (raised instead of
      returned after a cancellation). Unstored: a rejection after the claim that leaves the row executing. */
  datatype Reply =
    | Direct(response: Response)
    | Stored(response: Response, raised: bool)
    | Unstored(response: Response)
    | Errored(error: Interrupts.Error)
    | Crashed

  /** Where a process stands: the next repository operation it will take, with what it remembers. */
  datatype Pc =
    | ToClaim(binding: Binding)
    | ToCheck(binding: Binding)
    | ToCheckAuthorization(binding: Binding)
    | ToReadWorkspace(binding: Binding, hasCost: bool, granted: bool)
    | ToTakeCredential(binding: Binding, granted: bool, workspace: Workspace)
    | ToInterrupt(binding: Binding, kind: Interrupts.Kind, granted: bool)
    | ToStart(binding: Binding, workspace: Workspace, withCredential: bool)
    | Running(binding: Binding)
    | ToComplete(binding: Binding, response: Response, raised: bool)
    | Ended(reply: Reply, owned: bool)

  datatype Proc = Proc(request: Request, pc: Pc)

  /** One start of the executor: the call, the workspace it was handed, and whether it was handed a credential. */
  datatype Execution = Execution(request: Request, workspace: Workspace, withCredential: bool)

  /** What a call meets outside the repository: the workspace it reads, the credential it asks for, how its execution ends. */
  datatype Encounter = SawWorkspace(workspace: Option<Workspace>) | SawCredential(available: bool) | SawEnding(ending: Ending)

  /** `bound` is the history of resumed runs that were bound to interrupts, `started` that of the executor's starts, `met`
      what the calls of each key met, in order. */
  datatype State = State(
    bindings: map<RunId, Binding>,
    ledger: Ledger,
    interrupts: Interrupts.Interrupts,
    open: map<T.TxId, T.Transaction>,
    bound: set<(ToolCallKey, RunId)>,
    procs: map<Pid, Proc>,
    started: seq<Execution>,
    met: map<ToolCallKey, seq<Encounter>>)

  const EMPTY := State(map[], map[], map[], map[], {}, map[], [], map[])

  /** The next operation of a process, with what the environment contributes to it. */
  datatype Operation =
    | TakeClaim
    | Check
    | CheckAuthorization
    | ReadWorkspace(workspace: Option<Workspace>)
    | TakeCredential(available: bool)
    | RaiseInterrupt
    | Start
    | Finish(ending: Ending)
    | CompleteCall
    | Crash

  datatype Step =
    | Register(binding: Binding)
    | Begin(pid: Pid, request: Request)
    | Advance(pid: Pid, operation: Operation)
    | UserRead(tx: T.TxId, call: Interrupts.Call)
    | UserEnd(tx: T.TxId)

  function KeyOf(r: Request): ToolCallKey { Interrupts.ToolCallKey(r.run, r.call) }

  function DigestOf(r: Request, b: Binding): Digest {
    Digest(b.session, r.tool, r.arguments, r.expectedRevision, b.contextDigest, b.toolset)
  }

  /** Where a call stands after it read its run's binding. */
  function Begun(br: Broker, bindings: map<RunId, Binding>, r: Request): Pc {
    if r.run !in bindings then Ended(Direct(Rejected("run not registered")), false)
    else
      var b := bindings[r.run];
      if r.idempotencyKey != KeyOf(r) then Ended(Errored(Interrupts.Conflict), false)
      else if r.session != b.session || r.contextDigest != b.contextDigest || r.toolset != b.toolset then
        Ended(Direct(Rejected("call does not match binding")), false)
      else if b.manifest != br.manifest then Ended(Direct(Rejected("manifest does not match run")), false)
      else ToClaim(b)
  }

  /** Where it stands after it tried to claim. */
  function Claiming(ledger: Ledger, r: Request, b: Binding): Pc {
    match Claim(ledger, KeyOf(r), DigestOf(r, b))
    case Raised(e) => Ended(Errored(e), false)
    case Done(_, Completed(response)) => Ended(Stored(response, false), false)
    case Done(_, Executing) => Ended(Direct(InProgress), false)
    case Done(_, Claimed) => ToCheck(b)
  }

  /** Where it stands once it knows about the grant. */
  function Decided(br: Broker, r: Request, b: Binding, granted: bool): Pc
    requires r.tool in br.tools
  {
    var tool := br.tools[r.tool];
    if tool.confirmationRequired && !granted then ToInterrupt(b, Interrupts.AwaitingConfirmation, granted)
    else if tool.hasCost && !granted then Ended(Unstored(Rejected("cost without confirmation")), true)
    else ToReadWorkspace(b, tool.hasCost, granted)
  }

  /** Where it stands after it looked the tool up and queried the confirmations. */
  function Checked(br: Broker, interrupts: Interrupts.Interrupts, r: Request, b: Binding): Pc {
    if r.tool !in br.tools then Ended(Unstored(Rejected("tool not authorized")), true)
    else if Interrupts.GrantedBy(interrupts, Interrupts.AwaitingConfirmation, r.run, r.tool) then Decided(br, r, b, true)
    else ToCheckAuthorization(b)
  }

  /** Where it stands after it queried the authorizations that carry a confirmation. */
  function CheckedAgain(br: Broker, interrupts: Interrupts.Interrupts, r: Request, b: Binding): Pc {
    if r.tool !in br.tools then Ended(Unstored(Rejected("tool not authorized")), true)
    else Decided(br, r, b, Interrupts.GrantedBy(interrupts, Interrupts.AuthorizationRequired, r.run, r.tool))
  }

  function WorkspaceRead(r: Request, b: Binding, hasCost: bool, granted: bool, w: Option<Workspace>): Pc {
    if w.None? || w.value.conversation != b.conversation then ToComplete(b, Rejected("workspace missing"), false)
    else if w.value.revision != r.expectedRevision then ToComplete(b, Rejected("workspace revision changed"), false)
    else if hasCost then ToTakeCredential(b, granted, w.value)
    else ToStart(b, w.value, false)
  }

  /** No credential store, or none left for this run: ask for authorization. */
  function CredentialTaken(b: Binding, granted: bool, w: Workspace, available: bool): Pc {
    if available then ToStart(b, w, true) else ToInterrupt(b, Interrupts.AuthorizationRequired, granted)
  }

  function PayloadFor(r: Request, kind: Interrupts.Kind, granted: bool): Interrupts.Payload {
    Interrupts.Payload(Some(r.tool), if kind == Interrupts.AwaitingConfirmation then None else Some(granted))
  }

  function Suspension(r: Request, kind: Interrupts.Kind): Response {
    if kind == Interrupts.AwaitingConfirmation then NeedsConfirmation(r.tool, KeyOf(r)) else NeedsAuthorization(r.tool, KeyOf(r))
  }

  function Finished(b: Binding, ending: Ending): Pc {
    match ending
    case Observed(o) => ToComplete(b, ToolCompleted(o), false)
    case Erred => ToComplete(b, ToolFailed, false)
    case CancelledMidway => ToComplete(b, ToolCancelled, true)
  }

  function Moved(s: State, pid: Pid, pc: Pc): State
    requires pid in s.procs
  {
    s.(procs := s.procs[pid := Proc(s.procs[pid].request, pc)])
  }

  function Met(s: State, key: ToolCallKey): seq<Encounter> { if key in s.met then s.met[key] else [] }

  /** The process moves on from something it met. */
  function Meets(s: State, pid: Pid, e: Encounter, pc: Pc): State
    requires pid in s.procs
  {
    var key := KeyOf(s.procs[pid].request);
    s.(procs := s.procs[pid := Proc(s.procs[pid].request, pc)], met := s.met[key := Met(s, key) + [e]])
  }

  /** The interrupt call a process makes. */
  function RaiseCall(r: Request, pc: Pc): Interrupts.Call
    requires pc.ToInterrupt?
  {
    Interrupts.Raise(KeyOf(r), pc.binding, pc.kind, PayloadFor(r, pc.kind, pc.granted))
  }

  function AfterRegister(s: State, b: Binding): State {
    if b.run in s.bindings then s else s.(bindings := s.bindings[b.run := b])
  }

  function AfterBegin(br: Broker, s: State, pid: Pid, r: Request): State {
    if pid in s.procs then s else s.(procs := s.procs[pid := Proc(r, Begun(br, s.bindings, r))])
  }

  function AfterClaim(s: State, pid: Pid): State
    requires pid in s.procs && s.procs[pid].pc.ToClaim?
  {
    var p := s.procs[pid];
    var r := Claim(s.ledger, KeyOf(p.request), DigestOf(p.request, p.pc.binding));
    Moved(if r.Done? then s.(ledger := r.state) else s, pid, Claiming(s.ledger, p.request, p.pc.binding))
  }

  function AfterRaise(s: State, pid: Pid): State
    requires pid in s.procs && s.procs[pid].pc.ToInterrupt?
  {
    var p := s.procs[pid];
    var r := Interrupts.Perform(s.interrupts, RaiseCall(p.request, p.pc));
    if r.Raised? then Moved(s, pid, Ended(Errored(r.error), true))
    else Moved(s.(interrupts := r.state), pid, ToComplete(p.pc.binding, Suspension(p.request, p.pc.kind), false))
  }

  function AfterComplete(s: State, pid: Pid): State
    requires pid in s.procs && s.procs[pid].pc.ToComplete?
  {
    var p := s.procs[pid];
    match Complete(s.ledger, KeyOf(p.request), DigestOf(p.request, p.pc.binding), p.pc.response)
    case Raised(e) => Moved(s, pid, Ended(Errored(e), true))
    case Done(ledger, response) => Moved(s.(ledger := ledger), pid, Ended(Stored(response, p.pc.raised), true))
  }

  function AfterStart(s: State, pid: Pid): State
    requires pid in s.procs && s.procs[pid].pc.ToStart?
  {
    var p := s.procs[pid];
    Moved(s.(started := s.started + [Execution(p.request, p.pc.workspace, p.pc.withCredential)]), pid, Running(p.pc.binding))
  }

  /** The state after a process took an operation; one that stands elsewhere does nothing. */
  function Advanced(br: Broker, s: State, pid: Pid, op: Operation): State
    requires pid in s.procs
  {
    var p := s.procs[pid];
    match op
    case TakeClaim => if p.pc.ToClaim? then AfterClaim(s, pid) else s
    case Check => if p.pc.ToCheck? then Moved(s, pid, Checked(br, s.interrupts, p.request, p.pc.binding)) else s
    case CheckAuthorization =>
      if p.pc.ToCheckAuthorization? then Moved(s, pid, CheckedAgain(br, s.interrupts, p.request, p.pc.binding)) else s
    case ReadWorkspace(w) =>
      if p.pc.ToReadWorkspace? then
        Meets(s, pid, SawWorkspace(w), WorkspaceRead(p.request, p.pc.binding, p.pc.hasCost, p.pc.granted, w))
      else s
    case TakeCredential(available) =>
      if p.pc.ToTakeCredential? then
        Meets(s, pid, SawCredential(available), CredentialTaken(p.pc.binding, p.pc.granted, p.pc.workspace, available))
      else s
    case RaiseInterrupt => if p.pc.ToInterrupt? then AfterRaise(s, pid) else s
    case Start => if p.pc.ToStart? then AfterStart(s, pid) else s
    case Finish(ending) => if p.pc.Running? then Meets(s, pid, SawEnding(ending), Finished(p.pc.binding, ending)) else s
    case CompleteCall => if p.pc.ToComplete? then AfterComplete(s, pid) else s
    case Crash => if p.pc.Ended? then s else Moved(s, pid, Ended(Crashed, Owns(p.pc)))
  }

  function Next(br: Broker, s: State, step: Step): State {
    match step
    case Register(b) => AfterRegister(s, b)
    case Begin(pid, r) => AfterBegin(br, s, pid, r)
    case Advance(pid, op) => if pid in s.procs then Advanced(br, s, pid, op) else s
    case UserRead(tx, call) =>
      if tx in s.open || call.Raise? then s
      else s.(open := s.open[tx := T.Transaction(call, Interrupts.Get(s.interrupts, call.key))])
    case UserEnd(tx) =>
      if tx in s.open then
        s.(interrupts := T.After(s.interrupts, s.open[tx]), bound := s.bound + T.Bound(s.interrupts, s.open[tx]),
           open := s.open - {tx})
      else s
  }

  /** The process claimed its row. */
  predicate Owns(pc: Pc) { !pc.ToClaim? && (pc.Ended? ==> pc.owned) }

  function Run(br: Broker, s: State, steps: seq<Step>): State
    decreases |steps|
  {
    if steps == [] then s else Run(br, Next(br, s, steps[0]), steps[1..])
  }
}
