/** Human interrupts raised by tool calls: one row per tool call, answered once, bound to one resumed run. An interrupt's
    id is a digest of its tool call key, so the key stands for it. */
module Interrupts {
  import opened Common

  type ToolName = string
  type ResponseId = nat

  datatype Binding = Binding(
    run: RunId, session: nat, user: UserId, conversation: ConversationId, workspace: nat, revision: int,
    contextDigest: nat, toolset: nat, manifest: nat)

  /** tool_call_key hashes "run:call"; run ids hold no colon, so the pair is the key. */
  datatype ToolCallKey = ToolCallKey(run: RunId, call: nat)

  datatype Kind = AwaitingConfirmation | AuthorizationRequired | Form
  datatype Status = Open | Responded | Cancelled

  /** The two payload entries that code reads. */
  datatype Payload = Payload(toolName: Option<ToolName>, confirmationGranted: Option<bool>)

  datatype Action = Submit | Confirm

  /** The stored response dictionary: empty, the closing mark of a form, or what the user submitted. */
  datatype Answer = Empty | FormCancelled | Submitted(action: Action, content: Option<string>, fields: map<string, string>)

  datatype Interrupt = Interrupt(
    key: ToolCallKey, run: RunId, user: UserId, conversation: ConversationId, workspace: nat, revision: int,
    kind: Kind, payload: Payload, status: Status, responseId: Option<ResponseId>, resumedRun: Option<RunId>,
    answer: Answer)

  type Interrupts = map<ToolCallKey, Interrupt>

  /** LookupError, AgentToolBindingConflictError, and the database's refusal of a value a unique column already holds. */
  datatype Error = NotFound | Conflict | Duplicate

  type Result = Outcome<Interrupts, Interrupt, Error>

  function NewInterrupt(key: ToolCallKey, b: Binding, kind: Kind, payload: Payload): Interrupt {
    Interrupt(key, b.run, b.user, b.conversation, b.workspace, b.revision, kind, payload, Open, None, None, Empty)
  }

  function Get(rows: Interrupts, key: ToolCallKey): Option<Interrupt> { if key in rows then Some(rows[key]) else None }

  predicate ResponseIdUsed(rows: Interrupts, key: ToolCallKey, id: ResponseId) {
    exists k :: k in rows && k != key && rows[k].responseId == Some(id)
  }

  predicate RunResumed(rows: Interrupts, key: ToolCallKey, run: RunId) {
    exists k :: k in rows && k != key && rows[k].resumedRun == Some(run)
  }

  datatype Call =
    | Raise(key: ToolCallKey, binding: Binding, kind: Kind, payload: Payload)
    | Reply(key: ToolCallKey, binding: Binding, responseId: ResponseId, expectedRevision: int, answer: Answer)
    | Close(key: ToolCallKey, binding: Binding, responseId: ResponseId, expectedRevision: int)
    | Resume(key: ToolCallKey, responseId: ResponseId, run: RunId)

  // ---------------------------------------------------------------- one transaction: read the row, decide, write

  /** What a transaction decides from the row it read. */
  datatype Decision = Refuse(error: Error) | ReadBack(row: Interrupt) | Insert(row: Interrupt) | Update(row: Interrupt)

  /** get_or_create_interrupt. */
  function GetOrCreate(read: Option<Interrupt>, key: ToolCallKey, b: Binding, kind: Kind, payload: Payload): Decision {
    if read.None? then Insert(NewInterrupt(key, b, kind, payload))
    else if (read.value.key, read.value.run, read.value.kind, read.value.payload) != (key, b.run, kind, payload) then
      Refuse(Conflict)
    else ReadBack(read.value)
  }

  /** respond_interrupt. */
  function Respond(read: Option<Interrupt>, b: Binding, responseId: ResponseId, expectedRevision: int, answer: Answer): Decision {
    if read.None? || read.value.user != b.user || read.value.conversation != b.conversation then Refuse(NotFound)
    else
      var row := read.value;
      if row.workspace != b.workspace || row.run != b.run then Refuse(Conflict)
      else if row.responseId.Some? then
        if row.responseId != Some(responseId) || row.answer != answer then Refuse(Conflict) else ReadBack(row)
      else if row.status != Open || row.revision > expectedRevision then Refuse(Conflict)
      else Update(row.(status := Responded, responseId := Some(responseId), answer := answer))
  }

  /** cancel_interrupt. */
  function CancelForm(read: Option<Interrupt>, b: Binding, responseId: ResponseId, expectedRevision: int): Decision {
    if read.None? || read.value.kind != Form then Refuse(NotFound)
    else
      var row := read.value;
      if row.user != b.user || row.conversation != b.conversation || row.workspace != b.workspace || row.run != b.run then
        Refuse(Conflict)
      else if row.status == Cancelled then
        if row.responseId != Some(responseId) then Refuse(Conflict) else ReadBack(row)
      else if row.status != Open || row.revision > expectedRevision then Refuse(Conflict)
      else Update(row.(status := Cancelled, responseId := Some(responseId), answer := FormCancelled))
  }

  /** bind_interrupt_resume_run. */
  function BindResume(read: Option<Interrupt>, responseId: ResponseId, run: RunId): Decision {
    if read.None? || read.value.status != Responded || read.value.responseId != Some(responseId) then Refuse(Conflict)
    else if read.value.resumedRun.Some? && read.value.resumedRun != Some(run) then Refuse(Conflict)
    else Update(read.value.(resumedRun := Some(run)))
  }

  function Decide(read: Option<Interrupt>, c: Call): Decision {
    match c
    case Raise(key, b, kind, payload) => GetOrCreate(read, key, b, kind, payload)
    case Reply(_, b, id, revision, answer) => Respond(read, b, id, revision, answer)
    case Close(_, b, id, revision) => CancelForm(read, b, id, revision)
    case Resume(_, id, run) => BindResume(read, id, run)
  }

  /** The UPDATE sets the columns that differ from what was read, on the row as it is now. */
  function Overlay(read: Interrupt, wanted: Interrupt, current: Interrupt): Interrupt {
    current.(
      status := if wanted.status != read.status then wanted.status else current.status,
      responseId := if wanted.responseId != read.responseId then wanted.responseId else current.responseId,
      answer := if wanted.answer != read.answer then wanted.answer else current.answer,
      resumedRun := if wanted.resumedRun != read.resumedRun then wanted.resumedRun else current.resumedRun)
  }

  /** A unique column refuses what the update sets. */
  predicate Clashes(rows: Interrupts, key: ToolCallKey, read: Interrupt, wanted: Interrupt) {
    || (wanted.responseId != read.responseId && wanted.responseId.Some? && ResponseIdUsed(rows, key, wanted.responseId.value))
    || (wanted.resumedRun != read.resumedRun && wanted.resumedRun.Some? && RunResumed(rows, key, wanted.resumedRun.value))
  }

  /** The end of a transaction that read the row earlier. The caller gets the record as the transaction made it. */
  function Commit(rows: Interrupts, read: Option<Interrupt>, c: Call): Result {
    match Decide(read, c)
    case Refuse(e) => Raised(e)
    case ReadBack(row) => Done(rows, row)
    case Insert(row) => if c.key in rows then Raised(Duplicate) else Done(rows[c.key := row], row)
    case Update(row) =>
      if c.key !in rows then Raised(NotFound)
      else if read.Some? && Clashes(rows, c.key, read.value, row) then Raised(Duplicate)
      else Done(rows[c.key := if read.Some? then Overlay(read.value, row, rows[c.key]) else row], row)
  }

  function Committed(rows: Interrupts, read: Option<Interrupt>, c: Call): Interrupts {
    var r := Commit(rows, read, c);
    if r.Done? then r.state else rows
  }

  /** A transaction whose row nobody touched between its read and its end. */
  function Perform(rows: Interrupts, c: Call): Result { Commit(rows, Get(rows, c.key), c) }

  predicate Grants(row: Interrupt, run: RunId, tool: ToolName) {
    && row.resumedRun == Some(run) && row.status == Responded && row.payload.toolName == Some(tool)
    && (row.kind == AwaitingConfirmation
        || (row.kind == AuthorizationRequired && row.payload.confirmationGranted == Some(true)))
  }

  /** One of the two queries of is_tool_confirmation_granted: the rows of one kind that resumed the run. */
  predicate GrantedBy(rows: Interrupts, kind: Kind, run: RunId, tool: ToolName) {
    exists k :: k in rows && rows[k].kind == kind && Grants(rows[k], run, tool)
  }

  /** is_tool_confirmation_granted, when nothing comes between its queries. */
  predicate Granted(rows: Interrupts, run: RunId, tool: ToolName) {
    GrantedBy(rows, AwaitingConfirmation, run, tool) || GrantedBy(rows, AuthorizationRequired, run, tool)
  }

  /** A raised call changes nothing. */
  function Next(rows: Interrupts, c: Call): Interrupts {
    var r := Perform(rows, c);
    if r.Done? then r.state else rows
  }

  // ---------------------------------------------------------------- write-once rows

  /** The table's check constraint and its unique columns. */
  predicate RowSound(row: Interrupt) {
    && (row.status == Open ==> row.responseId.None? && row.resumedRun.None? && row.answer == Empty)
    && (row.status == Responded ==> row.responseId.Some?)
    && (row.status == Cancelled ==> row.responseId.Some? && row.resumedRun.None?)
    && (row.status == Cancelled ==> row.kind == Form && row.answer == FormCancelled)
  }

  ghost predicate UniqueResponses(rows: Interrupts) {
    forall a, b :: a in rows && b in rows && rows[a].responseId.Some? && rows[a].responseId == rows[b].responseId ==> a == b
  }

  ghost predicate UniqueRuns(rows: Interrupts) {
    forall a, b :: a in rows && b in rows && rows[a].resumedRun.Some? && rows[a].resumedRun == rows[b].resumedRun ==> a == b
  }

  ghost predicate Sound(rows: Interrupts) {
    && (forall k :: k in rows ==> rows[k].key == k && RowSound(rows[k]))
    && UniqueResponses(rows) && UniqueRuns(rows)
  }

  /** What a row may turn into: its identity and payload never change, a response and its content are written once, a
      resumed run is written once, and a closed row stays closed. */
  predicate RowLater(a: Interrupt, b: Interrupt) {
    && b.key == a.key && b.run == a.run && b.user == a.user && b.conversation == a.conversation
    && b.workspace == a.workspace && b.revision == a.revision && b.kind == a.kind && b.payload == a.payload
    && (a.responseId.Some? ==> b.responseId == a.responseId && b.answer == a.answer)
    && (a.status != Open ==> b.status == a.status)
    && (a.resumedRun.Some? ==> b.resumedRun == a.resumedRun)
  }

  ghost predicate Later(a: Interrupts, b: Interrupts) {
    forall k :: k in a ==> k in b && RowLater(a[k], b[k])
  }

  lemma CallIsLater(rows: Interrupts, c: Call)
    requires forall k :: k in rows ==> RowSound(rows[k])
    ensures Later(rows, Next(rows, c))
    ensures forall k :: k in Next(rows, c) ==> RowSound(Next(rows, c)[k])
  {
  }

  lemma CallKeepsUniqueResponses(rows: Interrupts, c: Call)
    requires UniqueResponses(rows) && forall k :: k in rows ==> RowSound(rows[k])
    ensures UniqueResponses(Next(rows, c))
  {
    var after := Next(rows, c);
    if c.Resume? {
      assert forall k :: k in after ==> k in rows && after[k].responseId == rows[k].responseId;
    } else {
      assert forall k :: k in after && k != c.key ==> k in rows && after[k] == rows[k];
    }
  }

  lemma CallKeepsUniqueRuns(rows: Interrupts, c: Call)
    requires UniqueRuns(rows) && forall k :: k in rows ==> RowSound(rows[k])
    ensures UniqueRuns(Next(rows, c))
  {
    var after := Next(rows, c);
    if c.Resume? {
      assert forall k :: k in after && k != c.key ==> k in rows && after[k] == rows[k];
    } else {
      assert forall k :: k in after && after[k].resumedRun.Some? ==> k in rows && after[k].resumedRun == rows[k].resumedRun;
    }
  }

  lemma CallKeepsSound(rows: Interrupts, c: Call)
    requires Sound(rows)
    ensures Sound(Next(rows, c))
  {
    CallIsLater(rows, c);
    CallKeepsUniqueResponses(rows, c);
    CallKeepsUniqueRuns(rows, c);
    KeysStay(rows, c);
  }

  lemma KeysStay(rows: Interrupts, c: Call)
    requires forall k :: k in rows ==> rows[k].key == k
    ensures forall k :: k in Next(rows, c) ==> Next(rows, c)[k].key == k
  {
  }

  lemma LaterIsTransitive(a: Interrupts, b: Interrupts, c: Interrupts)
    requires Later(a, b) && Later(b, c)
    ensures Later(a, c)
  {
    forall k | k in a ensures k in c && RowLater(a[k], c[k]) {
      assert RowLater(a[k], b[k]) && RowLater(b[k], c[k]);
    }
  }

  /** The call would answer or close the interrupt with a binding that is not its own, or having seen an older workspace
      than the one it was raised in. */
  predicate Unentitled(row: Interrupt, c: Call) {
    (c.Reply? || c.Close?)
    && (c.binding.user != row.user || c.binding.conversation != row.conversation || c.binding.workspace != row.workspace
        || c.binding.run != row.run || c.expectedRevision < row.revision)
  }

  /** Rows that only grow keep every grant. */
  lemma GrantStays(a: Interrupts, b: Interrupts, run: RunId, tool: ToolName)
    requires Later(a, b) && Granted(a, run, tool)
    ensures Granted(b, run, tool)
  {
    var kind := if GrantedBy(a, AwaitingConfirmation, run, tool) then AwaitingConfirmation else AuthorizationRequired;
    assert GrantedBy(a, kind, run, tool);
    var k :| k in a && a[k].kind == kind && Grants(a[k], run, tool);
    assert RowLater(a[k], b[k]);
    assert b[k].kind == kind && Grants(b[k], run, tool);
  }

  // ---------------------------------------------------------------- undisturbed calls, told on the columns

  /** The caller's run is the one the interrupt was raised in. */
  predicate Entitled(row: Interrupt, b: Binding) {
    row.user == b.user && row.conversation == b.conversation && row.workspace == b.workspace && row.run == b.run
  }

  predicate SameIdentity(a: Interrupt, b: Interrupt) {
    && a.key == b.key && a.run == b.run && a.user == b.user && a.conversation == b.conversation
    && a.workspace == b.workspace && a.revision == b.revision && a.kind == b.kind && a.payload == b.payload
  }

  predicate Taken(rows: Interrupts, key: ToolCallKey, id: ResponseId) {
    exists k :: k in rows && k != key && rows[k].responseId == Some(id)
  }

  /** get_or_create_interrupt: a new key gets one open row with the caller's identity; a known one is read back, or refused if
      it was raised as something else. */
  lemma RaisedAs(rows: Interrupts, c: Call)
    requires c.Raise? && forall k :: k in rows ==> rows[k].key == k
    ensures var r := Perform(rows, c);
            && (c.key !in rows ==>
                  && r.Done? && r.state == rows[c.key := r.value] && Entitled(r.value, c.binding)
                  && r.value.key == c.key && r.value.revision == c.binding.revision
                  && r.value.kind == c.kind && r.value.payload == c.payload
                  && r.value.status == Open && r.value.responseId.None? && r.value.resumedRun.None? && r.value.answer == Empty)
            && (c.key in rows ==>
                  && (r.Done? <==> rows[c.key].run == c.binding.run && rows[c.key].kind == c.kind && rows[c.key].payload == c.payload)
                  && (r.Done? ==> r.state == rows && r.value == rows[c.key]))
  {
  }

  /** respond_interrupt: accepted exactly from the interrupt's own run, either as the first answer, to an open row in a
      workspace no older than the row and under a response id nobody else used, or as a repeat of the stored answer. The first
      answer is stored as given; a repeat changes nothing. */
  lemma RepliedAs(rows: Interrupts, c: Call)
    requires c.Reply? && forall k :: k in rows ==> rows[k].key == k
    ensures var r := Perform(rows, c);
            var own := c.key in rows && Entitled(rows[c.key], c.binding);
            var unanswered := own && rows[c.key].status == Open && rows[c.key].responseId.None?
                         && rows[c.key].revision <= c.expectedRevision;
            var repeated := own && rows[c.key].responseId == Some(c.responseId) && rows[c.key].answer == c.answer;
            && (r.Done? <==> (unanswered && !Taken(rows, c.key, c.responseId)) || repeated)
            && (r.Done? && repeated ==> r.state == rows && r.value == rows[c.key])
            && (r.Done? && !repeated ==>
                  && r.state == rows[c.key := r.value] && SameIdentity(r.value, rows[c.key])
                  && r.value.status == Responded && r.value.responseId == Some(c.responseId) && r.value.answer == c.answer
                  && r.value.resumedRun == rows[c.key].resumedRun)
            && (r == Raised(NotFound) <==>
                  c.key !in rows || rows[c.key].user != c.binding.user || rows[c.key].conversation != c.binding.conversation)
            && (r == Raised(Duplicate) <==> unanswered && Taken(rows, c.key, c.responseId))
  {
  }

  /** cancel_interrupt: the same for closing, of forms only. */
  lemma ClosedAs(rows: Interrupts, c: Call)
    requires c.Close? && forall k :: k in rows ==> rows[k].key == k
    ensures var r := Perform(rows, c);
            var own := c.key in rows && rows[c.key].kind == Form && Entitled(rows[c.key], c.binding);
            var unanswered := own && rows[c.key].status == Open && rows[c.key].revision <= c.expectedRevision;
            var repeated := own && rows[c.key].status == Cancelled && rows[c.key].responseId == Some(c.responseId);
            && (r.Done? <==>
                  || (unanswered && (rows[c.key].responseId == Some(c.responseId) || !Taken(rows, c.key, c.responseId)))
                  || repeated)
            && (r.Done? && repeated ==> r.state == rows && r.value == rows[c.key])
            && (r.Done? && !repeated ==>
                  && r.state == rows[c.key := r.value] && SameIdentity(r.value, rows[c.key])
                  && r.value.status == Cancelled && r.value.responseId == Some(c.responseId) && r.value.answer == FormCancelled
                  && r.value.resumedRun == rows[c.key].resumedRun)
            && (r == Raised(NotFound) <==> c.key !in rows || rows[c.key].kind != Form)
  {
  }

  /** bind_interrupt_resume_run: accepted exactly under the response that was given, for a run that no other interrupt has,
      unless another run is bound; it sets the run and nothing else. */
  lemma ResumedAs(rows: Interrupts, c: Call)
    requires c.Resume? && forall k :: k in rows ==> rows[k].key == k
    ensures var r := Perform(rows, c);
            && (r.Done? <==>
                  && c.key in rows && rows[c.key].status == Responded && rows[c.key].responseId == Some(c.responseId)
                  && (|| rows[c.key].resumedRun == Some(c.run)
                      || (rows[c.key].resumedRun.None? && forall k :: k in rows && k != c.key ==> rows[k].resumedRun != Some(c.run))))
            && (r.Done? ==> r.value == rows[c.key].(resumedRun := Some(c.run)) && r.state == rows[c.key := r.value])
  {
  }

  /** is_tool_confirmation_granted: the run was resumed by an answered interrupt that asked to confirm the tool, or that asked
      to authorize it after a confirmation. */
  lemma GrantedIff(rows: Interrupts, run: RunId, tool: ToolName)
    ensures Granted(rows, run, tool) <==>
              exists k :: k in rows && rows[k].status == Responded && rows[k].resumedRun == Some(run)
                          && (rows[k].payload == Payload(Some(tool), rows[k].payload.confirmationGranted))
                          && (rows[k].kind == AwaitingConfirmation
                              || (rows[k].kind == AuthorizationRequired && rows[k].payload.confirmationGranted == Some(true)))
  {
    if k :| k in rows && rows[k].status == Responded && rows[k].resumedRun == Some(run)
            && (rows[k].payload == Payload(Some(tool), rows[k].payload.confirmationGranted))
            && (rows[k].kind == AwaitingConfirmation
                || (rows[k].kind == AuthorizationRequired && rows[k].payload.confirmationGranted == Some(true))) {
      assert Grants(rows[k], run, tool);
      assert GrantedBy(rows, rows[k].kind, run, tool);
    }
  }

  /** The way to a grant: an interrupt raised for the tool, answered by its own run and bound to the new run, grants the tool to
      that run, whatever else is in the table; an authorization does if it carries a confirmation. */
  lemma AnsweredRunIsGranted(rows: Interrupts, raise: Call, reply: Call, resume: Call, tool: ToolName)
    requires raise.Raise? && reply.Reply? && resume.Resume? && forall k :: k in rows ==> rows[k].key == k
    requires raise.key == reply.key == resume.key && raise.key !in rows && reply.responseId == resume.responseId
    requires raise.payload.toolName == Some(tool) && raise.kind != Form
    requires raise.kind == AuthorizationRequired ==> raise.payload.confirmationGranted == Some(true)
    requires reply.binding == raise.binding && reply.expectedRevision >= raise.binding.revision
    requires !Taken(rows, reply.key, reply.responseId)
    requires forall k :: k in rows ==> rows[k].resumedRun != Some(resume.run)
    ensures var raised := Next(rows, raise);
            var replied := Next(raised, reply);
            Granted(Next(replied, resume), resume.run, tool)
  {
    var raised := Next(rows, raise);
    RaisedAs(rows, raise);
    assert Taken(raised, reply.key, reply.responseId) <==> Taken(rows, reply.key, reply.responseId);
    RepliedAs(raised, reply);
    var replied := Next(raised, reply);
    ResumedAs(replied, resume);
    var after := Next(replied, resume);
    assert after[raise.key].status == Responded;
    GrantedIff(after, resume.run, tool);
  }
}
