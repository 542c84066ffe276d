/** Writes to one conversation record: compare-and-set on its revision, and the context fields only the server writes. */
module ConversationRevisions {
  import opened Common

  datatype Value = Plain(raw: nat) | Dict(entries: map<string, nat>)

  type Context = map<string, Value>

  const RUNTIME := "__agent_runtime"
  const DRAFT_KEYS: set<string> := {
    "pendingJianyingDraftJob", "pending_jianying_draft_job", "jianyingDraftRecords", "jianying_draft_records",
    "jianying_draft_job_resume_error"
  }
  const SERVER_KEYS: set<string> := {RUNTIME} + DRAFT_KEYS

  /** `other` stands for current_task_id and the orchestration fields, which are written like the title. */
  datatype Content = Content(title: string, phase: string, other: nat, context: Context)

  datatype Record = Record(user: UserId, revision: int, content: Content)

  datatype Error = NotFound | BadRevision | RevisionConflict

  datatype Fields = Fields(
    title: Option<string>, phase: Option<string>, other: Option<nat>, context: Option<Context>,
    runtimePatch: Option<map<string, nat>>)

  datatype Op =
    | Update(user: Option<UserId>, expected: Option<int>, fields: Fields)
    | PatchRuntime(user: Option<UserId>, expected: Option<int>, patch: map<string, nat>)
    | PatchDraft(user: Option<UserId>, entries: Context, newPhase: string)

  /** Stored chat snapshots are dropped. */
  function Stripped(c: Context): Context { c - {"messages"} }

  /** _replace_context_preserving_server_fields. */
  function Replaced(current: Context, replacement: Context): Context {
    (Stripped(replacement) - SERVER_KEYS) + (map key | key in Stripped(current) && key in SERVER_KEYS :: current[key])
  }

  /** _patch_agent_runtime_context. */
  function RuntimePatched(current: Context, patch: map<string, nat>): Context {
    var c := Stripped(current);
    var runtime := if RUNTIME in c && c[RUNTIME].Dict? then c[RUNTIME].entries else map[];
    c[RUNTIME := Dict(runtime + patch)]
  }

  function WantedContext(current: Context, replacement: Option<Context>, patch: Option<map<string, nat>>): Context {
    var replaced := if replacement.Some? then Replaced(current, replacement.value) else current;
    if patch.Some? then RuntimePatched(replaced, patch.value) else replaced
  }

  /** The content the operation asks for. A draft patch writes its own five keys and the phase. */
  function Wanted(c: Content, op: Op): Content {
    match op
    case Update(_, _, f) =>
      Content(
        if f.title.Some? then f.title.value else c.title,
        if f.phase.Some? then f.phase.value else c.phase,
        if f.other.Some? then f.other.value else c.other,
        WantedContext(c.context, f.context, f.runtimePatch))
    case PatchRuntime(_, _, patch) => c.(context := RuntimePatched(c.context, patch))
    case PatchDraft(_, entries, newPhase) =>
      c.(context := Stripped(c.context) + (map key | key in entries && key in DRAFT_KEYS :: entries[key]), phase := newPhase)
  }

  function ExpectedBy(op: Op): Option<int> { if op.PatchDraft? then None else op.expected }

  /** Whether the operation is refused before it writes. */
  function Refusal(r: Record, op: Op): Option<Error> {
    if op.user.Some? && op.user.value != r.user then Some(NotFound)
    else if r.revision < 1 || (ExpectedBy(op).Some? && ExpectedBy(op).value < 1) then Some(BadRevision)
    else if ExpectedBy(op).Some? && ExpectedBy(op).value != r.revision then Some(RevisionConflict)
    else None
  }

  function Next(r: Record, op: Op): Record {
    if Refusal(r, op).Some? || Wanted(r.content, op) == r.content then r
    else Record(r.user, r.revision + 1, Wanted(r.content, op))
  }

  function Run(r: Record, ops: seq<Op>): Record
    decreases |ops|
  {
    if ops == [] then r else Run(Next(r, ops[0]), ops[1..])
  }

  // ---------------------------------------------------------------- theorems

  /** A revision names one content: over any run of writes, the same revision means that nothing was changed in between. */
  lemma {:induction false} RevisionNamesContent(r: Record, ops: seq<Op>)
    ensures var t := Run(r, ops); t.revision >= r.revision && (t.revision == r.revision <==> t == r) && t.user == r.user
    decreases |ops|
  {
    if ops != [] { RevisionNamesContent(Next(r, ops[0]), ops[1..]); }
  }

  /** No lost update: a write that names the revision its author read succeeds, after any other writes, only if the record
      still is what the author read; otherwise it is refused and changes nothing. */
  lemma NoLostUpdate(read: Record, others: seq<Op>, op: Op)
    requires ExpectedBy(op) == Some(read.revision)
    ensures var now := Run(read, others);
            if now == read then Next(now, op) == Next(read, op)
            else Next(now, op) == now && Refusal(now, op).Some?
  {
    RevisionNamesContent(read, others);
  }

  /** Of two writers that read the same revision, if the first changes something the second is refused. */
  lemma SecondWriterIsRefused(read: Record, first: Op, between: seq<Op>, second: Op)
    requires ExpectedBy(second) == Some(read.revision) && Next(read, first) != read
    ensures Refusal(Run(Next(read, first), between), second).Some?
  {
    RevisionNamesContent(Next(read, first), between);
  }

  /** The server's part of a context. */
  function ServerPart(c: Context): Context { map key | key in c && key in SERVER_KEYS :: c[key] }

  predicate FromClient(op: Op) { op.Update? && op.fields.runtimePatch.None? }

  /** No run of client updates, whatever contexts the clients send, changes what the server keeps in the context. */
  lemma {:induction false} ClientsNeverTouchServerPart(r: Record, ops: seq<Op>)
    requires forall i :: 0 <= i < |ops| ==> FromClient(ops[i])
    ensures ServerPart(Run(r, ops).content.context) == ServerPart(r.content.context)
    decreases |ops|
  {
    if ops != [] {
      var op := ops[0];
      if op.fields.context.Some? { ReplacedKeepsServerPart(r.content.context, op.fields.context.value); }
      ClientsNeverTouchServerPart(Next(r, op), ops[1..]);
    }
  }

  lemma ReplacedKeepsServerPart(current: Context, replacement: Context)
    ensures ServerPart(Replaced(current, replacement)) == ServerPart(current)
    ensures forall key :: key in Replaced(current, replacement) && key !in SERVER_KEYS ==>
              key in replacement && Replaced(current, replacement)[key] == replacement[key]
  {
  }

  /** A draft patch and a runtime patch write different keys, so neither undoes the other. */
  lemma PatchesKeepApart(c: Content, runtime: Op, draft: Op)
    requires runtime.PatchRuntime? && draft.PatchDraft?
    ensures Wanted(Wanted(c, runtime), draft) == Wanted(Wanted(c, draft), runtime)
  {
    var a, b := Wanted(Wanted(c, runtime), draft).context, Wanted(Wanted(c, draft), runtime).context;
    assert a == b;
  }

  // ---------------------------------------------------------------- what an accepted operation leaves

  /** The entries of the runtime namespace. */
  function RuntimeOf(c: Context): map<string, nat> {
    if RUNTIME in c && c[RUNTIME].Dict? then c[RUNTIME].entries else map[]
  }

  /** The two maps agree on the key. */
  predicate SameAt<V(==)>(a: map<string, V>, b: map<string, V>, key: string) {
    (key in a <==> key in b) && (key in a ==> a[key] == b[key])
  }

  /** The runtime namespace of t is that of c with the patch's values over it. */
  ghost predicate PatchedOver(c: Context, t: Context, patch: map<string, nat>) {
    && RUNTIME in t && t[RUNTIME].Dict?
    && (forall key :: key in patch ==> key in t[RUNTIME].entries && t[RUNTIME].entries[key] == patch[key])
    && (forall key :: key !in patch ==> SameAt(t[RUNTIME].entries, RuntimeOf(c), key))
  }

  /** A runtime patch that is not refused takes effect: each of its keys holds the patch's value, every other runtime key,
      every other context key but the stored chat snapshot and every other field what they held before. */
  lemma RuntimePatchTakesEffect(r: Record, op: Op)
    requires op.PatchRuntime? && Refusal(r, op).None?
    ensures var before, after := r.content, Next(r, op).content;
            && PatchedOver(before.context, after.context, op.patch)
            && (forall key :: key != RUNTIME && key != "messages" ==> SameAt(after.context, before.context, key))
            && after == before.(context := after.context)
  {
    assert Next(r, op).content == Wanted(r.content, op);
  }

  /** What an update does to one key of the context outside the runtime namespace: the server's keys stay, any other one is
      as the client's replacement has it, if there is one. */
  predicate ContextUpdatedAt(before: Context, after: Context, replacement: Option<Context>, key: string) {
    if replacement.Some? && key !in SERVER_KEYS then SameAt(after, replacement.value, key) else SameAt(after, before, key)
  }

  /** An update that is not refused leaves each given field as given and each other field as it was, and applies the
      runtime patch, if there is one, on top. */
  lemma UpdateTakesEffect(r: Record, op: Op)
    requires op.Update? && Refusal(r, op).None?
    ensures var before, after, f := r.content, Next(r, op).content, op.fields;
            && after.title == (if f.title.Some? then f.title.value else before.title)
            && after.phase == (if f.phase.Some? then f.phase.value else before.phase)
            && after.other == (if f.other.Some? then f.other.value else before.other)
            && (forall key :: key != RUNTIME && key != "messages" ==>
                  ContextUpdatedAt(before.context, after.context, f.context, key))
            && (if f.runtimePatch.Some? then PatchedOver(before.context, after.context, f.runtimePatch.value)
                else SameAt(after.context, before.context, RUNTIME))
            && (f.context.Some? || f.runtimePatch.Some? ==> "messages" !in after.context)
            && (f.context.None? && f.runtimePatch.None? ==> after.context == before.context)
  {
    assert Next(r, op).content == Wanted(r.content, op);
    if op.fields.context.Some? {
      ReplacementAt(r.content.context, op.fields.context.value);
    }
  }

  lemma ReplacementAt(current: Context, replacement: Context)
    ensures var t := Replaced(current, replacement);
            && "messages" !in t
            && (forall key :: key != "messages" ==> ContextUpdatedAt(current, t, Some(replacement), key))
  {
  }

  /** A draft patch leaves each of its draft entries as given, and every other context key but the chat snapshot as it was. */
  lemma DraftPatchTakesEffect(r: Record, op: Op)
    requires op.PatchDraft? && Refusal(r, op).None?
    ensures var before, after := r.content, Next(r, op).content;
            && after.phase == op.newPhase && after.title == before.title && after.other == before.other
            && (forall key :: key != "messages" ==>
                  if key in op.entries && key in DRAFT_KEYS then SameAt(after.context, op.entries, key)
                  else SameAt(after.context, before.context, key))
  {
    assert Next(r, op).content == Wanted(r.content, op);
  }

  /** The runtime patch of an operation. */
  function PatchOf(op: Op): map<string, nat> {
    match op
    case Update(_, _, f) => if f.runtimePatch.Some? then f.runtimePatch.value else map[]
    case PatchRuntime(_, _, patch) => patch
    case PatchDraft(_, _, _) => map[]
  }

  /** The operation names the runtime key and is accepted. */
  predicate Writes(r: Record, op: Op, key: string) { key in PatchOf(op) && Refusal(r, op).None? }

  lemma RuntimeKeyAfter(r: Record, op: Op, key: string)
    ensures var t := RuntimeOf(Next(r, op).content.context);
            if Writes(r, op, key) then key in t && t[key] == PatchOf(op)[key] else SameAt(t, RuntimeOf(r.content.context), key)
  {
    if Refusal(r, op).None? {
      match op
      case Update(_, _, _) => UpdateTakesEffect(r, op);
      case PatchRuntime(_, _, _) => RuntimePatchTakesEffect(r, op);
      case PatchDraft(_, _, _) => DraftPatchTakesEffect(r, op);
    }
  }

  /** Whether some operation of the run that was accepted names the runtime key. */
  predicate EverWritten(r: Record, ops: seq<Op>, key: string)
    decreases |ops|
  {
    ops != [] && (Writes(r, ops[0], key) || EverWritten(Next(r, ops[0]), ops[1..], key))
  }

  /** The value that the last accepted operation naming the runtime key gave it. */
  function LastWritten(r: Record, ops: seq<Op>, key: string): nat
    requires EverWritten(r, ops, key)
    decreases |ops|
  {
    if EverWritten(Next(r, ops[0]), ops[1..], key) then LastWritten(Next(r, ops[0]), ops[1..], key) else PatchOf(ops[0])[key]
  }

  /** Over every run of writes by anybody a runtime key holds the value of the last accepted patch that named it, and what
      it held at first if none did. */
  lemma {:induction false} LastPatchWins(r: Record, ops: seq<Op>, key: string)
    ensures var t := RuntimeOf(Run(r, ops).content.context);
            if EverWritten(r, ops, key) then key in t && t[key] == LastWritten(r, ops, key)
            else SameAt(t, RuntimeOf(r.content.context), key)
    decreases |ops|
  {
    if ops != [] {
      RuntimeKeyAfter(r, ops[0], key);
      LastPatchWins(Next(r, ops[0]), ops[1..], key);
    }
  }

  /** An operation is refused exactly when it comes as somebody else, when it or the record names no positive revision, or
      when it names another revision than the record's; draft patches name none. A refused one changes nothing, an accepted
      one raises the revision by one exactly when it changes the content. */
  lemma RefusedIff(r: Record, op: Op)
    ensures Refusal(r, op) == Some(NotFound) <==> op.user.Some? && op.user.value != r.user
    ensures !op.PatchDraft? && op.expected.Some? && Refusal(r, op).None? ==> 1 <= op.expected.value == r.revision
    ensures Refusal(r, op).None? <==>
              && (op.user.None? || op.user.value == r.user) && r.revision >= 1
              && (op.PatchDraft? || op.expected.None? || op.expected.value == r.revision)
    ensures Refusal(r, op).Some? ==> Next(r, op) == r
    ensures Refusal(r, op).None? ==>
              Next(r, op).revision == r.revision + if Next(r, op).content != r.content then 1 else 0
  {
  }

  class ConversationRecord {
    const user: UserId
    var revision: int
    var title: string
    var phase: string
    var other: nat
    var context: Context

    constructor (user: UserId, title: string, phase: string, other: nat, context: Context)
      ensures Contents() == Record(user, 1, Content(title, phase, other, Stripped(context)))
    {
      this.user, revision, this.title, this.phase, this.other := user, 1, title, phase, other;
      this.context := Stripped(context);
    }

    function Contents(): Record
      reads this
    {
      Record(user, revision, Content(title, phase, other, context))
    }

    /** update_conversation: field by field, one revision for all of them. */
    method UpdateFields(asUser: Option<UserId>, expected: Option<int>, f: Fields) returns (r: Attempt<(), Error>)
      modifies this
      ensures var op := Update(asUser, expected, f);
              Contents() == Next(old(Contents()), op)
              && r == if Refusal(old(Contents()), op).Some? then Refused(Refusal(old(Contents()), op).value) else Returned(())
    {
      if asUser.Some? && asUser.value != user { return Refused(NotFound); }
      if revision < 1 || (expected.Some? && expected.value < 1) { return Refused(BadRevision); }
      if expected.Some? && expected.value != revision { return Refused(RevisionConflict); }
      var changed := false;
      if f.title.Some? && title != f.title.value { title, changed := f.title.value, true; }
      if f.phase.Some? && phase != f.phase.value { phase, changed := f.phase.value, true; }
      if f.other.Some? && other != f.other.value { other, changed := f.other.value, true; }
      var contextChanged := UpdateContext(f.context, f.runtimePatch);
      if changed || contextChanged { revision := revision + 1; }
      return Returned(());
    }

    /** The client's replacement, then the runtime patch. */
    method UpdateContext(replacement: Option<Context>, patch: Option<map<string, nat>>) returns (changed: bool)
      modifies this`context
      ensures context == WantedContext(old(context), replacement, patch) && changed == (context != old(context))
    {
      changed := false;
      if replacement.Some? {
        var value := Replaced(context, replacement.value);
        if context != value { context, changed := value, true; }
      }
      if patch.Some? {
        var patched := RuntimePatched(context, patch.value);
        if patched != context { context, changed := patched, true; }
        if replacement.Some? { ChangeIsNotUndone(old(context), replacement.value, patch.value); }
      }
    }

    method PatchAgentRuntime(asUser: Option<UserId>, expected: int, patch: map<string, nat>) returns (r: Attempt<(), Error>)
      modifies this
      ensures var op := PatchRuntime(asUser, Some(expected), patch);
              Contents() == Next(old(Contents()), op)
              && r == if Refusal(old(Contents()), op).Some? then Refused(Refusal(old(Contents()), op).value) else Returned(())
    {
      if asUser.Some? && asUser.value != user { return Refused(NotFound); }
      if revision < 1 || expected < 1 { return Refused(BadRevision); }
      if expected != revision { return Refused(RevisionConflict); }
      var patched := RuntimePatched(context, patch);
      if patched != context { context, revision := patched, revision + 1; }
      return Returned(());
    }
  }

  /** A replacement that changes the context and a runtime patch after it never add up to no change: so one flag set by
      either is set exactly when the record changed. */
  lemma ChangeIsNotUndone(current: Context, replacement: Context, patch: map<string, nat>)
    ensures Replaced(current, replacement) != current ==> RuntimePatched(Replaced(current, replacement), patch) != current
  {
    var replaced := Replaced(current, replacement);
    if "messages" !in current && replaced != current {
      var key :| (key in current) != (key in replaced) || (key in current && key in replaced && current[key] != replaced[key]);
      assert key !in SERVER_KEYS by { ReplacedKeepsServerPart(current, replacement); }
      assert key != "messages";
      assert RuntimePatched(replaced, patch) - {RUNTIME} == Stripped(replaced) - {RUNTIME};
    }
  }
}
