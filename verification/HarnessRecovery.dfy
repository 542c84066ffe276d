/** HarnessRecoveryService.recover: one recovery event per original run, with one successor run. The repository's three
    transactions on a record read it in one step and end in another, without a lock between. */
module HarnessRecovery {
  import opened Common
  import opened HarnessSidecar

  type Pid = nat

  datatype Status = Pending | Created | ManualReview

  /** The recovery event id is a digest of the original run's id. */
  datatype Recovery = Recovery(original: RunId, status: Status, successor: Option<RunId>)

  type Recoveries = map<RunId, Recovery>

  /** LookupError, AgentToolBindingConflictError, and a refusal by the table's constraints or the run's binding. */
  datatype Error = NotFound | Conflict | Integrity | Changed

  type Result = Outcome<Recoveries, Recovery, Error>

  function Get(rows: Recoveries, original: RunId): Option<Recovery> {
    if original in rows then Some(rows[original]) else None
  }

  // ---------------------------------------------------------------- one transaction

  datatype Op = OpenEvent | MarkManual | BindRun(run: RunId)

  datatype Decision = Refuse(error: Error) | ReadBack(row: Recovery) | Insert(row: Recovery) | Update(row: Recovery)

  /** get_or_create_recovery_event, mark_recovery_manual_review and bind_recovery_run, from the record as read. */
  function Decide(read: Option<Recovery>, original: RunId, op: Op): Decision {
    match op
    case OpenEvent => if read.Some? then ReadBack(read.value) else Insert(Recovery(original, Pending, None))
    case MarkManual =>
      if read.None? then Refuse(NotFound)
      else if read.value.status == Created then ReadBack(read.value)
      else Update(read.value.(status := ManualReview))
    case BindRun(run) =>
      if read.None? then Refuse(NotFound)
      else if read.value.status == Created then
        if read.value.successor != Some(run) then Refuse(Conflict) else ReadBack(read.value)
      else if read.value.status != Pending then Refuse(Conflict)
      else Update(read.value.(status := Created, successor := Some(run)))
  }

  /** The UPDATE sets the columns that differ from what was read, on the record as it is now. */
  function Overlay(read: Recovery, wanted: Recovery, current: Recovery): Recovery {
    current.(
      status := if wanted.status != read.status then wanted.status else current.status,
      successor := if wanted.successor != read.successor then wanted.successor else current.successor)
  }

  /** The table's check constraint: created records have a successor, and no others. */
  predicate Checked(row: Recovery) { row.status == Created <==> row.successor.Some? }

  predicate SuccessorUsed(rows: Recoveries, original: RunId, run: RunId) {
    exists k :: k in rows && k != original && rows[k].successor == Some(run)
  }

  /** The end of a transaction that read the record earlier. */
  function Commit(rows: Recoveries, original: RunId, read: Option<Recovery>, op: Op): Result {
    match Decide(read, original, op)
    case Refuse(e) => Raised(e)
    case ReadBack(row) => Done(rows, row)
    case Insert(row) => if original in rows then Raised(Integrity) else Done(rows[original := row], row)
    case Update(row) =>
      if read.None? || original !in rows then Raised(NotFound)
      else
        var next := Overlay(read.value, row, rows[original]);
        if !Checked(next) then Raised(Integrity)
        else if op.BindRun? && SuccessorUsed(rows, original, op.run) then Raised(Integrity)
        else Done(rows[original := next], row)
  }

  // ---------------------------------------------------------------- recover as a process

  /** The run_request_key of every recovery of this run. */
  function KeyOf(original: RunId): RunKey { RunKey(RunRecovery, OfRecovery(original)) }

  /** Where a caller stands. Fetched carries the record as its transaction read it. */
  datatype Pc =
    | ToOpen
    | ToDecide
    | ToMark
    | ToCreate
    | ToBind(run: RunId)
    | Fetched(op: Op, read: Option<Recovery>)
    | Ended(reply: Reply)

  datatype Reply = Answered(record: Recovery) | Errored(error: Error) | Crashed

  /** `created` says that the caller has had the successor created or read back. */
  datatype Proc = Proc(original: RunId, created: bool, pc: Pc)

  /** `bound` is the history of recoveries whose binding was committed. */
  datatype State = State(rows: Recoveries, runs: Runs, procs: map<Pid, Proc>, bound: set<RunId>)

  const EMPTY := State(map[], map[], map[], {})

  /** Decide: the original run has no tool call, and its source message and workspace are there. */
  datatype Step =
    | Begin(pid: Pid, original: RunId)
    | Fetch(pid: Pid)
    | End(pid: Pid)
    | Judge(pid: Pid, safe: bool)
    | Create(pid: Pid, newId: RunId, digest: nat)
    | Crash(pid: Pid)
    | CreateElsewhere(key: RunKey, newId: RunId, digest: nat)

  function Moved(s: State, pid: Pid, pc: Pc): State
    requires pid in s.procs
  {
    s.(procs := s.procs[pid := s.procs[pid].(pc := pc)])
  }

  /** The transaction a caller is about to begin. */
  function OpAt(pc: Pc): Option<Op> {
    match pc
    case ToOpen => Some(OpenEvent)
    case ToMark => Some(MarkManual)
    case ToBind(run) => Some(BindRun(run))
    case _ => None
  }

  function AfterFetch(s: State, pid: Pid): State
    requires pid in s.procs
  {
    var p := s.procs[pid];
    if OpAt(p.pc).None? then s else Moved(s, pid, Fetched(OpAt(p.pc).value, Get(s.rows, p.original)))
  }

  function AfterEnd(s: State, pid: Pid): State
    requires pid in s.procs && s.procs[pid].pc.Fetched?
  {
    var p := s.procs[pid];
    match Commit(s.rows, p.original, p.pc.read, p.pc.op)
    case Raised(e) => Moved(s, pid, Ended(Errored(e)))
    case Done(rows, record) =>
      Moved(s.(rows := rows, bound := if p.pc.op.BindRun? then s.bound + {p.original} else s.bound), pid,
            if p.pc.op.OpenEvent? && record.status == Pending then ToDecide else Ended(Answered(record)))
  }

  function AfterCreate(s: State, pid: Pid, newId: RunId, digest: nat): State
    requires pid in s.procs && s.procs[pid].pc.ToCreate?
  {
    var p := s.procs[pid];
    var key := KeyOf(p.original);
    if key !in s.runs && RunIdUsed(s.runs, newId) then s
    else if !Accepts(s.runs, key, digest) then Moved(s, pid, Ended(Errored(Changed)))
    else
      var runs := CreateOrRead(s.runs, key, newId, digest);
      s.(runs := runs, procs := s.procs[pid := Proc(p.original, true, ToBind(runs[key].run))])
  }

  /** A step of a caller that does not stand there changes nothing. */
  function Next(s: State, step: Step): State {
    match step
    case Begin(pid, original) => if pid in s.procs then s else s.(procs := s.procs[pid := Proc(original, false, ToOpen)])
    case Fetch(pid) => if pid in s.procs then AfterFetch(s, pid) else s
    case End(pid) => if pid in s.procs && s.procs[pid].pc.Fetched? then AfterEnd(s, pid) else s
    case Judge(pid, safe) =>
      if pid in s.procs && s.procs[pid].pc.ToDecide? then Moved(s, pid, if safe then ToCreate else ToMark) else s
    case Create(pid, newId, digest) =>
      if pid in s.procs && s.procs[pid].pc.ToCreate? then AfterCreate(s, pid, newId, digest) else s
    case Crash(pid) => if pid in s.procs && !s.procs[pid].pc.Ended? then Moved(s, pid, Ended(Crashed)) else s
    case CreateElsewhere(key, newId, digest) =>
      if key.triggerType != RunRecovery && (key in s.runs || !RunIdUsed(s.runs, newId)) then
        s.(runs := CreateOrRead(s.runs, key, newId, digest))
      else s
  }

  function Run(s: State, steps: seq<Step>): State
    decreases |steps|
  {
    if steps == [] then s else Run(Next(s, steps[0]), steps[1..])
  }

  // ---------------------------------------------------------------- what every step keeps, overlaps or not

  /** The successor is the one Sidecar run for this recovery, and is there exactly when a binding was committed. */
  predicate RowSound(s: State, k: RunId, row: Recovery) {
    && row.original == k && Checked(row)
    && (row.successor.Some? ==> KeyOf(k) in s.runs && row.successor == Some(s.runs[KeyOf(k)].run))
    && (row.status == Created <==> k in s.bound)
  }

  /** What an earlier reading of a record may have been: created records never change, decided ones stay decided. */
  predicate SeenAs(a: Recovery, b: Recovery) {
    && b.original == a.original && Checked(a)
    && (a.status == Created ==> b == a)
    && (a.status == ManualReview ==> b.status != Pending)
  }

  predicate OpSound(s: State, p: Proc, op: Op) {
    match op
    case OpenEvent => true
    case MarkManual => p.original in s.rows
    case BindRun(run) => p.original in s.rows && p.created && KeyOf(p.original) in s.runs && s.runs[KeyOf(p.original)].run == run
  }

  predicate ProcSound(s: State, p: Proc) {
    && (p.created ==> p.pc.ToBind? || (p.pc.Fetched? && p.pc.op.BindRun?) || p.pc.Ended?)
    && match p.pc
       case ToOpen => true
       case ToDecide => p.original in s.rows
       case ToCreate => p.original in s.rows
       case ToMark => p.original in s.rows
       case ToBind(run) => OpSound(s, p, BindRun(run))
       case Fetched(op, read) =>
         OpSound(s, p, op) && (read.Some? ==> p.original in s.rows && SeenAs(read.value, s.rows[p.original]))
         && (read.None? ==> op.OpenEvent?)
       case Ended(Answered(record)) =>
         record.original == p.original && record.status != Pending
         && p.original in s.rows && SeenAs(record, s.rows[p.original])
       case Ended(_) => true
  }

  /** Somebody had the successor of this recovery created. */
  ghost predicate HasCreator(s: State, original: RunId) {
    exists p :: p in s.procs && s.procs[p].original == original && s.procs[p].created
  }

  ghost predicate Sound(s: State) {
    && DistinctRuns(s.runs)
    && (forall k :: k in s.rows ==> RowSound(s, k, s.rows[k]))
    && s.bound <= s.rows.Keys
    && (forall p :: p in s.procs ==> ProcSound(s, s.procs[p]))
    && (forall o :: KeyOf(o) in s.runs ==> o in s.rows && HasCreator(s, o))
  }

  lemma CreatorStays(s: State, t: State, original: RunId)
    requires HasCreator(s, original)
    requires forall p :: p in s.procs ==> p in t.procs && t.procs[p].original == s.procs[p].original
                                          && (s.procs[p].created ==> t.procs[p].created)
    ensures HasCreator(t, original)
  {
    var p :| p in s.procs && s.procs[p].original == original && s.procs[p].created;
    assert t.procs[p].created;
  }

  lemma PcMove(s: State, pid: Pid, pc: Pc)
    requires Sound(s) && pid in s.procs && ProcSound(s, s.procs[pid].(pc := pc))
    ensures Sound(Moved(s, pid, pc))
  {
    var t := Moved(s, pid, pc);
    forall o | KeyOf(o) in s.runs ensures HasCreator(t, o) { CreatorStays(s, t, o); }
    forall p | p in t.procs ensures ProcSound(t, t.procs[p]) {
      assert p != pid ==> ProcSound(s, s.procs[p]);
    }
  }

  /** A record and the history of bindings move on; what the callers know stays true. */
  lemma RowMove(s: State, k: RunId, row: Recovery, bound: set<RunId>)
    requires Sound(s) && s.bound <= bound <= s.bound + {k}
    requires k in s.rows ==> forall a :: SeenAs(a, s.rows[k]) ==> SeenAs(a, row)
    requires RowSound(s.(bound := bound), k, row)
    ensures Sound(s.(rows := s.rows[k := row], bound := bound))
  {
    var t := s.(rows := s.rows[k := row], bound := bound);
    forall p | p in s.procs ensures ProcSound(t, s.procs[p]) { assert ProcSound(s, s.procs[p]); }
    forall o | o in t.rows ensures RowSound(t, o, t.rows[o]) {
      if o != k { assert RowSound(s, o, s.rows[o]); }
    }
    forall o | KeyOf(o) in s.runs ensures HasCreator(t, o) { CreatorStays(s, t, o); }
  }

  lemma RunsMove(s: State, key: RunKey, newId: RunId, digest: nat)
    requires Sound(s) && (key in s.runs || !RunIdUsed(s.runs, newId)) && key.triggerType != RunRecovery
    ensures Sound(s.(runs := CreateOrRead(s.runs, key, newId, digest)))
  {
    var t := s.(runs := CreateOrRead(s.runs, key, newId, digest));
    CreateKeepsDistinct(s.runs, key, newId, digest);
    forall k | k in s.rows ensures RowSound(t, k, s.rows[k]) { assert RowSound(s, k, s.rows[k]); }
    forall p | p in s.procs ensures ProcSound(t, s.procs[p]) { assert ProcSound(s, s.procs[p]); }
    forall o | KeyOf(o) in t.runs ensures HasCreator(t, o) { CreatorStays(s, t, o); }
  }

  lemma CreateKeepsSound(s: State, pid: Pid, newId: RunId, digest: nat)
    requires Sound(s) && pid in s.procs && s.procs[pid].pc.ToCreate?
    ensures Sound(AfterCreate(s, pid, newId, digest))
  {
    var p := s.procs[pid];
    var key, t := KeyOf(p.original), AfterCreate(s, pid, newId, digest);
    assert ProcSound(s, p);
    if key !in s.runs && RunIdUsed(s.runs, newId) {
    } else if !Accepts(s.runs, key, digest) {
      PcMove(s, pid, Ended(Errored(Changed)));
    } else {
      CreateKeepsDistinct(s.runs, key, newId, digest);
      forall k | k in t.rows ensures RowSound(t, k, t.rows[k]) { assert RowSound(s, k, s.rows[k]); }
      forall q | q in t.procs ensures ProcSound(t, t.procs[q]) {
        if q != pid { assert ProcSound(s, s.procs[q]); }
      }
      forall o | KeyOf(o) in t.runs ensures o in t.rows && HasCreator(t, o) {
        if o == p.original { assert t.procs[pid].created; } else { CreatorStays(s, t, o); }
      }
    }
  }

  /** What the end of a transaction does to its record. */
  lemma EndOfUpdate(s: State, p: Proc)
    requires Sound(s) && ProcSound(s, p) && p.pc.Fetched? && Decide(p.pc.read, p.original, p.pc.op).Update?
    requires Commit(s.rows, p.original, p.pc.read, p.pc.op).Done?
    ensures var row, record := Commit(s.rows, p.original, p.pc.read, p.pc.op).state[p.original],
                               Commit(s.rows, p.original, p.pc.read, p.pc.op).value;
            && Commit(s.rows, p.original, p.pc.read, p.pc.op).state == s.rows[p.original := row]
            && p.original in s.rows
            && SeenAs(record, row) && record.original == p.original && record.status != Pending
            && (p.pc.read.Some? && (p.pc.read.value.status == Pending || s.rows[p.original] == p.pc.read.value) ==> row == record)
            && (forall a :: SeenAs(a, s.rows[p.original]) ==> SeenAs(a, row))
            && RowSound(s.(bound := if p.pc.op.BindRun? then s.bound + {p.original} else s.bound), p.original, row)
  {
    assert RowSound(s, p.original, s.rows[p.original]);
  }

  lemma EndKeepsSound(s: State, pid: Pid)
    requires Sound(s) && pid in s.procs && s.procs[pid].pc.Fetched?
    ensures Sound(AfterEnd(s, pid))
  {
    var p := s.procs[pid];
    assert ProcSound(s, p);
    var r := Commit(s.rows, p.original, p.pc.read, p.pc.op);
    match Decide(p.pc.read, p.original, p.pc.op)
    case Refuse(e) => PcMove(s, pid, Ended(Errored(e)));
    case ReadBack(row) => EndOfReadBack(s, pid);
    case Insert(row) =>
      if r.Done? {
        RowMove(s, p.original, row, s.bound);
        PcMove(s.(rows := r.state), pid, ToDecide);
      } else {
        PcMove(s, pid, Ended(Errored(r.error)));
      }
    case Update(row) =>
      if r.Done? {
        EndOfUpdate(s, p);
        var bound := if p.pc.op.BindRun? then s.bound + {p.original} else s.bound;
        RowMove(s, p.original, r.state[p.original], bound);
        PcMove(s.(rows := r.state, bound := bound), pid, Ended(Answered(r.value)));
      } else {
        PcMove(s, pid, Ended(Errored(r.error)));
      }
  }

  lemma EndOfReadBack(s: State, pid: Pid)
    requires Sound(s) && pid in s.procs && s.procs[pid].pc.Fetched?
    requires Decide(s.procs[pid].pc.read, s.procs[pid].original, s.procs[pid].pc.op).ReadBack?
    ensures Sound(AfterEnd(s, pid))
  {
    var p := s.procs[pid];
    assert ProcSound(s, p) && RowSound(s, p.original, s.rows[p.original]);
    if p.pc.op.BindRun? { assert s.bound + {p.original} == s.bound; }
    PcMove(s, pid, if p.pc.op.OpenEvent? && p.pc.read.value.status == Pending then ToDecide else Ended(Answered(p.pc.read.value)));
  }

  lemma FetchKeepsSound(s: State, pid: Pid)
    requires Sound(s) && pid in s.procs
    ensures Sound(AfterFetch(s, pid))
  {
    var p := s.procs[pid];
    assert ProcSound(s, p);
    if OpAt(p.pc).Some? {
      if p.original in s.rows { assert RowSound(s, p.original, s.rows[p.original]); }
      PcMove(s, pid, Fetched(OpAt(p.pc).value, Get(s.rows, p.original)));
    }
  }

  lemma BeginKeepsSound(s: State, pid: Pid, original: RunId)
    requires Sound(s) && pid !in s.procs
    ensures Sound(s.(procs := s.procs[pid := Proc(original, false, ToOpen)]))
  {
    var t := s.(procs := s.procs[pid := Proc(original, false, ToOpen)]);
    forall p | p in t.procs ensures ProcSound(t, t.procs[p]) {
      if p != pid { assert ProcSound(s, s.procs[p]); }
    }
    forall k | k in t.rows ensures RowSound(t, k, t.rows[k]) { assert RowSound(s, k, s.rows[k]); }
    forall o | KeyOf(o) in t.runs ensures HasCreator(t, o) { CreatorStays(s, t, o); }
  }

  lemma StepKeepsSound(s: State, step: Step)
    requires Sound(s)
    ensures Sound(Next(s, step))
  {
    match step
    case Begin(pid, original) => if pid !in s.procs { BeginKeepsSound(s, pid, original); }
    case Fetch(pid) => if pid in s.procs { FetchKeepsSound(s, pid); }
    case End(pid) => if pid in s.procs && s.procs[pid].pc.Fetched? { EndKeepsSound(s, pid); }
    case Judge(pid, safe) =>
      if pid in s.procs && s.procs[pid].pc.ToDecide? {
        assert ProcSound(s, s.procs[pid]);
        PcMove(s, pid, if safe then ToCreate else ToMark);
      }
    case Create(pid, newId, digest) =>
      if pid in s.procs && s.procs[pid].pc.ToCreate? { CreateKeepsSound(s, pid, newId, digest); }
    case Crash(pid) =>
      if pid in s.procs {
        assert ProcSound(s, s.procs[pid]);
        PcMove(s, pid, Ended(Crashed));
      }
    case CreateElsewhere(key, newId, digest) =>
      if key.triggerType != RunRecovery && (key in s.runs || !RunIdUsed(s.runs, newId)) { RunsMove(s, key, newId, digest); }
  }

  lemma {:induction false} RunKeepsSound(s: State, steps: seq<Step>)
    requires Sound(s)
    ensures Sound(Run(s, steps))
    decreases |steps|
  {
    if steps != [] {
      StepKeepsSound(s, steps[0]);
      RunKeepsSound(Next(s, steps[0]), steps[1..]);
    }
  }

  // ---------------------------------------------------------------- theorems for every run

  /** What one step may do to a record: nothing, decide it, or bind a successor over a manual review that its transaction
      had not read. */
  predicate MayBecome(a: Recovery, b: Recovery) {
    b == a || (b.original == a.original && b.status != Pending && (a.status == Pending || (a.status == ManualReview && b.status == Created)))
  }

  /** A bind is about to end that read the record pending, while it says manual_review by now. */
  predicate BindsOverReview(s: State, step: Step, k: RunId) {
    && step.End? && step.pid in s.procs && s.procs[step.pid].original == k
    && s.procs[step.pid].pc.Fetched? && s.procs[step.pid].pc.op.BindRun?
    && s.procs[step.pid].pc.read.Some? && s.procs[step.pid].pc.read.value.status == Pending
    && k in s.rows && s.rows[k].status == ManualReview
  }

  /** In every reachable state a decided record changes in exactly one case: a bind that read it pending ends after somebody
      decided for manual review. A created record never changes. */
  lemma DecisionChangesIff(steps: seq<Step>, step: Step, k: RunId)
    requires k in Run(EMPTY, steps).rows && Run(EMPTY, steps).rows[k].status != Pending
    ensures var s := Run(EMPTY, steps);
            var t := Next(s, step);
            && k in t.rows && MayBecome(s.rows[k], t.rows[k])
            && (t.rows[k] != s.rows[k] <==> BindsOverReview(s, step, k))
  {
    var s := Run(EMPTY, steps);
    RunKeepsSound(EMPTY, steps);
    assert RowSound(s, k, s.rows[k]);
    if step.End? && step.pid in s.procs && s.procs[step.pid].pc.Fetched? && s.procs[step.pid].original == k {
      assert ProcSound(s, s.procs[step.pid]);
      if BindsOverReview(s, step, k) { BindIsNotRefused(s, s.procs[step.pid]); }
    }
  }

  lemma BindIsNotRefused(s: State, p: Proc)
    requires Sound(s) && ProcSound(s, p) && p.pc.Fetched? && p.pc.op.BindRun? && p.pc.read.Some?
    ensures Commit(s.rows, p.original, p.pc.read, p.pc.op).Raised? <==> p.pc.read.value.status == ManualReview
  {
    assert RowSound(s, p.original, s.rows[p.original]);
    forall o | o in s.rows && s.rows[o].successor == Some(p.pc.op.run) ensures o == p.original {
      assert RowSound(s, o, s.rows[o]);
      SameRunSameRecovery(s.runs, o, p.original);
    }
  }

  lemma SameRunSameRecovery(runs: Runs, a: RunId, b: RunId)
    requires DistinctRuns(runs) && KeyOf(a) in runs && KeyOf(b) in runs && runs[KeyOf(a)].run == runs[KeyOf(b)].run
    ensures a == b
  {
    assert KeyOf(a) == KeyOf(b);
  }

  /** In every run, binding the successor is refused exactly when its transaction read manual_review. The other guards, a
      different successor and a successor already used, never fire. */
  lemma BindRefusedIff(steps: seq<Step>, pid: Pid)
    requires var t := Run(EMPTY, steps); pid in t.procs && t.procs[pid].pc.Fetched? && t.procs[pid].pc.op.BindRun?
    ensures var t := Run(EMPTY, steps);
            var p := t.procs[pid];
            && p.pc.read.Some?
            && (Next(t, End(pid)).procs[pid].pc == Ended(Errored(Conflict)) <==> p.pc.read.value.status == ManualReview)
            && (p.pc.read.value.status != ManualReview ==>
                  Next(t, End(pid)).procs[pid].pc == Ended(Answered(Recovery(p.original, Created, Some(p.pc.op.run)))))
  {
    var t := Run(EMPTY, steps);
    RunKeepsSound(EMPTY, steps);
    assert ProcSound(t, t.procs[pid]);
    BindIsNotRefused(t, t.procs[pid]);
  }

  /** In every run: once a Sidecar run was created for a recovery, its record names that run exactly when some binding was
      committed. Until then the record says manual_review, or is pending while each caller that had the run created is still
      to bind it, was refused, or died. */
  lemma OrphanIff(steps: seq<Step>, original: RunId)
    requires KeyOf(original) in Run(EMPTY, steps).runs
    ensures var t := Run(EMPTY, steps);
            && original in t.rows && HasCreator(t, original)
            && (t.rows[original].successor == Some(t.runs[KeyOf(original)].run) <==> original in t.bound)
            && (original !in t.bound ==>
                  && t.rows[original].status != Created
                  && forall p :: p in t.procs && t.procs[p].original == original && t.procs[p].created ==> Unbound(t.procs[p]))
  {
    var t := Run(EMPTY, steps);
    RunKeepsSound(EMPTY, steps);
    assert RowSound(t, original, t.rows[original]);
    CreatorsAreBinders(EMPTY, steps);
    forall p | p in t.procs && t.procs[p].original == original && t.procs[p].created && original !in t.bound
      ensures Unbound(t.procs[p])
    {
      assert ProcSound(t, t.procs[p]);
    }
  }

  /** The caller had the run created but has not bound it. */
  predicate Unbound(p: Proc) {
    p.pc.ToBind? || p.pc.Fetched? || (p.pc.Ended? && !p.pc.reply.Answered?)
  }

  /** A caller that had the run created is answered only by its binding. */
  predicate BoundIfAnswered(s: State, p: Proc) {
    && (p.created && p.pc.Ended? && p.pc.reply.Answered? ==> p.original in s.bound)
    && (p.created ==> p.pc.ToBind? || (p.pc.Fetched? && p.pc.op.BindRun?) || p.pc.Ended?)
  }

  ghost predicate AllBind(s: State) { forall p :: p in s.procs ==> BoundIfAnswered(s, s.procs[p]) }

  lemma StepKeepsBinders(s: State, step: Step)
    requires AllBind(s)
    ensures AllBind(Next(s, step))
  {
    var t := Next(s, step);
    assert s.bound <= t.bound;
    assert forall p :: p in s.procs && p in t.procs && t.procs[p] == s.procs[p] ==> BoundIfAnswered(t, t.procs[p]);
  }

  lemma {:induction false} CreatorsAreBinders(s: State, steps: seq<Step>)
    requires AllBind(s)
    ensures AllBind(Run(s, steps))
    decreases |steps|
  {
    if steps != [] {
      StepKeepsBinders(s, steps[0]);
      CreatorsAreBinders(Next(s, steps[0]), steps[1..]);
    }
  }

  /** In every run two callers that were told a decision for one original run were told different ones only in one way: one
      was told manual_review and the other created, and created is what the record says. */
  lemma AnswersDifferOnlyIf(steps: seq<Step>, p: Pid, q: Pid)
    requires var t := Run(EMPTY, steps);
             && p in t.procs && q in t.procs && t.procs[p].original == t.procs[q].original
             && t.procs[p].pc.Ended? && t.procs[p].pc.reply.Answered? && t.procs[q].pc.Ended? && t.procs[q].pc.reply.Answered?
    ensures var t := Run(EMPTY, steps);
            var a, b := t.procs[p].pc.reply.record, t.procs[q].pc.reply.record;
            a != b ==> && {a.status, b.status} == {ManualReview, Created}
                       && t.procs[p].original in t.rows && t.rows[t.procs[p].original].status == Created
                       && t.rows[t.procs[p].original] in {a, b}
  {
    var t := Run(EMPTY, steps);
    RunKeepsSound(EMPTY, steps);
    assert ProcSound(t, t.procs[p]) && ProcSound(t, t.procs[q]);
  }

  // ---------------------------------------------------------------- theorems without that overlap

  /** No bind ends over a manual review that it did not read. */
  predicate Orderly(s: State, steps: seq<Step>)
    decreases |steps|
  {
    steps == [] || ((steps[0].End? && steps[0].pid in s.procs ==> !BindsOverReview(s, steps[0], s.procs[steps[0].pid].original))
                    && Orderly(Next(s, steps[0]), steps[1..]))
  }

  predicate RowLater(a: Recovery, b: Recovery) {
    b == a || (a.status == Pending && b.status != Pending && b.original == a.original)
  }

  ghost predicate Later(a: Recoveries, b: Recoveries) {
    forall k :: k in a ==> k in b && RowLater(a[k], b[k])
  }

  lemma StepDecidesOnce(s: State, step: Step)
    requires Sound(s) && Orderly(s, [step])
    ensures Later(s.rows, Next(s, step).rows)
  {
    if step.End? && step.pid in s.procs && s.procs[step.pid].pc.Fetched? {
      var p := s.procs[step.pid];
      assert ProcSound(s, p);
      if p.original in s.rows { assert RowSound(s, p.original, s.rows[p.original]); }
    }
  }

  /** Over every orderly run a record leaves pending once, for created or manual_review, and then never changes. */
  lemma {:induction false} RunDecidesOnce(s: State, steps: seq<Step>)
    requires Sound(s) && Orderly(s, steps)
    ensures Later(s.rows, Run(s, steps).rows)
    decreases |steps|
  {
    if steps != [] {
      StepDecidesOnce(s, steps[0]);
      StepKeepsSound(s, steps[0]);
      RunDecidesOnce(Next(s, steps[0]), steps[1..]);
      var a, b, c := s.rows, Next(s, steps[0]).rows, Run(s, steps).rows;
      forall k | k in a ensures k in c && RowLater(a[k], c[k]) {
        assert RowLater(a[k], b[k]) && RowLater(b[k], c[k]);
      }
    }
  }

  /** What a caller was told is what the record says. */
  predicate ToldTruth(s: State, p: Proc) {
    p.pc.Ended? && p.pc.reply.Answered? ==> p.original in s.rows && s.rows[p.original] == p.pc.reply.record
  }

  /** What a transaction read and now answers with is what the record says, if it was decided. */
  predicate ReadTruth(s: State, p: Proc) {
    p.pc.Fetched? && p.pc.read.Some? && p.pc.read.value.status != Pending ==>
      p.original in s.rows && s.rows[p.original] == p.pc.read.value
  }

  lemma EndTellsTruth(s: State, pid: Pid)
    requires Sound(s) && pid in s.procs && s.procs[pid].pc.Fetched? && ReadTruth(s, s.procs[pid])
    ensures ToldTruth(AfterEnd(s, pid), AfterEnd(s, pid).procs[pid])
  {
    var p := s.procs[pid];
    assert ProcSound(s, p);
    if Decide(p.pc.read, p.original, p.pc.op).Update? && Commit(s.rows, p.original, p.pc.read, p.pc.op).Done? { EndOfUpdate(s, p); }
  }

  ghost predicate AllTruth(s: State) { forall p :: p in s.procs ==> ToldTruth(s, s.procs[p]) && ReadTruth(s, s.procs[p]) }

  lemma StepTellsTruth(s: State, step: Step)
    requires Sound(s) && Orderly(s, [step]) && AllTruth(s)
    ensures AllTruth(Next(s, step))
  {
    var t := Next(s, step);
    StepDecidesOnce(s, step);
    forall p | p in t.procs ensures ToldTruth(t, t.procs[p]) && ReadTruth(t, t.procs[p]) {
      if p in s.procs { ProcTellsTruth(s, step, p); }
    }
  }

  lemma ProcTellsTruth(s: State, step: Step, p: Pid)
    requires Sound(s) && AllTruth(s) && p in s.procs && p in Next(s, step).procs
    requires forall o :: o in s.rows ==> o in Next(s, step).rows && RowLater(s.rows[o], Next(s, step).rows[o])
    ensures ToldTruth(Next(s, step), Next(s, step).procs[p]) && ReadTruth(Next(s, step), Next(s, step).procs[p])
  {
    assert ProcSound(s, s.procs[p]);
    if step == End(p) && s.procs[p].pc.Fetched? { EndTellsTruth(s, p); }
  }

  lemma {:induction false} RunTellsTruth(s: State, steps: seq<Step>)
    requires Sound(s) && Orderly(s, steps) && AllTruth(s)
    ensures AllTruth(Run(s, steps))
    decreases |steps|
  {
    if steps != [] {
      StepTellsTruth(s, steps[0]);
      StepKeepsSound(s, steps[0]);
      RunTellsTruth(Next(s, steps[0]), steps[1..]);
    }
  }

  /** Over every orderly run all callers that were told a decision for one original run were told the same one, and it is
      the record's. */
  lemma AnswersAgree(steps: seq<Step>, p: Pid, q: Pid)
    requires Orderly(EMPTY, steps)
    requires var t := Run(EMPTY, steps);
             && p in t.procs && q in t.procs && t.procs[p].original == t.procs[q].original
             && t.procs[p].pc.Ended? && t.procs[p].pc.reply.Answered? && t.procs[q].pc.Ended? && t.procs[q].pc.reply.Answered?
    ensures var t := Run(EMPTY, steps);
            && t.procs[p].pc.reply == t.procs[q].pc.reply
            && t.procs[p].original in t.rows && t.procs[p].pc.reply == Answered(t.rows[t.procs[p].original])
  {
    RunTellsTruth(EMPTY, steps);
    var t := Run(EMPTY, steps);
    assert ToldTruth(t, t.procs[p]) && ToldTruth(t, t.procs[q]);
  }

  // ---------------------------------------------------------------- two runs that fail

  lemma RunCons(s: State, step: Step, rest: seq<Step>)
    ensures Run(s, [step] + rest) == Run(Next(s, step), rest)
  {
    assert ([step] + rest)[1..] == rest;
  }

  lemma RunThree(s: State, a: Step, b: Step, c: Step, rest: seq<Step>)
    ensures Run(s, [a] + ([b] + ([c] + rest))) == Run(Next(Next(Next(s, a), b), c), rest)
  {
    RunCons(s, a, [b] + ([c] + rest));
    RunCons(Next(s, a), b, [c] + rest);
    RunCons(Next(Next(s, a), b), c, rest);
  }

  const OPENED := Recovery(7, Pending, None)

  /** Callers 1 and 2 recover run 7; 1 finds it recoverable, 2 does not. */
  function Racing(row: Recovery, runs: Runs, first: Proc, second: Pc, bound: set<RunId>): State {
    State(map[7 := row], runs, map[1 := first, 2 := Proc(7, false, second)], bound)
  }

  /** The first caller has the run created and the second is about to mark. */
  lemma BothJudged(rest: seq<Step>)
    ensures Run(EMPTY, [Begin(1, 7)] + ([Fetch(1)] + ([End(1)] + ([Begin(2, 7)] + ([Fetch(2)] + ([End(2)]
                + ([Judge(1, true)] + ([Judge(2, false)] + ([Create(1, 10, 0)] + rest)))))))))
            == Run(Racing(OPENED, map[KeyOf(7) := Entry(10, 0)], Proc(7, true, ToBind(10)), ToMark, {}), rest)
  {
    var r3 := [Judge(1, true)] + ([Judge(2, false)] + ([Create(1, 10, 0)] + rest));
    var r2 := [Begin(2, 7)] + ([Fetch(2)] + ([End(2)] + r3));
    RunThree(EMPTY, Begin(1, 7), Fetch(1), End(1), r2);
    FirstOpens();
    RunThree(State(map[7 := OPENED], map[], map[1 := Proc(7, false, ToDecide)], {}), Begin(2, 7), Fetch(2), End(2), r3);
    SecondOpens();
    RunThree(Racing(OPENED, map[], Proc(7, false, ToDecide), ToDecide, {}), Judge(1, true), Judge(2, false), Create(1, 10, 0), rest);
    BothJudge();
  }

  lemma FirstOpens()
    ensures Next(Next(Next(EMPTY, Begin(1, 7)), Fetch(1)), End(1))
            == State(map[7 := OPENED], map[], map[1 := Proc(7, false, ToDecide)], {})
  {
  }

  lemma SecondOpens()
    ensures Next(Next(Next(State(map[7 := OPENED], map[], map[1 := Proc(7, false, ToDecide)], {}), Begin(2, 7)), Fetch(2)), End(2))
            == Racing(OPENED, map[], Proc(7, false, ToDecide), ToDecide, {})
  {
  }

  lemma BothJudge()
    ensures Next(Next(Next(Racing(OPENED, map[], Proc(7, false, ToDecide), ToDecide, {}), Judge(1, true)), Judge(2, false)),
                 Create(1, 10, 0))
            == Racing(OPENED, map[KeyOf(7) := Entry(10, 0)], Proc(7, true, ToBind(10)), ToMark, {})
  {
  }

  lemma MarkEnds(first: Proc)
    requires first in {Proc(7, true, ToBind(10)), Proc(7, true, Fetched(BindRun(10), Some(OPENED)))}
    ensures var runs := map[KeyOf(7) := Entry(10, 0)];
            Next(Next(Racing(OPENED, runs, first, ToMark, {}), Fetch(2)), End(2))
            == Racing(OPENED.(status := ManualReview), runs, first, Ended(Answered(OPENED.(status := ManualReview))), {})
  {
  }

  /** The bind reads the record pending, the mark ends, the bind ends: one caller was told manual_review, the other created,
      and the record changed after it was decided. */
  lemma BindOverReviewHappens() returns (steps: seq<Step>)
    ensures var t := Run(EMPTY, steps);
            && t.rows == map[7 := Recovery(7, Created, Some(10))]
            && t.procs.Keys == {1, 2}
            && t.procs[1].pc == Ended(Answered(Recovery(7, Created, Some(10))))
            && t.procs[2].pc == Ended(Answered(Recovery(7, ManualReview, None)))
  {
    var end: seq<Step> := [];
    var rest := [Fetch(1)] + ([Fetch(2)] + ([End(2)] + ([End(1)] + end)));
    steps := [Begin(1, 7)] + ([Fetch(1)] + ([End(1)] + ([Begin(2, 7)] + ([Fetch(2)] + ([End(2)]
             + ([Judge(1, true)] + ([Judge(2, false)] + ([Create(1, 10, 0)] + rest))))))));
    BothJudged(rest);
    var runs: Runs := map[KeyOf(7) := Entry(10, 0)];
    var s := Racing(OPENED, runs, Proc(7, true, ToBind(10)), ToMark, {});
    var fetched := Proc(7, true, Fetched(BindRun(10), Some(OPENED)));
    RunThree(s, Fetch(1), Fetch(2), End(2), [End(1)] + end);
    BindReads();
    MarkEnds(fetched);
    var marked := Racing(OPENED.(status := ManualReview), runs, fetched, Ended(Answered(OPENED.(status := ManualReview))), {});
    RunCons(marked, End(1), end);
    BindEnds();
    assert Run(Next(marked, End(1)), end) == Next(marked, End(1));
  }

  lemma BindReads()
    ensures var runs := map[KeyOf(7) := Entry(10, 0)];
            Next(Racing(OPENED, runs, Proc(7, true, ToBind(10)), ToMark, {}), Fetch(1))
            == Racing(OPENED, runs, Proc(7, true, Fetched(BindRun(10), Some(OPENED))), ToMark, {})
  {
  }

  lemma BindEnds()
    ensures var review := OPENED.(status := ManualReview);
            var runs := map[KeyOf(7) := Entry(10, 0)];
            Next(Racing(review, runs, Proc(7, true, Fetched(BindRun(10), Some(OPENED))), Ended(Answered(review)), {}), End(1))
            == Racing(Recovery(7, Created, Some(10)), runs, Proc(7, true, Ended(Answered(Recovery(7, Created, Some(10))))),
                      Ended(Answered(review)), {7})
  {
    var rows: Recoveries := map[7 := OPENED.(status := ManualReview)];
    assert !SuccessorUsed(rows, 7, 10);
    assert rows[7 := Recovery(7, Created, Some(10))] == map[7 := Recovery(7, Created, Some(10))];
  }

  /** The mark ends before the bind reads: the bind is refused, and a recovery run is left that no record names. */
  lemma OrphanHappens() returns (steps: seq<Step>)
    ensures var t := Run(EMPTY, steps);
            && t.rows == map[7 := Recovery(7, ManualReview, None)] && KeyOf(7) in t.runs && 7 !in t.bound
            && t.procs.Keys == {1, 2} && t.procs[1].pc == Ended(Errored(Conflict))
  {
    var end: seq<Step> := [];
    var rest := [Fetch(2)] + ([End(2)] + ([Fetch(1)] + ([End(1)] + end)));
    steps := [Begin(1, 7)] + ([Fetch(1)] + ([End(1)] + ([Begin(2, 7)] + ([Fetch(2)] + ([End(2)]
             + ([Judge(1, true)] + ([Judge(2, false)] + ([Create(1, 10, 0)] + rest))))))));
    BothJudged(rest);
    var runs: Runs := map[KeyOf(7) := Entry(10, 0)];
    var s := Racing(OPENED, runs, Proc(7, true, ToBind(10)), ToMark, {});
    MarkEnds(Proc(7, true, ToBind(10)));
    RunThree(s, Fetch(2), End(2), Fetch(1), [End(1)] + end);
    BindIsLate();
    var t := Next(Next(Next(s, Fetch(2)), End(2)), Fetch(1));
    RunCons(t, End(1), end);
    assert Run(Next(t, End(1)), end) == Next(t, End(1));
  }

  lemma BindIsLate()
    ensures var review := OPENED.(status := ManualReview);
            var runs := map[KeyOf(7) := Entry(10, 0)];
            Next(Next(Racing(review, runs, Proc(7, true, ToBind(10)), Ended(Answered(review)), {}), Fetch(1)), End(1))
            == Racing(review, runs, Proc(7, true, Ended(Errored(Conflict))), Ended(Answered(review)), {})
  {
  }
}
