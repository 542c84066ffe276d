/** Interrupt transactions that overlap. None of them locks the row it reads, so another may end between its read and its
    write. What is written once stays so exactly when no such write lands on a row that was answered, or bound, meanwhile. */
module InterruptTransactions {
  import opened Common
  import opened Interrupts
  import I = Interrupts

  type TxId = nat

  /** A transaction under way: the call it serves and the row as it read it. */
  datatype Transaction = Transaction(call: Call, read: Option<Interrupt>)

  datatype State = State(rows: Interrupts, open: map<TxId, Transaction>)

  datatype Step = Read(id: TxId, call: Call) | End(id: TxId)

  function After(rows: Interrupts, t: Transaction): Interrupts { Committed(rows, t.read, t.call) }

  /** The binding of a resumed run that the transaction commits, if any. */
  function Bound(rows: Interrupts, t: Transaction): set<(ToolCallKey, RunId)> {
    if t.call.Resume? && Commit(rows, t.read, t.call).Done? then {(t.call.key, t.call.run)} else {}
  }

  function Next(s: State, step: Step): State {
    match step
    case Read(id, call) => if id in s.open then s else s.(open := s.open[id := Transaction(call, Get(s.rows, call.key))])
    case End(id) => if id in s.open then State(After(s.rows, s.open[id]), s.open - {id}) else s
  }

  function Run(s: State, steps: seq<Step>): State
    decreases |steps|
  {
    if steps == [] then s else Run(Next(s, steps[0]), steps[1..])
  }

  /** The transaction writes, and its row is not as it read it any more. */
  predicate Overtaken(rows: Interrupts, t: Transaction) {
    Decide(t.read, t.call).Update? && Get(rows, t.call.key) != t.read
  }

  // ---------------------------------------------------------------- exactly when it fails

  /** The table's check constraint. */
  predicate Checked(row: Interrupt) {
    && (row.status == Open <==> row.responseId.None?)
    && (row.status == Open ==> row.resumedRun.None?)
  }

  /** What an earlier reading of a row may have been, overlaps or not. */
  predicate SeenAs(a: Interrupt, b: Interrupt) {
    && b.key == a.key && b.run == a.run && b.user == a.user && b.conversation == a.conversation
    && b.workspace == a.workspace && b.revision == a.revision && b.kind == a.kind && b.payload == a.payload
    && (a.status != Open ==> b.status != Open)
    && (a.resumedRun.Some? ==> b.resumedRun.Some?)
  }

  predicate Possible(rows: Interrupts, t: Transaction) {
    t.read.Some? ==> t.call.key in rows && Checked(t.read.value) && SeenAs(t.read.value, rows[t.call.key])
  }

  ghost predicate AllPossible(s: State) {
    && (forall k :: k in s.rows ==> Checked(s.rows[k]))
    && (forall id :: id in s.open ==> Possible(s.rows, s.open[id]))
  }

  /** The transaction sets an answer over one that was given since it read the row, or a resumed run over another. */
  predicate Overwrites(rows: Interrupts, t: Transaction) {
    && Decide(t.read, t.call).Update? && Commit(rows, t.read, t.call).Done? && t.read.Some? && t.call.key in rows
    && var read, wanted, row := t.read.value, Decide(t.read, t.call).row, rows[t.call.key];
       || (read.status == Open && row.status != Open
           && (wanted.responseId != row.responseId || wanted.status != row.status
               || (wanted.answer != read.answer && wanted.answer != row.answer)))
       || (read.status != Open && read.resumedRun.None? && row.resumedRun.Some? && row.resumedRun != wanted.resumedRun)
  }

  /** One transaction breaks write-once exactly when it overwrites; every such transaction was overtaken. */
  lemma EndOverwritesIff(rows: Interrupts, t: Transaction)
    requires (forall k :: k in rows ==> Checked(rows[k])) && Possible(rows, t)
    ensures !Later(rows, After(rows, t)) <==> Overwrites(rows, t)
    ensures Overwrites(rows, t) ==> Overtaken(rows, t)
  {
    var after := After(rows, t);
    assert forall k :: k in rows && k != t.call.key ==> k in after && after[k] == rows[k];
    if Overwrites(rows, t) {
      assert t.call.key in after && !RowLater(rows[t.call.key], after[t.call.key]);
    } else if t.call.key in rows {
      assert t.call.key in after && RowLater(rows[t.call.key], after[t.call.key]);
    }
  }

  lemma EndKeepsPossible(rows: Interrupts, t: Transaction, other: Transaction)
    requires (forall k :: k in rows ==> Checked(rows[k])) && Possible(rows, t) && Possible(rows, other)
    ensures Possible(After(rows, t), other)
    ensures forall k :: k in After(rows, t) ==> Checked(After(rows, t)[k])
  {
  }

  lemma StepKeepsPossible(s: State, step: Step)
    requires AllPossible(s)
    ensures AllPossible(Next(s, step))
  {
    if step.End? && step.id in s.open {
      EndKeepsPossible(s.rows, s.open[step.id], s.open[step.id]);
      forall id | id in Next(s, step).open ensures Possible(Next(s, step).rows, s.open[id]) {
        EndKeepsPossible(s.rows, s.open[step.id], s.open[id]);
      }
    }
  }

  ghost predicate EachStepLater(s: State, steps: seq<Step>)
    decreases |steps|
  {
    steps == [] || (Later(s.rows, Next(s, steps[0]).rows) && EachStepLater(Next(s, steps[0]), steps[1..]))
  }

  predicate NeverOverwrites(s: State, steps: seq<Step>)
    decreases |steps|
  {
    steps == [] ||
    ((steps[0].End? && steps[0].id in s.open ==> !Overwrites(s.rows, s.open[steps[0].id]))
     && NeverOverwrites(Next(s, steps[0]), steps[1..]))
  }

  /** For every run, overlaps included: what is written stays written throughout exactly when no transaction ends over an
      answer, or over a resumed run, that came after it read the row. */
  lemma {:induction false} WriteOnceIff(s: State, steps: seq<Step>)
    requires AllPossible(s)
    ensures EachStepLater(s, steps) <==> NeverOverwrites(s, steps)
    decreases |steps|
  {
    if steps != [] {
      var step := steps[0];
      StepKeepsPossible(s, step);
      WriteOnceIff(Next(s, step), steps[1..]);
      if step.End? && step.id in s.open {
        EndOverwritesIff(s.rows, s.open[step.id]);
      } else {
        assert Next(s, step).rows == s.rows && Later(s.rows, s.rows);
      }
    }
  }

  // ---------------------------------------------------------------- when it works

  /** The row as a transaction read it is a past state of the row. */
  predicate ReadSound(rows: Interrupts, key: ToolCallKey, read: Option<Interrupt>) {
    read.Some? ==> key in rows && RowSound(read.value) && RowLater(read.value, rows[key])
  }

  ghost predicate AllReadsSound(s: State) {
    forall id :: id in s.open ==> ReadSound(s.rows, s.open[id].call.key, s.open[id].read)
  }

  /** A transaction that overwrites nothing ends as if it had been alone, or changes nothing, overlaps or not. */
  lemma EndIsCall(rows: Interrupts, t: Transaction)
    requires Sound(rows) && ReadSound(rows, t.call.key, t.read) && !Overwrites(rows, t)
    ensures After(rows, t) == rows || After(rows, t) == I.Next(rows, t.call)
  {
    if Decide(t.read, t.call).Update? && Commit(rows, t.read, t.call).Done? && t.read != Get(rows, t.call.key) {
      var row := rows[t.call.key];
      assert RowSound(row) && RowLater(t.read.value, row);
      assert Overlay(t.read.value, Decide(t.read, t.call).row, row) == row;
      assert rows[t.call.key := row] == rows;
    }
  }

  lemma EndKeepsSound(s: State, id: TxId)
    requires Sound(s.rows) && AllReadsSound(s) && id in s.open && !Overwrites(s.rows, s.open[id])
    ensures Sound(Next(s, End(id)).rows) && AllReadsSound(Next(s, End(id))) && Later(s.rows, Next(s, End(id)).rows)
  {
    var after := After(s.rows, s.open[id]);
    EndIsCall(s.rows, s.open[id]);
    CallKeepsSound(s.rows, s.open[id].call);
    CallIsLater(s.rows, s.open[id].call);
    forall other | other in s.open ensures ReadSound(after, s.open[other].call.key, s.open[other].read) {
      assert ReadSound(s.rows, s.open[other].call.key, s.open[other].read);
      if s.open[other].read.Some? { assert RowLater(s.rows[s.open[other].call.key], after[s.open[other].call.key]); }
    }
  }

  lemma StepKeepsSound(s: State, step: Step)
    requires Sound(s.rows) && AllReadsSound(s)
    requires step.End? && step.id in s.open ==> !Overwrites(s.rows, s.open[step.id])
    ensures Sound(Next(s, step).rows) && AllReadsSound(Next(s, step)) && Later(s.rows, Next(s, step).rows)
  {
    if step.End? && step.id in s.open { EndKeepsSound(s, step.id); }
  }

  /** Over every run in which nothing is overwritten, by any number of clients, overlaps and restarts included: a row keeps
      its identity and payload, its response, its content and its resumed run are written once, and response ids and resumed
      runs are unique. */
  lemma {:induction false} RunIsWriteOnce(s: State, steps: seq<Step>)
    requires Sound(s.rows) && AllReadsSound(s) && NeverOverwrites(s, steps)
    ensures Sound(Run(s, steps).rows) && Later(s.rows, Run(s, steps).rows)
    decreases |steps|
  {
    if steps != [] {
      StepKeepsSound(s, steps[0]);
      RunIsWriteOnce(Next(s, steps[0]), steps[1..]);
      LaterIsTransitive(s.rows, Next(s, steps[0]).rows, Run(s, steps).rows);
    }
  }

  /** So a confirmation that was granted stays granted. */
  lemma GrantsStay(s: State, steps: seq<Step>, run: RunId, tool: ToolName)
    requires Sound(s.rows) && AllReadsSound(s) && NeverOverwrites(s, steps) && Granted(s.rows, run, tool)
    ensures Granted(Run(s, steps).rows, run, tool)
  {
    RunIsWriteOnce(s, steps);
    GrantStays(s.rows, Run(s, steps).rows, run, tool);
  }

  /** A retry may overlap with the call it repeats: whatever the call, the second of two transactions that read the same row
      overwrites nothing and changes nothing. */
  lemma OverlappingRetryIsHarmless(rows: Interrupts, call: Call)
    requires Sound(rows)
    ensures var t := Transaction(call, Get(rows, call.key));
            !Overwrites(After(rows, t), t) && After(After(rows, t), t) == After(rows, t)
  {
    var t := Transaction(call, Get(rows, call.key));
    var once := After(rows, t);
    if Decide(t.read, call).Update? && Commit(rows, t.read, call).Done? {
      var wanted := Decide(t.read, call).row;
      assert once == rows[call.key := Overlay(t.read.value, wanted, rows[call.key])];
      assert Overlay(t.read.value, wanted, once[call.key]) == once[call.key];
      assert once[call.key := once[call.key]] == once;
    }
  }

  // ---------------------------------------------------------------- who can answer

  predicate OnlyUnentitled(row: Interrupt, c: Call) {
    (c.Reply? || c.Close?) && c.key == row.key ==> Unentitled(row, c)
  }

  lemma UnentitledEndChangesNothing(rows: Interrupts, t: Transaction, key: ToolCallKey)
    requires key in rows && rows[key].key == key && Checked(rows[key]) && rows[key].status == Open
    requires Possible(rows, t) && OnlyUnentitled(rows[key], t.call)
    ensures key in After(rows, t) && After(rows, t)[key] == rows[key]
  {
  }

  /** As long as nobody entitled answers, no run of other transactions, on this interrupt or any other and however they
      overlap, moves it. */
  lemma {:induction false} OnlyOwnersAnswer(s: State, steps: seq<Step>, key: ToolCallKey)
    requires AllPossible(s) && key in s.rows && s.rows[key].key == key && s.rows[key].status == Open
    requires forall id :: id in s.open ==> OnlyUnentitled(s.rows[key], s.open[id].call)
    requires forall i :: 0 <= i < |steps| && steps[i].Read? ==> OnlyUnentitled(s.rows[key], steps[i].call)
    ensures key in Run(s, steps).rows && Run(s, steps).rows[key] == s.rows[key]
    decreases |steps|
  {
    if steps != [] {
      if steps[0].End? && steps[0].id in s.open { UnentitledEndChangesNothing(s.rows, s.open[steps[0].id], key); }
      StepKeepsPossible(s, steps[0]);
      OnlyOwnersAnswer(Next(s, steps[0]), steps[1..], key);
    }
  }

  // ---------------------------------------------------------------- a run that fails

  const BINDING := Binding(1, 1, 1, 1, 1, 1, 1, 1, 1)
  const ID := ToolCallKey(1, 1)
  const PAYLOAD := Payload(Some("generate_scenes"), None)
  const OPENED := NewInterrupt(ID, BINDING, AwaitingConfirmation, PAYLOAD)
  const FIRST := Reply(ID, BINDING, 5, 1, Empty)
  const SECOND := Reply(ID, BINDING, 6, 1, Empty)

  lemma RunCons(s: State, step: Step, rest: seq<Step>)
    ensures Run(s, [step] + rest) == Run(Next(s, step), rest)
  {
    assert ([step] + rest)[1..] == rest;
  }

  function Answered(id: ResponseId): Interrupt { OPENED.(status := Responded, responseId := Some(id)) }

  lemma AnswerEnds(row: Interrupt, call: Call)
    requires call in {FIRST, SECOND} && row in {OPENED, Answered(5)}
    ensures After(map[ID := row], Transaction(call, Some(OPENED))) == map[ID := Answered(call.responseId)]
  {
    var rows: Interrupts := map[ID := row];
    assert forall id :: !ResponseIdUsed(rows, ID, id);
    assert rows[ID := Answered(call.responseId)] == map[ID := Answered(call.responseId)];
  }

  /** Two clients answer one interrupt at once: both read it open, both are told that theirs is the answer, and the second
      replaces the first. */
  lemma OverlappingAnswersOverwrite() returns (steps: seq<Step>)
    ensures var s := State(map[], map[]);
            && |steps| == 6
            && Run(s, steps[..5]).rows == map[ID := Answered(5)]
            && Run(s, steps).rows == map[ID := Answered(6)]
            && Commit(map[ID := OPENED], Some(OPENED), FIRST).Done?
            && Commit(map[ID := Answered(5)], Some(OPENED), SECOND).Done?
  {
    var raise := Raise(ID, BINDING, AwaitingConfirmation, PAYLOAD);
    var s0 := State(map[], map[]);
    var t1, t2 := Transaction(FIRST, Some(OPENED)), Transaction(SECOND, Some(OPENED));
    var rows: Interrupts := map[ID := OPENED];
    var s2 := State(rows, map[]);
    var s4 := State(rows, map[1 := t1, 2 := t2]);
    var s5 := State(map[ID := Answered(5)], map[2 := t2]);
    steps := [Read(0, raise), End(0), Read(1, FIRST), Read(2, SECOND), End(1), End(2)];
    assert Next(Next(s0, steps[0]), steps[1]) == s2;
    assert Next(Next(s2, steps[2]), steps[3]) == s4;
    AnswerEnds(OPENED, FIRST);
    AnswerEnds(Answered(5), SECOND);
    assert s4.open - {1} == map[2 := t2];
    assert Next(s4, steps[4]) == s5;
    FiveSteps(s0, steps, s5);
    assert Run(Next(s5, steps[5]), []) == Next(s5, steps[5]);
  }

  lemma FiveSteps(s: State, steps: seq<Step>, t: State)
    requires |steps| == 6 && t == Next(Next(Next(Next(Next(s, steps[0]), steps[1]), steps[2]), steps[3]), steps[4])
    ensures Run(s, steps[..5]) == t && Run(s, steps) == Run(Next(t, steps[5]), [])
  {
    FirstFive(s, steps, []);
    FirstFive(s, steps, [steps[5]]);
    assert steps[..5] + [] == steps[..5] && steps[..5] + [steps[5]] == steps;
    RunCons(t, steps[5], []);
    assert [steps[5]] + [] == [steps[5]];
  }

  lemma FirstFive(s: State, steps: seq<Step>, rest: seq<Step>)
    requires |steps| >= 5
    ensures Run(s, steps[..5] + rest)
            == Run(Next(Next(Next(Next(Next(s, steps[0]), steps[1]), steps[2]), steps[3]), steps[4]), rest)
  {
    RunFive(s, steps[0], steps[1], steps[2], steps[3], steps[4], rest);
    assert steps[..5] + rest == [steps[0]] + ([steps[1]] + ([steps[2]] + ([steps[3]] + ([steps[4]] + rest))));
  }

  lemma RunFive(s: State, a: Step, b: Step, c: Step, d: Step, e: Step, rest: seq<Step>)
    ensures Run(s, [a] + ([b] + ([c] + ([d] + ([e] + rest))))) == Run(Next(Next(Next(Next(Next(s, a), b), c), d), e), rest)
  {
    RunCons(s, a, [b] + ([c] + ([d] + ([e] + rest))));
    RunCons(Next(s, a), b, [c] + ([d] + ([e] + rest)));
    RunCons(Next(Next(s, a), b), c, [d] + ([e] + rest));
    RunCons(Next(Next(Next(s, a), b), c), d, [e] + rest);
    RunCons(Next(Next(Next(Next(s, a), b), c), d), e, rest);
  }

  /** When two binds overlap, the later one takes the grant away from the run that the first one resumed. */
  lemma OverlappingBindsLoseGrant(rows: Interrupts, key: ToolCallKey, first: RunId, second: RunId, tool: ToolName)
    requires Sound(rows) && key in rows && rows[key].status == Responded && rows[key].resumedRun.None? && first != second
    requires rows[key].kind == AwaitingConfirmation && rows[key].payload.toolName == Some(tool)
    requires forall k :: k in rows ==> rows[k].resumedRun != Some(first) && rows[k].resumedRun != Some(second)
    ensures var id := rows[key].responseId.value;
            var once := After(rows, Transaction(Resume(key, id, first), Get(rows, key)));
            var twice := After(once, Transaction(Resume(key, id, second), Get(rows, key)));
            Granted(once, first, tool) && !Granted(twice, first, tool) && Granted(twice, second, tool)
  {
    var id := rows[key].responseId.value;
    var once := After(rows, Transaction(Resume(key, id, first), Get(rows, key)));
    assert once == rows[key := rows[key].(resumedRun := Some(first))];
    assert once[key].kind == AwaitingConfirmation && Grants(once[key], first, tool);
    var twice := After(once, Transaction(Resume(key, id, second), Get(rows, key)));
    assert twice == once[key := once[key].(resumedRun := Some(second))];
    assert twice[key].kind == AwaitingConfirmation && Grants(twice[key], second, tool);
  }
}
