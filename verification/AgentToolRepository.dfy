/** SQLAgentToolRepository: run bindings, the tool call ledger, interrupts and recovery events. Each method is one
    transaction; it either commits what the specification functions say or raises and changes nothing. A method that
    changes a binding, an interrupt or a recovery record is the part after session.get: it takes the row as it was read,
    which by now may be another. */
module AgentToolRepository {
  import opened Common
  import I = Interrupts
  import L = ToolLedger
  import R = HarnessRecovery

  class SqlAgentToolRepository {
    var bindings: map<RunId, I.Binding>
    var interrupts: I.Interrupts
    var calls: L.Ledger
    var recoveries: R.Recoveries

    constructor ()
      ensures bindings == map[] && interrupts == map[] && calls == map[] && recoveries == map[]
    {
      bindings, interrupts, calls, recoveries := map[], map[], map[], map[];
    }

    /** Write or read back; drift of an existing binding is refused, and so is an insert that another one came before. */
    method RegisterRunBinding(read: Option<I.Binding>, binding: I.Binding) returns (r: Attempt<I.Binding, I.Error>)
      modifies this`bindings
      ensures r == if read.Some? then (if read.value != binding then Refused(I.Conflict) else Returned(read.value))
                   else if binding.run in old(bindings) then Refused(I.Duplicate) else Returned(binding)
      ensures bindings == if read.None? && binding.run !in old(bindings) then old(bindings)[binding.run := binding]
                          else old(bindings)
    {
      if read.None? {
        if binding.run in bindings { return Refused(I.Duplicate); }
        bindings := bindings[binding.run := binding];
        return Returned(binding);
      }
      if read.value != binding { return Refused(I.Conflict); }
      return Returned(read.value);
    }

    /** session.get of an interrupt. */
    method GetInterrupt(key: I.ToolCallKey) returns (read: Option<I.Interrupt>)
      ensures read == I.Get(interrupts, key)
    {
      return if key in interrupts then Some(interrupts[key]) else None;
    }

    method GetOrCreateInterrupt(read: Option<I.Interrupt>, key: I.ToolCallKey, binding: I.Binding, kind: I.Kind, payload: I.Payload)
      returns (r: Attempt<I.Interrupt, I.Error>)
      modifies this`interrupts
      ensures var call := I.Raise(key, binding, kind, payload);
              interrupts == I.Committed(old(interrupts), read, call) && r == AttemptOf(I.Commit(old(interrupts), read, call))
    {
      if read.None? {
        var row := I.Interrupt(key, binding.run, binding.user, binding.conversation, binding.workspace, binding.revision,
                               kind, payload, I.Open, None, None, I.Empty);
        if key in interrupts { return Refused(I.Duplicate); }
        interrupts := interrupts[key := row];
        return Returned(row);
      }
      var record := read.value;
      if record.key != key || record.run != binding.run || record.kind != kind || record.payload != payload {
        return Refused(I.Conflict);
      }
      return Returned(record);
    }

    /** One query of is_tool_confirmation_granted, over the rows of one kind that resumed the run. */
    method AnyGrant(kind: I.Kind, run: RunId, tool: I.ToolName) returns (granted: bool)
      ensures granted <==> I.GrantedBy(interrupts, kind, run, tool)
    {
      var rest := interrupts.Keys;
      while rest != {}
        invariant rest <= interrupts.Keys
        invariant forall k :: k in interrupts.Keys - rest ==> !(interrupts[k].kind == kind && I.Grants(interrupts[k], run, tool))
        decreases |rest|
      {
        var k :| k in rest;
        rest := rest - {k};
        var row := interrupts[k];
        if row.resumedRun == Some(run) && row.status == I.Responded && row.kind == kind
           && row.payload.toolName == Some(tool)
        {
          if kind == I.AwaitingConfirmation { return true; }
          if kind == I.AuthorizationRequired && row.payload.confirmationGranted == Some(true) { return true; }
        }
      }
      return false;
    }

    method IsToolConfirmationGranted(run: RunId, tool: I.ToolName) returns (granted: bool)
      ensures granted <==> I.Granted(interrupts, run, tool)
    {
      granted := AnyGrant(I.AwaitingConfirmation, run, tool);
      if !granted { granted := AnyGrant(I.AuthorizationRequired, run, tool); }
    }

    method ResponseIdUsed(key: I.ToolCallKey, id: I.ResponseId) returns (used: bool)
      ensures used <==> I.ResponseIdUsed(interrupts, key, id)
    {
      used := exists k :: k in interrupts && k != key && interrupts[k].responseId == Some(id);
    }

    /** UPDATE of the columns that the transaction changed. */
    method Flush(key: I.ToolCallKey, read: I.Interrupt, row: I.Interrupt) returns (r: Attempt<I.Interrupt, I.Error>)
      modifies this`interrupts
      ensures r == if key !in old(interrupts) then Refused(I.NotFound)
                   else if I.Clashes(old(interrupts), key, read, row) then Refused(I.Duplicate) else Returned(row)
      ensures interrupts == if r.Refused? then old(interrupts)
                            else old(interrupts)[key := I.Overlay(read, row, old(interrupts)[key])]
    {
      if key !in interrupts { return Refused(I.NotFound); }
      if row.responseId != read.responseId && row.responseId.Some? {
        var used := ResponseIdUsed(key, row.responseId.value);
        if used { return Refused(I.Duplicate); }
      }
      if row.resumedRun != read.resumedRun && row.resumedRun.Some?
         && exists k :: k in interrupts && k != key && interrupts[k].resumedRun == row.resumedRun
      {
        return Refused(I.Duplicate);
      }
      var current := interrupts[key];
      if row.status != read.status { current := current.(status := row.status); }
      if row.responseId != read.responseId { current := current.(responseId := row.responseId); }
      if row.answer != read.answer { current := current.(answer := row.answer); }
      if row.resumedRun != read.resumedRun { current := current.(resumedRun := row.resumedRun); }
      interrupts := interrupts[key := current];
      return Returned(row);
    }

    method RespondInterrupt(read: Option<I.Interrupt>, key: I.ToolCallKey, binding: I.Binding, responseId: I.ResponseId,
                            expectedRevision: int, answer: I.Answer)
      returns (r: Attempt<I.Interrupt, I.Error>)
      modifies this`interrupts
      ensures var call := I.Reply(key, binding, responseId, expectedRevision, answer);
              interrupts == I.Committed(old(interrupts), read, call) && r == AttemptOf(I.Commit(old(interrupts), read, call))
    {
      if read.None? { return Refused(I.NotFound); }
      var row := read.value;
      if row.user != binding.user || row.conversation != binding.conversation { return Refused(I.NotFound); }
      if row.workspace != binding.workspace || row.run != binding.run { return Refused(I.Conflict); }
      if row.responseId.Some? {
        if row.responseId != Some(responseId) { return Refused(I.Conflict); }
        if row.answer != answer { return Refused(I.Conflict); }
        return Returned(row);
      }
      if row.status != I.Open || row.revision > expectedRevision { return Refused(I.Conflict); }
      row := row.(status := I.Responded, responseId := Some(responseId), answer := answer);
      r := Flush(key, read.value, row);
    }

    method CancelInterrupt(read: Option<I.Interrupt>, key: I.ToolCallKey, binding: I.Binding, responseId: I.ResponseId,
                           expectedRevision: int)
      returns (r: Attempt<I.Interrupt, I.Error>)
      modifies this`interrupts
      ensures var call := I.Close(key, binding, responseId, expectedRevision);
              interrupts == I.Committed(old(interrupts), read, call) && r == AttemptOf(I.Commit(old(interrupts), read, call))
    {
      if read.None? || read.value.kind != I.Form { return Refused(I.NotFound); }
      var row := read.value;
      if row.user != binding.user || row.conversation != binding.conversation || row.workspace != binding.workspace
         || row.run != binding.run { return Refused(I.Conflict); }
      if row.status == I.Cancelled {
        if row.responseId != Some(responseId) { return Refused(I.Conflict); }
        return Returned(row);
      }
      if row.status != I.Open || row.revision > expectedRevision { return Refused(I.Conflict); }
      row := row.(status := I.Cancelled, responseId := Some(responseId), answer := I.FormCancelled);
      r := Flush(key, read.value, row);
    }

    method BindInterruptResumeRun(read: Option<I.Interrupt>, key: I.ToolCallKey, responseId: I.ResponseId, run: RunId)
      returns (r: Attempt<I.Interrupt, I.Error>)
      modifies this`interrupts
      ensures var call := I.Resume(key, responseId, run);
              interrupts == I.Committed(old(interrupts), read, call) && r == AttemptOf(I.Commit(old(interrupts), read, call))
    {
      if read.None? { return Refused(I.Conflict); }
      var row := read.value;
      if row.status != I.Responded || row.responseId != Some(responseId) { return Refused(I.Conflict); }
      if row.resumedRun.Some? && row.resumedRun != Some(run) { return Refused(I.Conflict); }
      row := row.(resumedRun := Some(run));
      r := Flush(key, read.value, row);
    }

    method ClaimToolCall(key: I.ToolCallKey, digest: L.Digest) returns (r: Attempt<L.ClaimState, I.Error>)
      modifies this`calls
      ensures var claim := L.Claim(old(calls), key, digest);
              r == AttemptOf(claim) && calls == if claim.Done? then claim.state else old(calls)
    {
      if key in calls {
        var row := calls[key];
        if row.digest != digest { return Refused(I.Conflict); }
        return Returned(if row.response.Some? then L.Completed(row.response.value) else L.Executing);
      }
      calls := calls[key := L.Row(digest, None)];
      return Returned(L.Claimed);
    }

    method CompleteToolCall(key: I.ToolCallKey, digest: L.Digest, response: L.Response)
      returns (r: Attempt<L.Response, I.Error>)
      modifies this`calls
      ensures var done := L.Complete(old(calls), key, digest, response);
              r == AttemptOf(done) && calls == if done.Done? then done.state else old(calls)
    {
      if key !in calls || calls[key].digest != digest { return Refused(I.Conflict); }
      var row := calls[key];
      if row.response.Some? { return Returned(row.response.value); }
      row := row.(response := Some(response));
      calls := calls[key := row];
      return Returned(response);
    }

    method HasToolCalls(run: RunId) returns (has: bool)
      ensures has <==> exists k :: k in calls && k.run == run
    {
      var rest := calls.Keys;
      while rest != {}
        invariant rest <= calls.Keys && forall k :: k in calls.Keys - rest ==> k.run != run
        decreases |rest|
      {
        var k :| k in rest;
        rest := rest - {k};
        if k.run == run { return true; }
      }
      return false;
    }

    /** session.get of a recovery record. */
    method GetRecovery(original: RunId) returns (read: Option<R.Recovery>)
      ensures read == R.Get(recoveries, original)
    {
      return if original in recoveries then Some(recoveries[original]) else None;
    }

    method GetOrCreateRecoveryEvent(read: Option<R.Recovery>, original: RunId) returns (r: Attempt<R.Recovery, R.Error>)
      modifies this`recoveries
      ensures var c := R.Commit(old(recoveries), original, read, R.OpenEvent);
              r == AttemptOf(c) && recoveries == if c.Done? then c.state else old(recoveries)
    {
      if read.Some? { return Returned(read.value); }
      if original in recoveries { return Refused(R.Integrity); }
      var row := R.Recovery(original, R.Pending, None);
      recoveries := recoveries[original := row];
      return Returned(row);
    }

    method MarkRecoveryManualReview(read: Option<R.Recovery>, original: RunId) returns (r: Attempt<R.Recovery, R.Error>)
      modifies this`recoveries
      ensures var c := R.Commit(old(recoveries), original, read, R.MarkManual);
              r == AttemptOf(c) && recoveries == if c.Done? then c.state else old(recoveries)
    {
      if read.None? { return Refused(R.NotFound); }
      var row := read.value;
      if row.status == R.Created { return Returned(row); }
      row := row.(status := R.ManualReview);
      if original !in recoveries { return Refused(R.NotFound); }
      var current := recoveries[original];
      if row.status != read.value.status { current := current.(status := row.status); }
      if !R.Checked(current) { return Refused(R.Integrity); }
      recoveries := recoveries[original := current];
      return Returned(row);
    }

    method BindRecoveryRun(read: Option<R.Recovery>, original: RunId, run: RunId) returns (r: Attempt<R.Recovery, R.Error>)
      modifies this`recoveries
      ensures var c := R.Commit(old(recoveries), original, read, R.BindRun(run));
              r == AttemptOf(c) && recoveries == if c.Done? then c.state else old(recoveries)
    {
      if read.None? { return Refused(R.NotFound); }
      var row := read.value;
      if row.status == R.Created {
        if row.successor != Some(run) { return Refused(R.Conflict); }
        return Returned(row);
      }
      if row.status != R.Pending { return Refused(R.Conflict); }
      row := row.(status := R.Created, successor := Some(run));
      if original !in recoveries { return Refused(R.NotFound); }
      var current := recoveries[original].(status := row.status);
      if row.successor != read.value.successor { current := current.(successor := row.successor); }
      if !R.Checked(current) { return Refused(R.Integrity); }
      if exists k :: k in recoveries && k != original && recoveries[k].successor == Some(run) { return Refused(R.Integrity); }
      recoveries := recoveries[original := current];
      return Returned(row);
    }
  }
}
