/** SQLWriteOutbox and MemoryWriteWorker: an undisturbed delivery ends after a bounded number of claims. */
module MemoryWriteDelivery {
  import opened Common
  import opened MemoryWriteState

  /** The worker's settings after its constructor put them in range. Durations are whole ticks. */
  datatype Settings = Settings(worker: WorkerId, initial: int, cap: int, maxAttempts: int)

  predicate InRange(c: Settings) { 0 <= c.initial <= c.cap && c.maxAttempts >= 1 }

  function Max(a: int, b: int): int { if a >= b then a else b }

  function Clamped(worker: WorkerId, initial: int, cap: int, maxAttempts: int): (c: Settings)
    ensures InRange(c)
  {
    Settings(worker, Max(0, initial), Max(Max(0, initial), cap), Max(1, maxAttempts))
  }

  function Pow2(n: nat): (p: int)
    ensures p >= 1
  {
    if n == 0 then 1 else 2 * Pow2(n - 1)
  }

  /** _retry_delay_seconds. */
  function Delay(c: Settings, attempts: nat): int {
    var exponent := Max(0, attempts - 1);
    var backoff := c.initial * Pow2(exponent);
    if c.cap <= backoff then c.cap else backoff
  }

  /** Delays start at the initial one, never shrink, never exceed the cap, and double until they reach it. */
  lemma DelaysGrowToCap(c: Settings, attempts: nat)
    requires InRange(c)
    ensures Delay(c, 0) == Delay(c, 1) == c.initial
    ensures 0 <= Delay(c, attempts) <= Delay(c, attempts + 1) <= c.cap
    ensures attempts >= 1 ==> Delay(c, attempts + 1) == if 2 * Delay(c, attempts) <= c.cap then 2 * Delay(c, attempts) else c.cap
  {
    var n := Max(0, attempts - 1);
    if attempts >= 1 { assert c.initial * Pow2(n + 1) == 2 * (c.initial * Pow2(n)); }
    assert c.initial * Pow2(n) >= 0 by { NonNegative(c.initial, Pow2(n)); }
  }

  lemma NonNegative(a: int, b: int)
    requires a >= 0 && b >= 0
    ensures a * b >= 0
  {
  }

  /** What the environment answers during one claim, and the clock readings. */
  datatype Answers = Answers(poll: PollAnswer, add: AddAnswer, claimedAt: Time, savedAt: Time, releasedAt: Time)

  function Released(r: Row, c: Settings, intent: Intent, attempts: nat, eventId: Option<string>, now: Time): Row {
    match intent
    case Retry => Retried(r, now + Max(0, Delay(c, attempts)), "mem0_event_pending")
    case Review(code) => Reviewed(r, code)
    case Complete => Finished(r, eventId)
    case _ => r
  }

  /** The row after one undisturbed run_once that claimed it. */
  function Serve(r: Row, c: Settings, lease: int, a: Answers): Row {
    Delivered(Claimed(r, c.worker, a.claimedAt, lease), c, lease, a)
  }

  function Delivered(row: Row, c: Settings, lease: int, a: Answers): Row {
    match FirstIntent(row.eventId, row.attempts)
    case PollEvent =>
      Released(row, c, AfterPoll(a.poll, row.attempts, Max(0, c.maxAttempts)), row.attempts, row.eventId, a.releasedAt)
    case AddMemory =>
      (match AfterAdd(a.add)
       case SaveEvent(id) => Released(Saved(row, id, a.savedAt, lease), c, Retry, row.attempts, row.eventId, a.releasedAt)
       case intent => Released(row, c, intent, row.attempts, row.eventId, a.releasedAt))
    case intent => Released(row, c, intent, row.attempts, row.eventId, a.releasedAt)
  }

  predicate Settled(r: Row) { r.status == Completed || r.status == ManualReview }

  /** One claim after another, until the row is settled or the answers end. */
  function ServeAll(r: Row, c: Settings, lease: int, answers: seq<Answers>): Row
    decreases |answers|
  {
    if answers == [] || Settled(r) then r else ServeAll(Serve(r, c, lease, answers[0]), c, lease, answers[1..])
  }

  predicate Waiting(r: Row) { r.status == Pending && (r.eventId.Some? ==> r.eventId.value != "") }

  lemma {:induction false} PollsSettle(r: Row, c: Settings, lease: int, answers: seq<Answers>)
    requires InRange(c) && Waiting(r) && r.eventId.Some?
    requires |answers| >= Max(1, c.maxAttempts - r.attempts)
    ensures Settled(ServeAll(r, c, lease, answers))
    decreases |answers|
  {
    var after := Serve(r, c, lease, answers[0]);
    if !Settled(after) {
      PollsSettle(after, c, lease, answers[1..]);
    } else {
      assert ServeAll(after, c, lease, answers[1..]) == after;
    }
  }

  /** With one worker, no crash and an adapter that answers, whatever it answers, a pending write is completed or in manual
      review after at most max(2, max_event_poll_attempts) claims. */
  lemma DeliveryTerminates(r: Row, c: Settings, lease: int, answers: seq<Answers>)
    requires InRange(c) && Waiting(r) && |answers| >= Max(2, c.maxAttempts)
    ensures Settled(ServeAll(r, c, lease, answers))
  {
    if r.eventId.Some? {
      PollsSettle(r, c, lease, answers);
    } else {
      var after := Serve(r, c, lease, answers[0]);
      if Settled(after) {
        assert ServeAll(after, c, lease, answers[1..]) == after;
      } else {
        PollsSettle(after, c, lease, answers[1..]);
      }
    }
  }

  /** The bound is reached: with every poll pending, one claim fewer leaves a fresh write pending. */
  lemma {:induction false} BoundIsTight(r: Row, c: Settings, lease: int, a: Answers, n: nat)
    requires InRange(c) && c.maxAttempts >= 2 && r.status == Pending && r.attempts == 0 && r.eventId.None?
    requires a.poll == StillPending && a.add.Added? && a.add.eventId != "" && 1 <= n < c.maxAttempts
    ensures var after := ServeAll(r, c, lease, seq(n, _ => a));
            Waiting(after) && after.eventId.Some? && after.attempts == n
    decreases n
  {
    var answers := seq(n, _ => a);
    if n == 1 {
      assert answers[1..] == [];
      var once := Serve(r, c, lease, a);
      assert ServeAll(once, c, lease, []) == once;
    } else {
      BoundIsTight(r, c, lease, a, n - 1);
      assert answers == seq(n - 1, _ => a) + [a];
      ServeOneMore(r, c, lease, seq(n - 1, _ => a), a);
    }
  }

  lemma {:induction false} ServeOneMore(r: Row, c: Settings, lease: int, answers: seq<Answers>, a: Answers)
    requires !Settled(ServeAll(r, c, lease, answers))
    ensures ServeAll(r, c, lease, answers + [a]) == Serve(ServeAll(r, c, lease, answers), c, lease, a)
    decreases |answers|
  {
    if answers == [] {
      assert ([] + [a])[1..] == [];
      assert ServeAll(Serve(r, c, lease, a), c, lease, ([] + [a])[1..]) == Serve(r, c, lease, a);
    } else {
      assert (answers + [a])[1..] == answers[1..] + [a];
      ServeOneMore(Serve(r, c, lease, answers[0]), c, lease, answers[1..], a);
    }
  }

  /** ORDER BY retry_not_before, created_at. Databases differ in where a null goes. */
  predicate Before(a: Row, b: Row, nullsFirst: bool) {
    if a.retryNotBefore == b.retryNotBefore then a.createdAt < b.createdAt
    else if a.retryNotBefore.None? then nullsFirst
    else if b.retryNotBefore.None? then !nullsFirst
    else a.retryNotBefore.value < b.retryNotBefore.value
  }

  /** The order of the query, told on the columns: by retry time, absent ones where the database puts them, then by creation. */
  predicate NoLater(a: Row, b: Row, nullsFirst: bool) {
    && (a.retryNotBefore == b.retryNotBefore ==> a.createdAt <= b.createdAt)
    && (a.retryNotBefore.Some? && b.retryNotBefore.Some? ==> a.retryNotBefore.value <= b.retryNotBefore.value)
    && (a.retryNotBefore.None? && b.retryNotBefore.Some? ==> nullsFirst)
    && (a.retryNotBefore.Some? && b.retryNotBefore.None? ==> !nullsFirst)
  }

  lemma NotBeforeIsNoLater(a: Row, b: Row, nullsFirst: bool)
    ensures !Before(b, a, nullsFirst) <==> NoLater(a, b, nullsFirst)
  {
  }

  lemma StillNotBefore(a: Row, least: Row, smaller: Row, nullsFirst: bool)
    requires !Before(a, least, nullsFirst) && Before(smaller, least, nullsFirst)
    ensures !Before(a, smaller, nullsFirst)
  {
  }

  predicate Least(rows: Rows, key: WriteKey, now: Time, nullsFirst: bool)
    requires key in rows
  {
    && Claimable(rows[key], now)
    && forall k :: k in rows && Claimable(rows[k], now) ==> NoLater(rows[key], rows[k], nullsFirst)
  }

  /** A transaction that changes a row it read under the worker's lease. */
  predicate Holds(read: Option<Row>, worker: WorkerId) { read.Some? && read.value.leaseOwner == Some(worker) }

  function Flushed(rows: Rows, key: WriteKey, read: Row, row: Row): Rows
    requires key in rows
  {
    rows[key := Overlay(read, row, rows[key])]
  }

  /** The methods take `read`, the row as the transaction's first query returned it; rows are never deleted. */
  class SqlWriteOutbox {
    var rows: Rows
    const lease: int
    const nullsFirst: bool

    constructor (lease: int, nullsFirst: bool)
      ensures rows == map[] && this.lease == lease && this.nullsFirst == nullsFirst
    {
      rows, this.lease, this.nullsFirst := map[], lease, nullsFirst;
    }

    function Get(key: WriteKey): Option<Row>
      reads this`rows
    {
      if key in rows then Some(rows[key]) else None
    }

    /** UPDATE of the columns that the transaction changed. */
    method Flush(key: WriteKey, read: Row, row: Row)
      requires key in rows
      modifies this`rows
      ensures rows == Flushed(old(rows), key, read, row)
    {
      var current := rows[key];
      if row.status != read.status { current := current.(status := row.status); }
      if row.eventId != read.eventId { current := current.(eventId := row.eventId); }
      if row.attempts != read.attempts { current := current.(attempts := row.attempts); }
      if row.leaseOwner != read.leaseOwner { current := current.(leaseOwner := row.leaseOwner); }
      if row.leaseExpiresAt != read.leaseExpiresAt { current := current.(leaseExpiresAt := row.leaseExpiresAt); }
      if row.retryNotBefore != read.retryNotBefore { current := current.(retryNotBefore := row.retryNotBefore); }
      if row.failure != read.failure { current := current.(failure := row.failure); }
      rows := rows[key := current];
    }

    /** Write or accept as a repeat; the same key with other content is refused. */
    method Enqueue(key: WriteKey, user: UserId, category: string, content: string, createdAt: Time)
      returns (r: Attempt<(), ()>)
      modifies this`rows
      ensures rows == if key in old(rows) then old(rows) else old(rows)[key := NewRow(user, category, content, createdAt)]
      ensures r.Refused? <==> key in old(rows)
                              && (old(rows)[key].user, old(rows)[key].category, old(rows)[key].content) != (user, category, content)
    {
      if key !in rows {
        rows := rows[key := Row(user, category, content, createdAt, Pending, None, 0, None, None, None, None)];
        return Returned(());
      }
      var existing := rows[key];
      if existing.user != user || existing.category != category || existing.content != content { return Refused(()); }
      return Returned(());
    }

    /** The query of claim: a claimable row that no other claimable row comes before. */
    method SelectClaimable(now: Time) returns (selected: Option<WriteKey>)
      ensures selected.None? <==> forall k :: k in rows ==> !Claimable(rows[k], now)
      ensures selected.Some? ==> selected.value in rows && Least(rows, selected.value, now, nullsFirst)
    {
      selected := None;
      var rest := rows.Keys;
      while rest != {}
        invariant rest <= rows.Keys
        invariant selected.None? ==> forall k :: k in rows.Keys - rest ==> !Claimable(rows[k], now)
        invariant selected.Some? ==> selected.value in rows && Claimable(rows[selected.value], now)
        invariant selected.Some? ==> forall k :: k in rows.Keys - rest && Claimable(rows[k], now)
                                                 ==> !Before(rows[k], rows[selected.value], nullsFirst)
        decreases |rest|
      {
        var key :| key in rest;
        rest := rest - {key};
        if Claimable(rows[key], now) && (selected.None? || Before(rows[key], rows[selected.value], nullsFirst)) {
          forall k | selected.Some? && k in rows.Keys - rest && k != key && Claimable(rows[k], now)
            ensures !Before(rows[k], rows[key], nullsFirst)
          {
            StillNotBefore(rows[k], rows[selected.value], rows[key], nullsFirst);
          }
          selected := Some(key);
        }
      }
      if selected.Some? {
        forall k | k in rows && Claimable(rows[k], now) ensures NoLater(rows[selected.value], rows[k], nullsFirst) {
          NotBeforeIsNoLater(rows[selected.value], rows[k], nullsFirst);
        }
      }
    }

    /** The commit of claim, on the row as its query read it; the worker goes on with what it wrote. */
    method CommitClaim(key: WriteKey, read: Row, worker: WorkerId, now: Time) returns (claimed: Row)
      requires key in rows
      modifies this`rows
      ensures claimed == Claimed(read, worker, now, lease)
      ensures rows == Flushed(old(rows), key, read, claimed)
    {
      claimed := read.(status := Processing, leaseOwner := Some(worker), leaseExpiresAt := Some(now + lease),
                       attempts := read.attempts + 1, retryNotBefore := None);
      Flush(key, read, claimed);
    }

    method SaveEventId(read: Option<Row>, key: WriteKey, worker: WorkerId, eventId: string, now: Time) returns (saved: bool)
      requires read.Some? ==> key in rows
      modifies this`rows
      ensures saved == Holds(read, worker)
      ensures rows == if saved then Flushed(old(rows), key, read.value, Saved(read.value, eventId, now, lease)) else old(rows)
    {
      if read.None? || read.value.leaseOwner != Some(worker) { return false; }
      Flush(key, read.value, read.value.(eventId := Some(eventId), failure := None, leaseExpiresAt := Some(now + lease)));
      return true;
    }

    method Retry(read: Option<Row>, key: WriteKey, worker: WorkerId, delay: int, code: string, now: Time)
      requires read.Some? ==> key in rows
      modifies this`rows
      ensures rows == if Holds(read, worker)
                      then Flushed(old(rows), key, read.value, Retried(read.value, now + Max(0, delay), code)) else old(rows)
    {
      if read.None? || read.value.leaseOwner != Some(worker) { return; }
      Flush(key, read.value, read.value.(status := Pending, leaseOwner := None, leaseExpiresAt := None,
                                         retryNotBefore := Some(now + Max(0, delay)), failure := Some(code)));
    }

    method MoveToManualReview(read: Option<Row>, key: WriteKey, worker: WorkerId, code: string)
      requires read.Some? ==> key in rows
      modifies this`rows
      ensures rows == if Holds(read, worker) then Flushed(old(rows), key, read.value, Reviewed(read.value, code)) else old(rows)
    {
      if read.None? || read.value.leaseOwner != Some(worker) { return; }
      Flush(key, read.value, read.value.(status := ManualReview, leaseOwner := None, leaseExpiresAt := None,
                                         retryNotBefore := None, failure := Some(code)));
    }

    method RequeueManualReview(read: Option<Row>, user: UserId, key: WriteKey) returns (requeued: bool)
      requires read.Some? ==> key in rows
      modifies this`rows
      ensures requeued <==> read.Some? && read.value.user == user && read.value.status == ManualReview
      ensures rows == if requeued then Flushed(old(rows), key, read.value, Requeued(read.value)) else old(rows)
    {
      if read.None? || read.value.user != user || read.value.status != ManualReview { return false; }
      var row := read.value;
      Flush(key, row, row.(status := Pending, attempts := if row.eventId.None? then 0 else 1, retryNotBefore := None,
                           failure := None, leaseOwner := None, leaseExpiresAt := None));
      return true;
    }

    method Complete(read: Option<Row>, key: WriteKey, worker: WorkerId, eventId: Option<string>)
      requires read.Some? ==> key in rows
      modifies this`rows
      ensures rows == if Holds(read, worker) then Flushed(old(rows), key, read.value, Finished(read.value, eventId)) else old(rows)
    {
      if read.None? || read.value.leaseOwner != Some(worker) { return; }
      Flush(key, read.value, read.value.(status := Completed, eventId := eventId, retryNotBefore := None, failure := None,
                                         leaseOwner := None, leaseExpiresAt := None));
    }
  }

  class MemoryWriteWorker {
    const outbox: SqlWriteOutbox
    const settings: Settings

    constructor (outbox: SqlWriteOutbox, worker: WorkerId, initial: int, cap: int, maxAttempts: int)
      ensures this.outbox == outbox && InRange(settings) && settings == Clamped(worker, initial, cap, maxAttempts)
    {
      this.outbox, settings := outbox, Clamped(worker, initial, cap, maxAttempts);
    }

    /** run_once without interference: nothing to claim, or a claimable row that no other comes before is served and no
        other row changes. */
    method RunOnce(a: Answers) returns (served: Option<WriteKey>)
      requires InRange(settings)
      modifies outbox
      ensures served.None? ==> outbox.rows == old(outbox.rows)
                               && forall k :: k in outbox.rows ==> !Claimable(outbox.rows[k], a.claimedAt)
      ensures served.Some? ==>
                && served.value in old(outbox.rows)
                && Least(old(outbox.rows), served.value, a.claimedAt, outbox.nullsFirst)
                && outbox.rows == old(outbox.rows)[served.value := Serve(old(outbox.rows)[served.value], settings, outbox.lease, a)]
    {
      served := outbox.SelectClaimable(a.claimedAt);
      if served.None? { return; }
      var key := served.value;
      var claimed := outbox.CommitClaim(key, outbox.rows[key], settings.worker, a.claimedAt);
      if claimed.eventId.Some? && claimed.eventId.value != "" {
        PollEvent(key, claimed, a);
      } else if claimed.attempts > 1 {
        outbox.MoveToManualReview(outbox.Get(key), key, settings.worker, BOUNDARY_UNKNOWN);
      } else {
        AddMemory(key, claimed, a);
      }
    }

    method PollEvent(key: WriteKey, claimed: Row, a: Answers)
      requires InRange(settings) && key in outbox.rows && outbox.rows[key] == claimed
      requires claimed.leaseOwner == Some(settings.worker) && claimed.eventId.Some? && claimed.eventId.value != ""
      modifies outbox
      ensures outbox.rows == old(outbox.rows)[key := Delivered(claimed, settings, outbox.lease, a)]
    {
      match a.poll {
        case Stable => outbox.Complete(outbox.Get(key), key, settings.worker, claimed.eventId);
        case StillPending =>
          if claimed.attempts >= settings.maxAttempts {
            outbox.MoveToManualReview(outbox.Get(key), key, settings.worker, "mem0_event_poll_attempts_exhausted");
          } else {
            outbox.Retry(outbox.Get(key), key, settings.worker, Delay(settings, claimed.attempts), "mem0_event_pending",
                         a.releasedAt);
          }
        case PollRaised => outbox.MoveToManualReview(outbox.Get(key), key, settings.worker, BOUNDARY_UNKNOWN);
      }
    }

    method AddMemory(key: WriteKey, claimed: Row, a: Answers)
      requires InRange(settings) && key in outbox.rows && outbox.rows[key] == claimed
      requires claimed.leaseOwner == Some(settings.worker) && (claimed.eventId.Some? ==> claimed.eventId.value == "")
      requires claimed.attempts <= 1
      modifies outbox
      ensures outbox.rows == old(outbox.rows)[key := Delivered(claimed, settings, outbox.lease, a)]
    {
      match a.add {
        case AddRaised => outbox.MoveToManualReview(outbox.Get(key), key, settings.worker, BOUNDARY_UNKNOWN);
        case Added(id) =>
          if id != "" {
            var saved := outbox.SaveEventId(outbox.Get(key), key, settings.worker, id, a.savedAt);
            if saved {
              outbox.Retry(outbox.Get(key), key, settings.worker, Delay(settings, claimed.attempts), "mem0_event_pending",
                           a.releasedAt);
            }
          } else {
            outbox.MoveToManualReview(outbox.Get(key), key, settings.worker, "mem0_add_event_id_missing");
          }
      }
    }
  }
}
