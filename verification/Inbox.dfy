/** The Turn inbox of one conversation, with the lease reduced to "held or not": what every repository call does to
    it, and the invariants those transitions keep. */
module Inbox {
  import opened CompactionState

  datatype Entry = Entry(status: TurnStatus, arrival: nat, createdAt: int)

  datatype Inbox = Inbox(leased: bool, turns: map<TurnKey, Entry>)

  predicate Has(b: Inbox, k: TurnKey, status: TurnStatus) { k in b.turns && b.turns[k].status == status }
  predicate Executes(b: Inbox, k: TurnKey) { k in b.turns && IsExecuting(b.turns[k].status) }
  predicate Waits(b: Inbox, k: TurnKey) { k in b.turns && IsWaiting(b.turns[k].status) }
  predicate Active(b: Inbox, k: TurnKey) { k in b.turns && IsActive(b.turns[k].status) }

  function Set(b: Inbox, k: TurnKey, status: TurnStatus): Inbox
    requires k in b.turns
  {
    b.(turns := b.turns[k := b.turns[k].(status := status)])
  }

  /** The lease is taken (over): nothing is processing, accepted turns go back to queued. */
  ghost predicate Leases(b: Inbox, d: Inbox) {
    && (forall k :: !Has(b, k, Processing))
    && d.leased
    && d.turns.Keys == b.turns.Keys
    && forall k :: k in b.turns ==>
         d.turns[k] == b.turns[k].(status := if b.turns[k].status == Accepted then Queued else b.turns[k].status)
  }

  /** A new turn arrives after all others. */
  ghost predicate Arrives(b: Inbox, d: Inbox, k: TurnKey) {
    && k !in b.turns
    && d.leased == b.leased
    && k in d.turns
    && d.turns == b.turns[k := d.turns[k]]
    && (forall j :: j in b.turns ==> b.turns[j].arrival < d.turns[k].arrival)
    && d.turns[k].status == if b.leased || exists j :: j in b.turns && Executes(b, j) then Queued else Accepted
  }

  /** k is started when nothing processes and the inbox is not leased. */
  ghost predicate Starts(b: Inbox, d: Inbox, k: TurnKey) {
    !b.leased && (forall j :: !Has(b, j, Processing)) && Waits(b, k) && d == Set(b, k, Processing)
  }

  /** k arrived no later than any other waiting turn. */
  ghost predicate ArrivedFirst(b: Inbox, k: TurnKey) {
    Waits(b, k) && forall j :: Waits(b, j) ==> b.turns[k].arrival <= b.turns[j].arrival
  }

  /** (created_at, turn_id) of j does not exceed that of k. */
  predicate CreatedNoLater(b: Inbox, j: TurnKey, k: TurnKey)
    requires j in b.turns && k in b.turns
  {
    || b.turns[j].createdAt < b.turns[k].createdAt
    || (b.turns[j].createdAt == b.turns[k].createdAt && j.turnId <= k.turnId)
  }

  /** k has the least (created_at, turn_id) of the waiting turns. */
  ghost predicate CreatedFirst(b: Inbox, k: TurnKey) {
    Waits(b, k) && forall j :: Waits(b, j) ==> CreatedNoLater(b, k, j)
  }

  /** No turn may or need be started. */
  ghost predicate Idle(b: Inbox) {
    b.leased || (exists j :: Has(b, j, Processing)) || (forall j :: !Waits(b, j))
  }

  /** k is completed (or was already) and, where possible, some turn is started. */
  ghost predicate Completes(b: Inbox, d: Inbox, k: TurnKey) {
    && (Executes(b, k) || Has(b, k, Completed))
    && var m := Set(b, k, Completed);
       (Idle(m) && d == m) || exists n :: Starts(m, d, n) && CreatedFirst(m, n)
  }

  /** The lease is given up and, where possible, some turn is started. */
  ghost predicate Releases(b: Inbox, d: Inbox) {
    && b.leased
    && var m := b.(leased := false);
       ((forall j :: !Waits(m, j)) && d == m) || exists n :: Starts(m, d, n) && ArrivedFirst(m, n)
  }

  ghost predicate Moves(b: Inbox, d: Inbox) {
    || d == b
    || Leases(b, d)
    || (exists k :: Arrives(b, d, k))
    || (exists k :: Starts(b, d, k) && ArrivedFirst(b, k))
    || (exists k :: Completes(b, d, k))
    || Releases(b, d)
  }

  ghost predicate LeaseExcludesExecution(b: Inbox) { b.leased ==> forall k :: !Executes(b, k) }

  ghost predicate AtMostOne(b: Inbox, status: TurnStatus) {
    forall j, k :: Has(b, j, status) && Has(b, k, status) ==> j == k
  }

  /** Without a lease, a queued turn always has an executing turn ahead of it to hand over to it. */
  ghost predicate NothingStranded(b: Inbox) {
    !b.leased && (exists k :: Has(b, k, Queued)) ==> exists j :: Executes(b, j)
  }

  ghost predicate OnlyProtocolStatuses(b: Inbox) {
    forall k :: k in b.turns ==> Active(b, k) || Has(b, k, Completed)
  }

  ghost predicate Exclusive(b: Inbox) {
    && OnlyProtocolStatuses(b)
    && LeaseExcludesExecution(b)
    && AtMostOne(b, Processing)
    && AtMostOne(b, Accepted)
    && NothingStranded(b)
  }

  lemma StartKeepsExclusion(b: Inbox, d: Inbox, n: TurnKey)
    requires OnlyProtocolStatuses(b) && AtMostOne(b, Accepted) && Starts(b, d, n)
    ensures Exclusive(d)
  {
    assert Executes(d, n);
    assert forall j :: Has(d, j, Accepted) ==> Has(b, j, Accepted);
    assert forall j :: Has(d, j, Processing) ==> j == n || Has(b, j, Processing);
  }

  lemma CompletionKeepsExclusion(b: Inbox, d: Inbox, k: TurnKey)
    requires Exclusive(b) && Completes(b, d, k)
    ensures Exclusive(d)
  {
    var m := Set(b, k, Completed);
    assert forall j :: Has(m, j, Accepted) ==> Has(b, j, Accepted);
    assert forall j :: Has(m, j, Processing) ==> Has(b, j, Processing);
    assert OnlyProtocolStatuses(m);
    if exists n :: Starts(m, d, n) {
      var n :| Starts(m, d, n);
      StartKeepsExclusion(m, d, n);
    } else {
      assert forall j :: Has(m, j, Queued) ==> Waits(m, j);
      assert forall j :: Has(m, j, Processing) ==> Executes(m, j);
      assert forall j :: Executes(m, j) ==> Executes(b, j);
    }
  }

  lemma ReleaseKeepsExclusion(b: Inbox, d: Inbox)
    requires Exclusive(b) && Releases(b, d)
    ensures Exclusive(d)
  {
    var m := b.(leased := false);
    assert forall j, status :: Has(m, j, status) == Has(b, j, status);
    if exists n :: Starts(m, d, n) {
      var n :| Starts(m, d, n);
      StartKeepsExclusion(m, d, n);
    } else {
      assert forall j :: Has(m, j, Queued) ==> Waits(m, j);
    }
  }

  lemma ArrivalKeepsExclusion(b: Inbox, d: Inbox, k: TurnKey)
    requires Exclusive(b) && Arrives(b, d, k)
    ensures Exclusive(d)
  {
    assert AtMostOne(d, Processing) by {
      forall i, j | Has(d, i, Processing) && Has(d, j, Processing) ensures i == j {
        assert i != k && j != k;
        assert Has(b, i, Processing) && Has(b, j, Processing);
      }
    }
    forall i, j | Has(d, i, Accepted) && Has(d, j, Accepted) ensures i == j {
      assert i != k ==> Has(b, i, Accepted) && Executes(b, i);
      assert j != k ==> Has(b, j, Accepted) && Executes(b, j);
    }
    assert forall j :: j != k ==> Executes(d, j) == Executes(b, j);
    assert forall j :: j != k ==> Has(d, j, Queued) == Has(b, j, Queued);
    if d.turns[k].status == Accepted {
      assert Executes(d, k);
      assert forall j :: Has(b, j, Accepted) ==> Executes(b, j);
    }
  }

  lemma LeaseKeepsExclusion(b: Inbox, d: Inbox)
    requires Exclusive(b) && Leases(b, d)
    ensures Exclusive(d)
  {
    forall k ensures !Executes(d, k) {
      assert !Has(b, k, Processing);
    }
    forall k ensures !Has(d, k, Processing) && !Has(d, k, Accepted) {
      assert !Executes(d, k);
    }
    forall k | k in d.turns ensures Active(d, k) || Has(d, k, Completed) {
      assert Active(b, k) || Has(b, k, Completed);
    }
  }

  /** Every transition keeps the exclusion invariant. */
  lemma MoveKeepsExclusion(b: Inbox, d: Inbox)
    requires Exclusive(b) && Moves(b, d)
    ensures Exclusive(d)
  {
    if d == b {
    } else if Leases(b, d) {
      LeaseKeepsExclusion(b, d);
    } else if exists k :: Arrives(b, d, k) {
      var k :| Arrives(b, d, k);
      ArrivalKeepsExclusion(b, d, k);
    } else if exists k :: Starts(b, d, k) {
      var k :| Starts(b, d, k);
      StartKeepsExclusion(b, d, k);
    } else if exists k :: Completes(b, d, k) {
      var k :| Completes(b, d, k);
      CompletionKeepsExclusion(b, d, k);
    } else {
      ReleaseKeepsExclusion(b, d);
    }
  }

  /** Position of a status in accepted < queued < processing < completed. */
  function Rank(status: TurnStatus): nat {
    match status
    case Accepted => 0
    case Queued => 1
    case Processing => 2
    case WaitingUser | Completed | Failed => 3
  }

  /** No turn disappears, moves in the inbox, or goes back in status. */
  lemma MoveNeverGoesBack(b: Inbox, d: Inbox, k: TurnKey)
    requires Moves(b, d) && k in b.turns
    ensures k in d.turns && d.turns[k] == b.turns[k].(status := d.turns[k].status)
    ensures Rank(b.turns[k].status) <= Rank(d.turns[k].status)
  {
  }

  /** Among turns still to be completed, the key (created_at, turn_id) grows with arrival. */
  ghost predicate KeysGrow(b: Inbox) {
    forall j, k :: Active(b, j) && Active(b, k) && b.turns[j].arrival < b.turns[k].arrival ==>
      CreatedNoLater(b, j, k) && j != k && !CreatedNoLater(b, k, j)
  }

  ghost predicate EarliestExecutes(b: Inbox) {
    forall j, k :: Executes(b, k) && Active(b, j) ==> b.turns[k].arrival <= b.turns[j].arrival
  }

  /** Whatever arrived before a completed turn is completed. */
  ghost predicate CompletedInOrder(b: Inbox) {
    forall j, k :: j in b.turns && Has(b, k, Completed) && b.turns[j].arrival < b.turns[k].arrival ==> Has(b, j, Completed)
  }

  ghost predicate DistinctArrivals(b: Inbox) {
    forall j, k :: j in b.turns && k in b.turns && b.turns[j].arrival == b.turns[k].arrival ==> j == k
  }

  ghost predicate Fifo(b: Inbox) {
    DistinctArrivals(b) && KeysGrow(b) && EarliestExecutes(b) && CompletedInOrder(b)
  }

  /** The turn that arrives is created later than every turn still to be completed. */
  ghost predicate ArrivesInOrder(b: Inbox, k: TurnKey, createdAt: int) {
    forall j :: Active(b, j) ==>
      b.turns[j].createdAt < createdAt || (b.turns[j].createdAt == createdAt && j.turnId < k.turnId)
  }

  lemma FirstCreatedArrivedFirst(b: Inbox, n: TurnKey)
    requires DistinctArrivals(b) && KeysGrow(b) && CreatedFirst(b, n)
    ensures ArrivedFirst(b, n)
  {
    assert Active(b, n);
    forall j | Waits(b, j) ensures b.turns[n].arrival <= b.turns[j].arrival {
      assert Active(b, j) && CreatedNoLater(b, n, j);
    }
  }

  /** Keys keep growing when the active turns stay the same or become fewer. */
  lemma KeysGrowOnFewer(b: Inbox, m: Inbox)
    requires KeysGrow(b)
    requires forall j :: Active(m, j) ==> Active(b, j)
    requires forall j :: j in m.turns && j in b.turns ==>
      m.turns[j].arrival == b.turns[j].arrival && m.turns[j].createdAt == b.turns[j].createdAt
    ensures KeysGrow(m)
  {
    forall i, j | Active(m, i) && Active(m, j) && m.turns[i].arrival < m.turns[j].arrival
      ensures CreatedNoLater(m, i, j) && i != j && !CreatedNoLater(m, j, i)
    {
      assert Active(b, i) && Active(b, j);
      assert CreatedNoLater(b, i, j) && !CreatedNoLater(b, j, i);
    }
  }

  lemma StartKeepsKeys(b: Inbox, d: Inbox, n: TurnKey)
    requires DistinctArrivals(b) && KeysGrow(b) && CompletedInOrder(b) && Starts(b, d, n)
    ensures DistinctArrivals(d) && KeysGrow(d) && CompletedInOrder(d)
  {
    assert forall j :: Active(d, j) == Active(b, j);
    assert forall j :: Has(d, j, Completed) == Has(b, j, Completed);
    KeysGrowOnFewer(b, d);
  }

  lemma StartKeepsEarliest(b: Inbox, d: Inbox, n: TurnKey)
    requires EarliestExecutes(b) && Starts(b, d, n) && ArrivedFirst(b, n)
    ensures EarliestExecutes(d)
  {
    forall j, k | Executes(d, k) && Active(d, j) ensures d.turns[k].arrival <= d.turns[j].arrival {
      assert Active(b, j) && !Has(b, j, Processing) && Waits(b, j);
      if k != n { assert Executes(b, k); }
    }
  }

  lemma StartKeepsFifo(b: Inbox, d: Inbox, n: TurnKey)
    requires DistinctArrivals(b) && KeysGrow(b) && CompletedInOrder(b) && EarliestExecutes(b)
    requires Starts(b, d, n) && ArrivedFirst(b, n)
    ensures Fifo(d)
  {
    StartKeepsKeys(b, d, n);
    StartKeepsEarliest(b, d, n);
  }

  /** Completing an executing turn, which is the earliest active one, keeps the order. */
  lemma CompletingKeepsOrder(b: Inbox, k: TurnKey)
    requires Fifo(b) && OnlyProtocolStatuses(b) && (Executes(b, k) || Has(b, k, Completed))
    ensures Fifo(Set(b, k, Completed))
  {
    var m := Set(b, k, Completed);
    assert forall j :: Active(m, j) ==> Active(b, j);
    assert forall j :: Executes(m, j) ==> Executes(b, j);
    KeysGrowOnFewer(b, m);
    forall i, j | i in m.turns && Has(m, j, Completed) && m.turns[i].arrival < m.turns[j].arrival
      ensures Has(m, i, Completed)
    {
      if j == k && Executes(b, k) {
        assert Active(b, i) || Has(b, i, Completed);
      } else {
        assert Has(b, j, Completed);
        assert Has(b, i, Completed);
      }
    }
  }

  lemma CompletionKeepsFifo(b: Inbox, d: Inbox, k: TurnKey)
    requires Fifo(b) && OnlyProtocolStatuses(b) && Completes(b, d, k)
    ensures Fifo(d)
  {
    var m := Set(b, k, Completed);
    CompletingKeepsOrder(b, k);
    if exists n :: Starts(m, d, n) && CreatedFirst(m, n) {
      var n :| Starts(m, d, n) && CreatedFirst(m, n);
      FirstCreatedArrivedFirst(m, n);
      StartKeepsFifo(m, d, n);
    }
  }

  lemma ReleaseKeepsFifo(b: Inbox, d: Inbox)
    requires Fifo(b) && Releases(b, d)
    ensures Fifo(d)
  {
    var m := b.(leased := false);
    assert forall j :: Active(m, j) == Active(b, j);
    assert forall j :: Executes(m, j) == Executes(b, j);
    assert forall j :: Has(m, j, Completed) == Has(b, j, Completed);
    KeysGrowOnFewer(b, m);
    if exists n :: Starts(m, d, n) && ArrivedFirst(m, n) {
      var n :| Starts(m, d, n) && ArrivedFirst(m, n);
      StartKeepsFifo(m, d, n);
    }
  }

  lemma ArrivalKeepsKeys(b: Inbox, d: Inbox, k: TurnKey)
    requires KeysGrow(b) && Arrives(b, d, k) && ArrivesInOrder(b, k, d.turns[k].createdAt)
    ensures KeysGrow(d)
  {
    forall i, j | Active(d, i) && Active(d, j) && d.turns[i].arrival < d.turns[j].arrival
      ensures CreatedNoLater(d, i, j) && i != j && !CreatedNoLater(d, j, i)
    {
      assert i != k ==> Active(b, i);
      assert j != k ==> Active(b, j);
      if i != k && j != k {
        assert CreatedNoLater(b, i, j) && !CreatedNoLater(b, j, i);
      }
    }
  }

  lemma ArrivalKeepsFifo(b: Inbox, d: Inbox, k: TurnKey)
    requires Fifo(b) && Exclusive(b) && Arrives(b, d, k) && ArrivesInOrder(b, k, d.turns[k].createdAt)
    ensures Fifo(d)
  {
    ArrivalKeepsKeys(b, d, k);
    forall i, j | Executes(d, j) && Active(d, i) ensures d.turns[j].arrival <= d.turns[i].arrival {
      if j == k {
        assert i != k ==> Active(b, i) && !Executes(b, i) && Has(b, i, Queued);
      } else {
        assert Executes(b, j);
        assert i != k ==> Active(b, i);
      }
    }
    forall i, j | i in d.turns && Has(d, j, Completed) && d.turns[i].arrival < d.turns[j].arrival
      ensures Has(d, i, Completed)
    {
      assert j != k && Has(b, j, Completed);
      assert i != k;
      assert Has(b, i, Completed);
    }
  }

  lemma LeaseKeepsFifo(b: Inbox, d: Inbox)
    requires Fifo(b) && Leases(b, d)
    ensures Fifo(d)
  {
    assert forall j :: Active(d, j) == Active(b, j);
    KeysGrowOnFewer(b, d);
    assert forall j :: Has(d, j, Completed) == Has(b, j, Completed);
    forall j | Executes(d, j) ensures false { assert Has(b, j, Processing); }
  }

  /** Provided that turns arrive in the order of their keys, every transition keeps first-in first-out. */
  lemma MoveKeepsFifo(b: Inbox, d: Inbox)
    requires Exclusive(b) && Fifo(b) && Moves(b, d)
    requires forall k :: Arrives(b, d, k) ==> ArrivesInOrder(b, k, d.turns[k].createdAt)
    ensures Fifo(d)
  {
    if d == b {
    } else if Leases(b, d) {
      LeaseKeepsFifo(b, d);
    } else if exists k :: Arrives(b, d, k) {
      var k :| Arrives(b, d, k);
      ArrivalKeepsFifo(b, d, k);
    } else if exists k :: Starts(b, d, k) && ArrivedFirst(b, k) {
      var k :| Starts(b, d, k) && ArrivedFirst(b, k);
      StartKeepsFifo(b, d, k);
    } else if exists k :: Completes(b, d, k) {
      var k :| Completes(b, d, k);
      CompletionKeepsFifo(b, d, k);
    } else {
      ReleaseKeepsFifo(b, d);
    }
  }
}
