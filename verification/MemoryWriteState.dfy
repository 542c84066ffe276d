/** The Mem0 write Outbox: rows, the field updates of its transactions, and the worker's reactions. */
module MemoryWriteState {
  import opened Common

  type WriteKey = nat

  datatype Status = Pending | Processing | Completed | ManualReview

  datatype Row = Row(
    user: UserId, category: string, content: string, createdAt: Time,
    status: Status, eventId: Option<string>, attempts: nat,
    leaseOwner: Option<WorkerId>, leaseExpiresAt: Option<Time>, retryNotBefore: Option<Time>, failure: Option<string>)

  type Rows = map<WriteKey, Row>

  function NewRow(user: UserId, category: string, content: string, createdAt: Time): Row {
    Row(user, category, content, createdAt, Pending, None, 0, None, None, None, None)
  }

  predicate Claimable(r: Row, now: Time) {
    || (r.status == Pending && (r.retryNotBefore.None? || r.retryNotBefore.value <= now))
    || (r.status == Processing && r.leaseExpiresAt.Some? && r.leaseExpiresAt.value <= now)
  }

  function Claimed(r: Row, worker: WorkerId, now: Time, lease: int): Row {
    r.(status := Processing, leaseOwner := Some(worker), leaseExpiresAt := Some(now + lease), attempts := r.attempts + 1,
       retryNotBefore := None)
  }

  function Saved(r: Row, eventId: string, now: Time, lease: int): Row {
    r.(eventId := Some(eventId), failure := None, leaseExpiresAt := Some(now + lease))
  }

  function Retried(r: Row, notBefore: Time, code: string): Row {
    r.(status := Pending, leaseOwner := None, leaseExpiresAt := None, retryNotBefore := Some(notBefore), failure := Some(code))
  }

  function Reviewed(r: Row, code: string): Row {
    r.(status := ManualReview, leaseOwner := None, leaseExpiresAt := None, retryNotBefore := None, failure := Some(code))
  }

  function Requeued(r: Row): Row {
    r.(status := Pending, attempts := if r.eventId.None? then 0 else 1, retryNotBefore := None, failure := None,
       leaseOwner := None, leaseExpiresAt := None)
  }

  function Finished(r: Row, eventId: Option<string>): Row {
    r.(status := Completed, eventId := eventId, retryNotBefore := None, failure := None, leaseOwner := None,
       leaseExpiresAt := None)
  }

  /** An UPDATE sets the columns that differ from what the transaction read, on the row as it is now. */
  function Overlay(read: Row, wanted: Row, current: Row): Row {
    current.(
      status := if wanted.status != read.status then wanted.status else current.status,
      eventId := if wanted.eventId != read.eventId then wanted.eventId else current.eventId,
      attempts := if wanted.attempts != read.attempts then wanted.attempts else current.attempts,
      leaseOwner := if wanted.leaseOwner != read.leaseOwner then wanted.leaseOwner else current.leaseOwner,
      leaseExpiresAt := if wanted.leaseExpiresAt != read.leaseExpiresAt then wanted.leaseExpiresAt else current.leaseExpiresAt,
      retryNotBefore := if wanted.retryNotBefore != read.retryNotBefore then wanted.retryNotBefore else current.retryNotBefore,
      failure := if wanted.failure != read.failure then wanted.failure else current.failure)
  }

  /** What the adapter answers: get_event finds the memory stable, still pending, or raises; add returns an event id
      (possibly empty), or raises. */
  datatype PollAnswer = Stable | StillPending | PollRaised
  datatype AddAnswer = Added(eventId: string) | AddRaised

  /** What the worker does next with the row it claimed. */
  datatype Intent =
    | PollEvent
    | AddMemory
    | SaveEvent(eventId: string)
    | Retry
    | Review(code: string)
    | Complete

  const BOUNDARY_UNKNOWN := "mem0_add_submit_boundary_unknown"

  /** The first intent after a claim, by what the claim carries. */
  function FirstIntent(eventId: Option<string>, attempts: nat): Intent {
    if eventId.Some? && eventId.value != "" then PollEvent
    else if attempts > 1 then Review(BOUNDARY_UNKNOWN)
    else AddMemory
  }

  function AfterPoll(answer: PollAnswer, attempts: nat, maxAttempts: nat): Intent {
    match answer
    case Stable => Complete
    case StillPending => if attempts >= maxAttempts then Review("mem0_event_poll_attempts_exhausted") else Retry
    case PollRaised => Review(BOUNDARY_UNKNOWN)
  }

  function AfterAdd(answer: AddAnswer): Intent {
    match answer
    case Added(id) => if id == "" then Review("mem0_add_event_id_missing") else SaveEvent(id)
    case AddRaised => Review(BOUNDARY_UNKNOWN)
  }
}
