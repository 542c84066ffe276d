/** GenerationJob records, the contract of contracts.py, and the field updates the repository makes. Every update copies
    the record without running the contract's validator. */
module GenerationJobState {
  import opened Common

  type JobId = nat

  datatype Kind = Image | Video
  datatype Status = Queued | Starting | Polling | Succeeded | Failed | Timeout | Expired | Indeterminate

  /** What _same_identity compares. */
  datatype Identity = Identity(
    user: UserId, conversation: ConversationId, workspace: nat, kind: Kind, item: nat, variant: nat,
    requestHash: string, providerId: string)

  datatype Job = Job(
    id: JobId,
    identity: Identity,
    request: string,
    idempotencyKey: string,
    status: Status,
    providerJobId: Option<string>,
    result: Option<map<string, string>>,
    failure: Option<string>,
    nextPollAt: Option<Time>,
    leaseOwner: Option<string>,
    leaseExpiresAt: Option<Time>,
    createdAt: Time,
    updatedAt: Time)

  type Jobs = map<JobId, Job>

  /** Python truth of an optional text and of an optional mapping. */
  predicate Text(o: Option<string>) { o.Some? && o.value != "" }
  predicate Entries(o: Option<map<string, string>>) { o.Some? && o.value != map[] }

  predicate IsTerminal(s: Status) {
    s == Succeeded || s == Failed || s == Timeout || s == Expired || s == Indeterminate
  }

  /** GenerationJobRecord.validate_status_contract. */
  predicate Contract(j: Job) {
    && (j.status == Polling ==> Text(j.providerJobId) && j.nextPollAt.Some?)
    && (j.status == Starting ==> Text(j.leaseOwner) && j.leaseExpiresAt.Some?)
    && (IsTerminal(j.status) ==> j.leaseOwner.None? && j.leaseExpiresAt.None?)
    && (j.status == Succeeded ==> Entries(j.result))
    && (j.status in {Failed, Timeout, Expired, Indeterminate} ==> Text(j.failure))
  }

  predicate IsSpace(c: char) { c == ' ' || c == '\t' || c == '\n' || c == '\r' }

  /** str.strip() leaves nothing. */
  predicate IsBlank(s: string) { forall i :: 0 <= i < |s| ==> IsSpace(s[i]) }

  predicate ClaimInputs(worker: string, duration: int, limit: int) {
    !IsBlank(worker) && duration > 0 && 1 <= limit <= 6
  }

  predicate LeaseOwned(j: Job, worker: string, now: Time) {
    j.leaseOwner == Some(worker) && j.leaseExpiresAt.Some? && j.leaseExpiresAt.value > now
  }

  predicate StartEligible(j: Job, now: Time) {
    j.status == Queued || (j.status == Starting && j.leaseExpiresAt.Some? && j.leaseExpiresAt.value <= now)
  }

  predicate PollEligible(j: Job, now: Time) {
    && j.status == Polling
    && j.nextPollAt.Some? && j.nextPollAt.value <= now
    && (j.leaseExpiresAt.None? || j.leaseExpiresAt.value <= now)
  }

  const MISSING_MAPPED_RESULT_REASONS: set<string> := {
    "provider_result_missing",
    "provider_poll_image_result_url_missing",
    "provider_start_image_result_url_missing",
    "provider_poll_video_result_url_missing",
    "provider_start_video_result_url_missing",
    "provider_poll_provider_status_authorization_unavailable"
  }

  predicate IsMissingMappedResult(j: Job) {
    && j.status == Indeterminate
    && j.failure.Some? && j.failure.value in MISSING_MAPPED_RESULT_REASONS
    && Text(j.providerJobId)
  }

  datatype Slot = Slot(workspace: nat, item: nat)

  function SlotOf(j: Job): Slot { Slot(j.identity.workspace, j.identity.item) }

  predicate SlotSucceeded(jobs: Jobs, slot: Slot) {
    exists id :: id in jobs && jobs[id].status == Succeeded && SlotOf(jobs[id]) == slot
  }

  predicate Reopenable(jobs: Jobs, id: JobId) {
    id in jobs && IsMissingMappedResult(jobs[id]) && !SlotSucceeded(jobs, SlotOf(jobs[id]))
  }

  // Field updates of one record

  function StartClaimed(j: Job, worker: string, now: Time, duration: int): Job {
    j.(status := Starting, leaseOwner := Some(worker), leaseExpiresAt := Some(now + duration), updatedAt := now)
  }

  function PollClaimed(j: Job, worker: string, now: Time, duration: int): Job {
    j.(leaseOwner := Some(worker), leaseExpiresAt := Some(now + duration), updatedAt := now)
  }

  function Bound(j: Job, providerJobId: string, now: Time, nextPollAt: Time): Job {
    j.(status := Polling, providerJobId := Some(providerJobId), nextPollAt := Some(nextPollAt),
       leaseOwner := None, leaseExpiresAt := None, updatedAt := now)
  }

  function Rescheduled(j: Job, now: Time, nextPollAt: Time): Job {
    j.(nextPollAt := Some(nextPollAt), leaseOwner := None, leaseExpiresAt := None, updatedAt := now)
  }

  function Reopened(j: Job, now: Time): Job {
    j.(status := Polling, failure := None, result := None, leaseOwner := None, leaseExpiresAt := None,
       nextPollAt := Some(now), updatedAt := now)
  }

  function Completed(j: Job, status: Status, now: Time, result: Option<map<string, string>>, failure: Option<string>): Job {
    j.(status := status, result := result, failure := failure, nextPollAt := None,
       leaseOwner := None, leaseExpiresAt := None, updatedAt := now)
  }

  datatype Call =
    | Create(candidate: Job)
    | ClaimStart(worker: string, now: Time, duration: int, ids: set<JobId>)
    | Bind(id: JobId, providerJobId: string, worker: string, now: Time, nextPollAt: Time)
    | ClaimPoll(worker: string, now: Time, duration: int, ids: set<JobId>)
    | Reschedule(id: JobId, worker: string, now: Time, nextPollAt: Time)
    | Reopen(now: Time, ids: set<JobId>)
    | Complete(id: JobId, worker: string, status: Status, now: Time,
               result: Option<map<string, string>>, failure: Option<string>)

  /** The job that already carries the candidate's idempotency key. */
  predicate KeyTaken(jobs: Jobs, key: string) {
    exists id :: id in jobs && jobs[id].idempotencyKey == key
  }

  /** Whether the call commits; a refused call changes nothing. Claims and reopening always commit, on the jobs they
      select (`ids`). */
  predicate Accepted(jobs: Jobs, c: Call) {
    match c
    case Create(candidate) => !KeyTaken(jobs, candidate.idempotencyKey)
    case ClaimStart(_, _, _, _) => true
    case ClaimPoll(_, _, _, _) => true
    case Reopen(_, _) => true
    case Bind(id, _, worker, now, _) => id in jobs && LeaseOwned(jobs[id], worker, now) && jobs[id].status == Starting
    case Reschedule(id, worker, now, _) => id in jobs && LeaseOwned(jobs[id], worker, now) && jobs[id].status == Polling
    case Complete(id, worker, _, now, _, _) => id in jobs && LeaseOwned(jobs[id], worker, now)
  }

  /** The stored jobs after the call. */
  function Next(jobs: Jobs, c: Call): Jobs {
    if !Accepted(jobs, c) then jobs
    else
      match c
      case Create(candidate) => jobs[candidate.id := candidate]
      case ClaimStart(worker, now, duration, ids) =>
        map id | id in jobs :: if id in ids then StartClaimed(jobs[id], worker, now, duration) else jobs[id]
      case ClaimPoll(worker, now, duration, ids) =>
        map id | id in jobs :: if id in ids then PollClaimed(jobs[id], worker, now, duration) else jobs[id]
      case Reopen(now, ids) =>
        map id | id in jobs :: if id in ids then Reopened(jobs[id], now) else jobs[id]
      case Bind(id, providerJobId, _, now, nextPollAt) => jobs[id := Bound(jobs[id], providerJobId, now, nextPollAt)]
      case Reschedule(id, _, now, nextPollAt) => jobs[id := Rescheduled(jobs[id], now, nextPollAt)]
      case Complete(id, _, status, now, result, failure) =>
        jobs[id := Completed(jobs[id], status, now, result, failure)]
  }

  function Run(jobs: Jobs, calls: seq<Call>): Jobs
    decreases |calls|
  {
    if calls == [] then jobs else Run(Next(jobs, calls[0]), calls[1..])
  }
}
