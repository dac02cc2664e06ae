/**
 * The leased job queue: one row per job, and what each database statement of
 * the queue service does to the rows. One statement is one atomic step.
 */
module Jobs {
  import opened Common

  type JobId = nat
  type WorkerId = nat
  /** Seconds on the database clock. */
  type Time = int

  datatype Status = Pending | Running | Succeeded | DeadLetter | Cancelled

  datatype Job = Job(
    jobType: string,
    idempotencyKey: string,
    requestHash: string,
    payload: string,
    payloadVersion: int,
    queueGeneration: int,
    minHandlerVersion: int,
    maxAttempts: int,
    createdAt: Time,
    status: Status,
    attempt: nat,
    scheduledAt: Time,
    lockedAt: Option<Time>,
    lockedBy: Option<WorkerId>,
    leaseExpiresAt: Option<Time>,
    startedAt: Option<Time>,
    finishedAt: Option<Time>,
    errorCode: Option<string>,
    result: Option<string>)

  datatype ClaimedJob = ClaimedJob(id: JobId, jobType: string, payload: string, payloadVersion: int,
                                   requestHash: string, attempt: nat, maxAttempts: int)

  datatype EnqueueInput = EnqueueInput(
    jobType: string, payload: string, payloadVersion: int, requestHash: string, idempotencyKey: string,
    maxAttempts: Option<int>, scheduledAt: Option<Time>, queueGeneration: Option<int>, minHandlerVersion: Option<int>)

  datatype EnqueueError = InvalidContract | IdempotencyConflict

  datatype Enqueued = Enqueued(id: JobId, created: bool)

  /** What a claimer declares: who it is and which work it understands. */
  datatype Claimer = Claimer(worker: WorkerId, handlerVersion: int, handlerTypes: seq<string>, leaseSeconds: int, queueGeneration: int)

  type Rows = map<JobId, Job>

  const MAX_SAFE_INTEGER: int := 0x1F_FFFF_FFFF_FFFF

  predicate PositiveInteger(value: int) {
    0 < value <= MAX_SAFE_INTEGER
  }

  function OrElse<T>(value: Option<T>, default: T): T {
    if value.Some? then value.value else default
  }

  /** A status nothing in the queue service leaves again. */
  predicate Terminal(job: Job) {
    job.status in {Succeeded, DeadLetter, Cancelled}
  }

  predicate LeaseExpired(job: Job, now: Time) {
    job.leaseExpiresAt.Some? && job.leaseExpiresAt.value < now
  }

  // ---------------------------------------------------------------- enqueue

  predicate SameKey(job: Job, input: EnqueueInput) {
    job.jobType == input.jobType && job.idempotencyKey == input.idempotencyKey
  }

  predicate ValidContract(input: EnqueueInput) {
    && PositiveInteger(OrElse(input.maxAttempts, 10))
    && PositiveInteger(OrElse(input.queueGeneration, 1))
    && PositiveInteger(OrElse(input.minHandlerVersion, 1))
    && PositiveInteger(input.payloadVersion)
  }

  function NewJob(input: EnqueueInput, now: Time): Job {
    Job(input.jobType, input.idempotencyKey, input.requestHash, input.payload, input.payloadVersion,
        OrElse(input.queueGeneration, 1), OrElse(input.minHandlerVersion, 1), OrElse(input.maxAttempts, 10),
        now, Pending, 0, OrElse(input.scheduledAt, now), None, None, None, None, None, None, None)
  }

  /** Only a new key adds a row. */
  function EnqueueRows(rows: Rows, input: EnqueueInput, newId: JobId, now: Time): Rows {
    if ValidContract(input) && !(exists id :: id in rows && SameKey(rows[id], input))
    then rows[newId := NewJob(input, now)]
    else rows
  }

  // ------------------------------------------------------------------ claim

  /** The retry budget is used up and nobody holds a live lease. */
  predicate Spent(job: Job, now: Time) {
    && job.attempt >= job.maxAttempts
    && ((job.status == Running && LeaseExpired(job, now)) || job.status == Pending)
  }

  function Bury(job: Job, errorCode: string, now: Time): Job {
    job.(status := DeadLetter, errorCode := Some(errorCode), finishedAt := Some(now),
         lockedAt := None, lockedBy := None, leaseExpiresAt := None)
  }

  function Terminalised(rows: Rows, now: Time): Rows {
    map id | id in rows :: if Spent(rows[id], now) then Bury(rows[id], "lease_expired_max_attempts", now) else rows[id]
  }

  predicate Due(job: Job, now: Time) {
    || (job.status == Pending && job.scheduledAt <= now)
    || (job.status == Running && LeaseExpired(job, now))
  }

  predicate Eligible(job: Job, claimer: Claimer, now: Time) {
    && Due(job, now)
    && job.attempt < job.maxAttempts
    && job.minHandlerVersion <= claimer.handlerVersion
    && job.queueGeneration == claimer.queueGeneration
    && job.jobType in claimer.handlerTypes
  }

  /** The rows the candidate query may lock: eligible, and not locked by somebody else right now. */
  function Candidates(rows: Rows, claimer: Claimer, now: Time, lockedElsewhere: set<JobId>): set<JobId> {
    set id | id in rows && id !in lockedElsewhere && Eligible(rows[id], claimer, now)
  }

  /** `order by scheduled_at asc, created_at asc`; ties are the database's choice. */
  predicate NoLater(a: Job, b: Job) {
    a.scheduledAt < b.scheduledAt || (a.scheduledAt == b.scheduledAt && a.createdAt <= b.createdAt)
  }

  /** What the candidate query may return. */
  predicate IsChoice(rows: Rows, claimer: Claimer, now: Time, lockedElsewhere: set<JobId>, choice: Option<JobId>) {
    var candidates := Candidates(rows, claimer, now, lockedElsewhere);
    match choice
    case None => candidates == {}
    case Some(id) => id in candidates && forall other :: other in candidates ==> NoLater(rows[id], rows[other])
  }

  function Lease(job: Job, claimer: Claimer, now: Time): Job {
    job.(status := Running, lockedAt := Some(now), lockedBy := Some(claimer.worker),
         leaseExpiresAt := Some(now + claimer.leaseSeconds), attempt := job.attempt + 1,
         startedAt := if job.startedAt.Some? then job.startedAt else Some(now))
  }

  function LeasedRows(rows: Rows, claimer: Claimer, now: Time, choice: Option<JobId>): Rows
    requires choice.Some? ==> choice.value in rows
  {
    match choice
    case None => rows
    case Some(id) => rows[id := Lease(rows[id], claimer, now)]
  }

  /** Some candidate is least, so the query returns a row whenever there is one. */
  lemma {:induction false} LeastExists(rows: Rows, ids: set<JobId>) returns (least: JobId)
    requires ids != {} && ids <= rows.Keys
    ensures least in ids && forall other :: other in ids ==> NoLater(rows[least], rows[other])
    decreases |ids|
  {
    least :| least in ids;
    if ids != {least} {
      var rest := LeastExists(rows, ids - {least});
      if !NoLater(rows[least], rows[rest]) {
        least := rest;
      }
    }
  }

  // ---------------------------------------------------------------- reports

  datatype Outcome =
    | Success(result: string)
    | Retryable(errorCode: string, retryDelaySeconds: int)
    | Permanent(errorCode: string)

  /** The guard every report carries: still running, still locked by the reporter. */
  predicate Accepts(rows: Rows, id: JobId, worker: WorkerId) {
    id in rows && rows[id].status == Running && rows[id].lockedBy == Some(worker)
  }

  function Settle(job: Job, outcome: Outcome, now: Time): Job {
    match outcome
    case Success(result) =>
      job.(status := Succeeded, result := Some(result), finishedAt := Some(now), leaseExpiresAt := None)
    case Permanent(errorCode) => Bury(job, errorCode, now)
    case Retryable(errorCode, delay) =>
      var last := job.attempt >= job.maxAttempts;
      job.(status := if last then DeadLetter else Pending, errorCode := Some(errorCode),
           scheduledAt := now + (if delay > 1 then delay else 1),
           lockedAt := None, lockedBy := None, leaseExpiresAt := None,
           finishedAt := if last then Some(now) else None)
  }

  function Reported(rows: Rows, id: JobId, worker: WorkerId, outcome: Outcome, now: Time): Rows {
    if Accepts(rows, id, worker) then rows[id := Settle(rows[id], outcome, now)] else rows
  }

  // -------------------------------------------------------------- the service

  class BackgroundJobService {
    var rows: Rows

    constructor ()
      ensures rows == map[]
    {
      rows := map[];
    }

    method Enqueue(input: EnqueueInput, newId: JobId, now: Time) returns (r: Result<Enqueued, EnqueueError>)
      requires newId !in rows
      modifies this
      ensures rows == EnqueueRows(old(rows), input, newId, now)
      ensures r == Err(InvalidContract) <==> !ValidContract(input)
      ensures r.Ok? && r.value.created ==> r.value.id == newId && newId in rows
      ensures r.Ok? && !r.value.created ==>
                && r.value.id in old(rows) && SameKey(old(rows)[r.value.id], input)
                && old(rows)[r.value.id].requestHash == input.requestHash
      ensures r == Err(IdempotencyConflict) ==>
                exists id :: id in old(rows) && SameKey(old(rows)[id], input) && old(rows)[id].requestHash != input.requestHash
    {
      if !ValidContract(input) {
        return Err(InvalidContract);
      }
      if id :| id in rows && SameKey(rows[id], input) {
        if rows[id].requestHash != input.requestHash {
          return Err(IdempotencyConflict);
        }
        return Ok(Enqueued(id, false));
      }
      rows := rows[newId := NewJob(input, now)];
      return Ok(Enqueued(newId, true));
    }

    /** First statement of a claim. */
    method Terminalise(now: Time)
      modifies this
      ensures rows == Terminalised(old(rows), now)
    {
      rows := map id | id in rows ::
        if rows[id].attempt >= rows[id].maxAttempts && ((rows[id].status == Running && LeaseExpired(rows[id], now)) || rows[id].status == Pending)
        then rows[id].(status := DeadLetter, errorCode := Some("lease_expired_max_attempts"), finishedAt := Some(now),
                       lockedAt := None, lockedBy := None, leaseExpiresAt := None)
        else rows[id];
    }

    /** Second statement of a claim. */
    method LeaseNext(claimer: Claimer, now: Time, lockedElsewhere: set<JobId>) returns (r: Option<ClaimedJob>)
      modifies this
      ensures var choice := if r.Some? then Some(r.value.id) else None;
              && IsChoice(old(rows), claimer, now, lockedElsewhere, choice)
              && rows == LeasedRows(old(rows), claimer, now, choice)
      ensures r.Some? ==>
                var job := rows[r.value.id];
                r.value == ClaimedJob(r.value.id, job.jobType, job.payload, job.payloadVersion, job.requestHash, job.attempt, job.maxAttempts)
    {
      var candidates := Candidates(rows, claimer, now, lockedElsewhere);
      if candidates == {} {
        return None;
      }
      ghost var least := LeastExists(rows, candidates);
      var id :| id in candidates && forall other :: other in candidates ==> NoLater(rows[id], rows[other]);
      rows := rows[id := Lease(rows[id], claimer, now)];
      var job := rows[id];
      return Some(ClaimedJob(id, job.jobType, job.payload, job.payloadVersion, job.requestHash, job.attempt, job.maxAttempts));
    }

    /** A claim nobody interleaves with: both statements at one time. */
    method Claim(claimer: Claimer, now: Time) returns (r: Option<ClaimedJob>)
      modifies this
      ensures claimer.handlerTypes == [] ==> r == None && rows == old(rows)
      ensures claimer.handlerTypes != [] ==>
                var choice := if r.Some? then Some(r.value.id) else None;
                && IsChoice(Terminalised(old(rows), now), claimer, now, {}, choice)
                && rows == LeasedRows(Terminalised(old(rows), now), claimer, now, choice)
    {
      if |claimer.handlerTypes| == 0 {
        return None;
      }
      Terminalise(now);
      r := LeaseNext(claimer, now, {});
    }

    method Succeed(id: JobId, worker: WorkerId, result: string, now: Time) returns (changed: bool)
      modifies this
      ensures changed == Accepts(old(rows), id, worker)
      ensures rows == Reported(old(rows), id, worker, Success(result), now)
    {
      changed := id in rows && rows[id].status == Running && rows[id].lockedBy == Some(worker);
      if changed {
        rows := rows[id := rows[id].(status := Succeeded, result := Some(result), finishedAt := Some(now), leaseExpiresAt := None)];
      }
    }

    method Fail(id: JobId, worker: WorkerId, errorCode: string, retryDelaySeconds: int, now: Time) returns (changed: bool)
      modifies this
      ensures changed == Accepts(old(rows), id, worker)
      ensures rows == Reported(old(rows), id, worker, Retryable(errorCode, retryDelaySeconds), now)
    {
      changed := id in rows && rows[id].status == Running && rows[id].lockedBy == Some(worker);
      if changed {
        var last := rows[id].attempt >= rows[id].maxAttempts;
        rows := rows[id := rows[id].(
          status := if last then DeadLetter else Pending, errorCode := Some(errorCode),
          scheduledAt := now + (if retryDelaySeconds > 1 then retryDelaySeconds else 1),
          lockedAt := None, lockedBy := None, leaseExpiresAt := None,
          finishedAt := if last then Some(now) else None)];
      }
    }

    method DeadLetterJob(id: JobId, worker: WorkerId, errorCode: string, now: Time) returns (changed: bool)
      modifies this
      ensures changed == Accepts(old(rows), id, worker)
      ensures rows == Reported(old(rows), id, worker, Permanent(errorCode), now)
    {
      changed := id in rows && rows[id].status == Running && rows[id].lockedBy == Some(worker);
      if changed {
        rows := rows[id := Bury(rows[id], errorCode, now)];
      }
    }
  }
}
