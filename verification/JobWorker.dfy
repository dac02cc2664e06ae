/**
 * One worker process: the single-flight guard around claim, handler and
 * report. `runOnce` is cut at its awaits into three methods.
 */
module JobWorker {
  import opened Common
  import opened Jobs

  /** What running the handler came to. */
  datatype HandlerResult =
    | NotRegistered
    | Returned(result: string)
    | Threw(code: string, retryable: bool, retryDelaySeconds: Option<int>)
    | ThrewOther

  function Pow2(n: nat): (p: nat)
    ensures p >= 1
  {
    if n == 0 then 1 else 2 * Pow2(n - 1)
  }

  /** Exponential back-off, capped at an hour. */
  function BaseDelay(attempt: nat): nat {
    var doubled := 15 * Pow2(if attempt > 1 then attempt - 1 else 0);
    if doubled < 3600 then doubled else 3600
  }

  /** `random` is the draw from [0, 1) that spreads the retries by up to a quarter. */
  function RetryDelaySeconds(attempt: nat, random: real): (delay: int)
    requires 0.0 <= random < 1.0
    ensures 15 <= BaseDelay(attempt) <= delay < BaseDelay(attempt) + (BaseDelay(attempt) + 3) / 4 <= 4500
  {
    var base := BaseDelay(attempt);
    var spread := (base + 3) / 4;
    ScaledBelow(random, spread);
    base + (random * spread as real).Floor
  }

  lemma ScaledBelow(random: real, spread: nat)
    requires 0.0 <= random < 1.0 && spread >= 1
    ensures 0 <= (random * spread as real).Floor < spread
  {
    var scaled := random * spread as real;
    assert scaled < 1.0 * spread as real;
    assert scaled.Floor as real <= scaled;
  }

  /** Later attempts never wait for less, and the cap is reached at the ninth. */
  lemma {:induction false} BackOffGrows(a: nat, b: nat)
    requires a <= b
    ensures BaseDelay(a) <= BaseDelay(b)
    ensures 9 <= b ==> BaseDelay(b) == 3600
    decreases b
  {
    if 1 < b {
      if a < b {
        BackOffGrows(a, b - 1);
      }
      Pow2Grows(8, if b >= 9 then b - 1 else 8);
      assert Pow2(8) == 256;
    }
  }

  lemma {:induction false} Pow2Grows(a: nat, b: nat)
    requires a <= b
    ensures Pow2(a) <= Pow2(b)
    decreases b
  {
    if a < b {
      Pow2Grows(a, b - 1);
    }
  }

  function OutcomeOf(result: HandlerResult, attempt: nat, random: real): Outcome
    requires 0.0 <= random < 1.0
  {
    match result
    case NotRegistered => Permanent("handler_not_registered")
    case Returned(value) => Success(value)
    case Threw(code, false, _) => Permanent(code)
    case Threw(code, true, delay) => Retryable(code, OrElse(delay, RetryDelaySeconds(attempt, random)))
    case ThrewOther => Retryable("handler_failed", RetryDelaySeconds(attempt, random))
  }

  class BackgroundJobWorker {
    const jobs: BackgroundJobService
    const claimer: Claimer
    var running: bool
    /** The job the pending `runOnce` holds between its claim and its report. */
    var held: Option<ClaimedJob>

    ghost predicate Valid()
      reads this
    {
      held.Some? ==> running
    }

    constructor (jobs: BackgroundJobService, worker: WorkerId, handlerTypes: seq<string>, handlerVersion: int,
                 queueGeneration: int, leaseSeconds: int)
      ensures Valid() && !running && this.jobs == jobs
      ensures claimer.worker == worker && claimer.handlerTypes == handlerTypes && claimer.queueGeneration == queueGeneration
      ensures claimer.leaseSeconds >= 5 && claimer.handlerVersion >= 1
    {
      this.jobs := jobs;
      claimer := Claimer(worker, if handlerVersion > 1 then handlerVersion else 1, handlerTypes,
                         if leaseSeconds > 5 then leaseSeconds else 5, queueGeneration);
      running, held := false, None;
    }

    /** Up to the claim's first statement: a second `runOnce` is turned away while one is pending. */
    method Begin(now: Time) returns (started: bool)
      requires Valid()
      modifies this`running, jobs
      ensures Valid()
      ensures started == (!old(running) && claimer.handlerTypes != [])
      ensures started ==> running && held == None && jobs.rows == Terminalised(old(jobs.rows), now)
      ensures !started ==> running == old(running) && jobs.rows == old(jobs.rows)
    {
      if running || |claimer.handlerTypes| == 0 {
        return false;
      }
      running := true;
      jobs.Terminalise(now);
      return true;
    }

    /** The claim's second statement; without a job the guard opens again. */
    method TakeNext(now: Time, lockedElsewhere: set<JobId>) returns (taken: bool)
      requires Valid() && running && held == None
      modifies this, jobs
      ensures Valid() && taken == held.Some? == running
      ensures var choice := if taken then Some(held.value.id) else None;
              && IsChoice(old(jobs.rows), claimer, now, lockedElsewhere, choice)
              && jobs.rows == LeasedRows(old(jobs.rows), claimer, now, choice)
      ensures taken ==> held.value.attempt == jobs.rows[held.value.id].attempt
    {
      held := jobs.LeaseNext(claimer, now, lockedElsewhere);
      taken := held.Some?;
      running := taken;
    }

    /** The report, and the `finally` that opens the guard. */
    method Finish(result: HandlerResult, random: real, now: Time) returns (changed: bool)
      requires Valid() && held.Some? && 0.0 <= random < 1.0
      modifies this, jobs
      ensures Valid() && !running && held == None
      ensures changed == Accepts(old(jobs.rows), old(held).value.id, claimer.worker)
      ensures jobs.rows == Reported(old(jobs.rows), old(held).value.id, claimer.worker,
                                    OutcomeOf(result, old(held).value.attempt, random), now)
    {
      var job := held.value;
      if result.NotRegistered? {
        changed := jobs.DeadLetterJob(job.id, claimer.worker, "handler_not_registered", now);
      } else if result.Returned? {
        changed := jobs.Succeed(job.id, claimer.worker, result.result, now);
      } else {
        var failure := if result.Threw? then result else Threw("handler_failed", true, None);
        if !failure.retryable {
          changed := jobs.DeadLetterJob(job.id, claimer.worker, failure.code, now);
        } else {
          var delay := OrElse(failure.retryDelaySeconds, RetryDelaySeconds(job.attempt, random));
          changed := jobs.Fail(job.id, claimer.worker, failure.code, delay, now);
        }
      }
      held, running := None, false;
    }
  }
}
