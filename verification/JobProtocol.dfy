/**
 * Any number of single-flight workers over one job queue: claims, reports and
 * crashes interleave freely between statements. A step may find the clock at any
 * time whatever, so several clocks, skew and stalls are all covered.
 */
module JobProtocol {
  import opened Common
  import opened Jobs

  /** Where one worker process stands inside `runOnce`; only `Idle` passes the `#running` guard. */
  datatype Phase = Idle | Claiming | Holding(id: JobId, attempt: nat)

  datatype Entry =
    | HandedOut(id: JobId, attempt: nat, worker: WorkerId)
    | Settled(id: JobId, attempt: nat, outcome: Outcome)

  /** `log` and `moves` are history: the hand-outs and accepted reports, and how many job transitions happened. */
  datatype System = System(rows: Rows, phases: map<WorkerId, Phase>, now: Time, log: seq<Entry>, moves: nat)

  datatype Event =
    | Tick(to: Time)
    | Enqueue(input: EnqueueInput, newId: JobId)
    | Start(worker: WorkerId)
    | Take(claimer: Claimer, lockedElsewhere: set<JobId>, choice: Option<JobId>)
    | Report(worker: WorkerId, outcome: Outcome)
    | Crash(worker: WorkerId)

  function PhaseOf(s: System, worker: WorkerId): Phase {
    if worker in s.phases then s.phases[worker] else Idle
  }

  function SpentIds(rows: Rows, now: Time): set<JobId> {
    set id | id in rows && Spent(rows[id], now)
  }

  predicate Enabled(s: System, e: Event) {
    match e
    case Tick(_) => true
    case Enqueue(_, newId) => newId !in s.rows
    case Start(worker) => PhaseOf(s, worker) == Idle
    case Take(claimer, lockedElsewhere, choice) =>
      PhaseOf(s, claimer.worker) == Claiming && IsChoice(s.rows, claimer, s.now, lockedElsewhere, choice)
    case Report(worker, _) => PhaseOf(s, worker).Holding?
    case Crash(_) => true
  }

  function Apply(s: System, e: Event): System
    requires Enabled(s, e)
  {
    match e
    case Tick(to) => s.(now := to)
    case Enqueue(input, newId) => s.(rows := EnqueueRows(s.rows, input, newId, s.now))
    case Start(worker) =>
      s.(rows := Terminalised(s.rows, s.now), phases := s.phases[worker := Claiming],
         moves := s.moves + |SpentIds(s.rows, s.now)|)
    case Take(claimer, _, None) => s.(phases := s.phases[claimer.worker := Idle])
    case Take(claimer, _, Some(id)) =>
      var leased := Lease(s.rows[id], claimer, s.now);
      s.(rows := s.rows[id := leased], phases := s.phases[claimer.worker := Holding(id, leased.attempt)],
         log := s.log + [HandedOut(id, leased.attempt, claimer.worker)], moves := s.moves + 1)
    case Report(worker, outcome) =>
      var held := PhaseOf(s, worker);
      var idle := s.(phases := s.phases[worker := Idle]);
      if Accepts(s.rows, held.id, worker)
      then idle.(rows := Reported(s.rows, held.id, worker, outcome, s.now),
                 log := s.log + [Settled(held.id, held.attempt, outcome)], moves := s.moves + 1)
      else idle
    case Crash(worker) => s.(phases := s.phases[worker := Idle])
  }

  predicate Initial(s: System) {
    s.rows == map[] && s.phases == map[] && s.log == [] && s.moves == 0
  }

  /** A run: `states[i + 1]` is what `events[i]` makes of `states[i]`. */
  ghost predicate IsRun(states: seq<System>, events: seq<Event>) {
    && |states| == |events| + 1
    && forall i :: 0 <= i < |events| ==> Enabled(states[i], events[i]) && states[i + 1] == Apply(states[i], events[i])
  }

  // ------------------------------------------------------------- invariants

  /** The budget is never overdrawn, and a pending job always has attempts left. */
  predicate RowOk(job: Job) {
    && 1 <= job.maxAttempts && job.attempt <= job.maxAttempts
    && (job.status == Pending ==> job.attempt < job.maxAttempts)
    && (job.status == Running ==> 1 <= job.attempt && job.lockedBy.Some? && job.leaseExpiresAt.Some?)
  }

  predicate SameWorkKey(a: Job, b: Job) {
    a.jobType == b.jobType && a.idempotencyKey == b.idempotencyKey
  }

  /** Rows are sound, and (type, idempotency key) names at most one of them. */
  ghost predicate RowsOk(s: System) {
    && (forall id :: id in s.rows ==> RowOk(s.rows[id]))
    && forall a, b :: a in s.rows && b in s.rows && SameWorkKey(s.rows[a], s.rows[b]) ==> a == b
  }

  /** A worker that holds (id, attempt) is locked into the row exactly while that attempt runs. */
  ghost predicate Fenced(s: System) {
    forall w :: PhaseOf(s, w).Holding? ==> FencedWorker(s, w)
  }

  predicate FencedWorker(s: System, w: WorkerId)
    requires PhaseOf(s, w).Holding?
  {
    var held := PhaseOf(s, w);
    && held.id in s.rows
    && 1 <= held.attempt <= s.rows[held.id].attempt
    && (s.rows[held.id].status == Running ==>
          (s.rows[held.id].attempt == held.attempt <==> s.rows[held.id].lockedBy == Some(w)))
  }

  function HandOuts(log: seq<Entry>, id: JobId): nat {
    if log == [] then 0
    else
      var last := log[|log| - 1];
      HandOuts(log[..|log| - 1], id) + (if last.HandedOut? && last.id == id then 1 else 0)
  }

  /** The entry is consistent with the row it speaks of. */
  predicate EntryOk(rows: Rows, entry: Entry) {
    && entry.id in rows
    && 1 <= entry.attempt <= rows[entry.id].attempt
    && (entry.Settled? ==>
          && (entry.attempt == rows[entry.id].attempt ==> rows[entry.id].status != Running)
          && (entry.outcome.Success? ==> rows[entry.id].status == Succeeded))
  }

  /** Same kind of entry for the same attempt of the same job. */
  predicate Clash(a: Entry, b: Entry) {
    a.HandedOut? == b.HandedOut? && a.id == b.id && a.attempt == b.attempt
  }

  ghost predicate LogOk(s: System) {
    && (forall id :: HandOuts(s.log, id) == if id in s.rows then s.rows[id].attempt else 0)
    && (forall i :: 0 <= i < |s.log| ==> EntryOk(s.rows, s.log[i]))
    && forall i, j :: 0 <= i < j < |s.log| ==> !Clash(s.log[i], s.log[j])
  }

  ghost predicate Inv(s: System) {
    RowsOk(s) && Fenced(s) && LogOk(s)
  }

  lemma RowOkStep(s: System, e: Event, id: JobId)
    requires RowsOk(s) && Enabled(s, e) && id in Apply(s, e).rows
    ensures RowOk(Apply(s, e).rows[id])
    ensures id in s.rows ==> SameWorkKey(s.rows[id], Apply(s, e).rows[id])
    ensures id !in s.rows ==> e.Enqueue? && id == e.newId && SameKey(Apply(s, e).rows[id], e.input)
                              && forall other :: other in s.rows ==> !SameKey(s.rows[other], e.input)
  {
  }

  lemma RowsOkStep(s: System, e: Event)
    requires RowsOk(s) && Enabled(s, e)
    ensures RowsOk(Apply(s, e))
  {
    forall id | id in Apply(s, e).rows {
      RowOkStep(s, e, id);
    }
  }

  lemma FencedStep(s: System, e: Event)
    requires Inv(s) && Enabled(s, e)
    ensures Fenced(Apply(s, e))
  {
    var t := Apply(s, e);
    forall w | PhaseOf(t, w).Holding?
      ensures FencedWorker(t, w)
    {
      if e.Take? && e.choice.Some? && w == e.claimer.worker {
      } else {
        assert PhaseOf(s, w) == PhaseOf(t, w);
      }
    }
  }

  lemma HandOutsStep(s: System, e: Event, id: JobId)
    requires Inv(s) && Enabled(s, e)
    ensures var t := Apply(s, e); HandOuts(t.log, id) == if id in t.rows then t.rows[id].attempt else 0
  {
    var t := Apply(s, e);
    assert HandOuts(s.log, id) == if id in s.rows then s.rows[id].attempt else 0;
    if t.log != s.log {
      assert t.log[..|t.log| - 1] == s.log;
    }
  }

  /** Old entries stay consistent, whatever happens to the rows. */
  lemma EntryStep(s: System, e: Event, entry: Entry)
    requires RowsOk(s) && Enabled(s, e) && EntryOk(s.rows, entry)
    ensures EntryOk(Apply(s, e).rows, entry)
  {
  }

  /** The entry a step appends is consistent and new. */
  lemma NewEntryStep(s: System, e: Event)
    requires Inv(s) && Enabled(s, e)
    ensures var t := Apply(s, e);
            t.log == s.log || (|t.log| == |s.log| + 1 && t.log[..|s.log|] == s.log && EntryOk(t.rows, t.log[|s.log|])
                               && forall i :: 0 <= i < |s.log| ==> !Clash(s.log[i], t.log[|s.log|]))
  {
    var t := Apply(s, e);
    if e.Report? {
      assert FencedWorker(s, e.worker);
    }
    forall i | 0 <= i < |s.log|
      ensures EntryOk(s.rows, s.log[i])
    {
    }
  }

  lemma LogOkStep(s: System, e: Event)
    requires Inv(s) && Enabled(s, e)
    ensures LogOk(Apply(s, e))
  {
    var t := Apply(s, e);
    forall id
      ensures HandOuts(t.log, id) == if id in t.rows then t.rows[id].attempt else 0
    {
      HandOutsStep(s, e, id);
    }
    NewEntryStep(s, e);
    forall i | 0 <= i < |s.log|
      ensures t.log[i] == s.log[i] && EntryOk(t.rows, s.log[i])
    {
      EntryStep(s, e, s.log[i]);
    }
  }

  /** The invariant holds in every state of every run. */
  lemma {:induction false} RunInv(states: seq<System>, events: seq<Event>, i: nat)
    requires IsRun(states, events) && Initial(states[0]) && i < |states|
    ensures Inv(states[i])
  {
    if i > 0 {
      RunInv(states, events, i - 1);
      assert Enabled(states[i - 1], events[i - 1]);
      RowsOkStep(states[i - 1], events[i - 1]);
      FencedStep(states[i - 1], events[i - 1]);
      LogOkStep(states[i - 1], events[i - 1]);
    }
  }

  // ----------------------------------------------------------- main results

  /** The worker holds the latest attempt of a job that still runs. */
  predicate HoldsLatest(s: System, worker: WorkerId) {
    var held := PhaseOf(s, worker);
    && held.Holding? && held.id in s.rows
    && s.rows[held.id].status == Running && s.rows[held.id].attempt == held.attempt
  }

  /**
   * Fencing: in every state of every run a worker's report is accepted exactly
   * when it holds the job's latest attempt and that still runs; otherwise -
   * its lease was re-claimed, or the job was finished - the report changes no row.
   */
  lemma ReportsAreFenced(states: seq<System>, events: seq<Event>, i: nat, worker: WorkerId, outcome: Outcome)
    requires IsRun(states, events) && Initial(states[0]) && i < |states|
    requires PhaseOf(states[i], worker).Holding?
    ensures Accepts(states[i].rows, PhaseOf(states[i], worker).id, worker) <==> HoldsLatest(states[i], worker)
    ensures !HoldsLatest(states[i], worker) ==> Apply(states[i], Report(worker, outcome)).rows == states[i].rows
  {
    RunInv(states, events, i);
    assert FencedWorker(states[i], worker);
  }

  /** At any moment at most one worker can still change a given job. */
  lemma OneLatestHolder(states: seq<System>, events: seq<Event>, i: nat, a: WorkerId, b: WorkerId)
    requires IsRun(states, events) && Initial(states[0]) && i < |states|
    requires HoldsLatest(states[i], a) && HoldsLatest(states[i], b)
    requires PhaseOf(states[i], a).id == PhaseOf(states[i], b).id
    ensures a == b
  {
    RunInv(states, events, i);
    assert FencedWorker(states[i], a) && FencedWorker(states[i], b);
  }

  /** The budget bounds the hand-outs, and every attempt is handed out once and settled at most once. */
  lemma RetryBudget(states: seq<System>, events: seq<Event>, i: nat, id: JobId)
    requires IsRun(states, events) && Initial(states[0]) && i < |states|
    requires id in states[i].rows
    ensures var s := states[i];
            && HandOuts(s.log, id) == s.rows[id].attempt <= s.rows[id].maxAttempts
            && (s.rows[id].status == Pending ==> HandOuts(s.log, id) < s.rows[id].maxAttempts)
    ensures forall a, b :: 0 <= a < b < |states[i].log| ==> !Clash(states[i].log[a], states[i].log[b])
  {
    RunInv(states, events, i);
  }

  /** Success is reported at most once per job, and only for a job that then stays succeeded. */
  lemma SuccessIsFinal(states: seq<System>, events: seq<Event>, i: nat, k: nat)
    requires IsRun(states, events) && Initial(states[0]) && i < |states| && k < |states[i].log|
    requires states[i].log[k].Settled? && states[i].log[k].outcome.Success?
    ensures var id := states[i].log[k].id;
            id in states[i].rows && states[i].rows[id].status == Succeeded
    ensures !exists worker :: Accepts(states[i].rows, states[i].log[k].id, worker)
  {
    RunInv(states, events, i);
    assert EntryOk(states[i].rows, states[i].log[k]);
  }

  /** Columns no statement after the insert writes. */
  predicate SameWork(a: Job, b: Job) {
    b == a.(status := b.status, attempt := b.attempt, scheduledAt := b.scheduledAt, lockedAt := b.lockedAt,
            lockedBy := b.lockedBy, leaseExpiresAt := b.leaseExpiresAt, startedAt := b.startedAt,
            finishedAt := b.finishedAt, errorCode := b.errorCode, result := b.result)
  }

  lemma {:induction false} AttemptsOnlyGrow(states: seq<System>, events: seq<Event>, i: nat, j: nat, id: JobId)
    requires IsRun(states, events) && i <= j < |states| && id in states[i].rows
    ensures id in states[j].rows && SameWork(states[i].rows[id], states[j].rows[id])
    ensures states[i].rows[id].attempt <= states[j].rows[id].attempt
    ensures Terminal(states[i].rows[id]) ==> states[j].rows[id] == states[i].rows[id]
  {
    if i < j {
      AttemptsOnlyGrow(states, events, i, j - 1, id);
      assert Enabled(states[j - 1], events[j - 1]);
    }
  }

  /**
   * No job is ever lost: once enqueued its row keeps its work for the rest of
   * the run, a terminal row is frozen, and an unfinished one is due from some
   * time on - to be claimed again, or to be dead-lettered once its budget is spent.
   */
  lemma NoJobIsLost(states: seq<System>, events: seq<Event>, i: nat, j: nat, id: JobId) returns (dueFrom: Time)
    requires IsRun(states, events) && Initial(states[0]) && i <= j < |states|
    requires id in states[i].rows
    ensures id in states[j].rows && SameWork(states[i].rows[id], states[j].rows[id])
    ensures Terminal(states[i].rows[id]) ==> states[j].rows[id] == states[i].rows[id]
    ensures !Terminal(states[j].rows[id]) ==> forall now, claimer: Claimer ::
              && now >= dueFrom
              && claimer.handlerVersion >= states[j].rows[id].minHandlerVersion
              && claimer.queueGeneration == states[j].rows[id].queueGeneration
              && states[j].rows[id].jobType in claimer.handlerTypes
              ==> Eligible(states[j].rows[id], claimer, now) != Spent(states[j].rows[id], now)
  {
    RunInv(states, events, j);
    AttemptsOnlyGrow(states, events, i, j, id);
    var job := states[j].rows[id];
    dueFrom := if job.status == Running then job.leaseExpiresAt.value + 1 else job.scheduledAt;
  }

  // ------------------------------------------------------------- termination

  /** How many more transitions a job can make. */
  function Weight(job: Job): nat {
    if Terminal(job) || job.attempt > job.maxAttempts then 0
    else 2 * (job.maxAttempts - job.attempt) + (if job.status == Running then 1 else 0)
  }

  function Budget(job: Job): nat {
    if job.maxAttempts > 0 then 2 * job.maxAttempts else 0
  }

  lemma BuryWeighs(job: Job, now: Time)
    requires RowOk(job) && Spent(job, now)
    ensures Weight(Bury(job, "lease_expired_max_attempts", now)) < Weight(job)
  {
  }

  lemma LeaseWeighs(job: Job, claimer: Claimer, now: Time)
    requires RowOk(job) && Eligible(job, claimer, now)
    ensures Weight(Lease(job, claimer, now)) < Weight(job)
  {
  }

  lemma SettleWeighs(job: Job, outcome: Outcome, now: Time)
    requires RowOk(job) && job.status == Running
    ensures Weight(Settle(job, outcome, now)) < Weight(job)
  {
  }

  lemma OneRowConsumes(rows: Rows, id: JobId, after: Job)
    requires id in rows && Weight(after) < Weight(rows[id])
    ensures SumOver(rows[id := after], Weight) + 1 <= SumOver(rows, Weight)
  {
    SumUpdate(rows, Weight, id, after);
  }

  lemma TerminaliseConsumesWeight(rows: Rows, now: Time)
    requires forall id :: id in rows ==> RowOk(rows[id])
    ensures SumOver(Terminalised(rows, now), Weight) + |SpentIds(rows, now)| <= SumOver(rows, Weight)
    ensures Terminalised(rows, now) != rows ==> |SpentIds(rows, now)| > 0
  {
    var spent, after := SpentIds(rows, now), Terminalised(rows, now);
    forall id | id in rows
      ensures Weight(after[id]) + (if id in spent then 1 else 0) <= Weight(rows[id])
    {
      if id in spent {
        BuryWeighs(rows[id], now);
      }
    }
    SumShrinks(rows, after, Weight, spent);
    if spent == {} {
      forall id | id in rows
        ensures after[id] == rows[id]
      {
        assert id !in spent;
      }
    }
  }

  /** Claims, re-claims, failures, successes and dead-letterings all strictly decrease the weight of the whole queue. */
  lemma MovesConsumeWeight(s: System, e: Event)
    requires Inv(s) && Enabled(s, e) && !e.Enqueue?
    ensures var t := Apply(s, e);
            && SumOver(t.rows, Weight) + (t.moves - s.moves) <= SumOver(s.rows, Weight)
            && (t.rows != s.rows ==> t.moves > s.moves)
  {
    match e
    case Start(_) => TerminaliseConsumesWeight(s.rows, s.now);
    case Take(claimer, _, Some(id)) =>
      LeaseWeighs(s.rows[id], claimer, s.now);
      OneRowConsumes(s.rows, id, Lease(s.rows[id], claimer, s.now));
    case Report(worker, outcome) =>
      var id := PhaseOf(s, worker).id;
      if Accepts(s.rows, id, worker) {
        SettleWeighs(s.rows[id], outcome, s.now);
        OneRowConsumes(s.rows, id, Settle(s.rows[id], outcome, s.now));
      }
    case _ =>
  }

  lemma TerminaliseKeepsBudget(rows: Rows, now: Time)
    ensures SumOver(Terminalised(rows, now), Budget) == SumOver(rows, Budget)
  {
    SumShrinks(rows, Terminalised(rows, now), Budget, {});
    SumShrinks(Terminalised(rows, now), rows, Budget, {});
  }

  /** Only an enqueue adds weight, and it adds exactly the new job's budget. */
  lemma BudgetIsKept(s: System, e: Event)
    requires Inv(s) && Enabled(s, e)
    ensures !e.Enqueue? ==> SumOver(Apply(s, e).rows, Budget) == SumOver(s.rows, Budget)
    ensures e.Enqueue? ==> SumOver(Apply(s, e).rows, Weight) - SumOver(s.rows, Weight) ==
                           SumOver(Apply(s, e).rows, Budget) - SumOver(s.rows, Budget)
  {
    match e
    case Enqueue(input, newId) =>
      if Apply(s, e).rows != s.rows {
        SumUpdate(s.rows, Budget, newId, NewJob(input, s.now));
        SumUpdate(s.rows, Weight, newId, NewJob(input, s.now));
      }
    case Start(_) => TerminaliseKeepsBudget(s.rows, s.now);
    case Take(claimer, _, Some(id)) =>
      SumUpdate(s.rows, Budget, id, Lease(s.rows[id], claimer, s.now));
    case Report(worker, outcome) =>
      var id := PhaseOf(s, worker).id;
      if Accepts(s.rows, id, worker) {
        SumUpdate(s.rows, Budget, id, Settle(s.rows[id], outcome, s.now));
      }
    case _ =>
  }

  /** Retries terminate: over a whole run the queue makes at most two transitions per attempt ever budgeted. */
  lemma {:induction false} RetriesTerminate(states: seq<System>, events: seq<Event>, i: nat)
    requires IsRun(states, events) && Initial(states[0]) && i < |states|
    ensures states[i].moves + SumOver(states[i].rows, Weight) <= SumOver(states[i].rows, Budget)
  {
    if i > 0 {
      RetriesTerminate(states, events, i - 1);
      RunInv(states, events, i - 1);
      assert Enabled(states[i - 1], events[i - 1]);
      BudgetIsKept(states[i - 1], events[i - 1]);
      if !events[i - 1].Enqueue? {
        MovesConsumeWeight(states[i - 1], events[i - 1]);
      }
    }
  }

  // -------------------------------------------------------- claim refinement

  /**
   * A claim against its simple specification: exactly the spent, non-live,
   * non-terminal jobs are dead-lettered, a least eligible job is handed out
   * whenever there is one, and every other row keeps its value.
   */
  lemma ClaimSpecification(rows: Rows, claimer: Claimer, now: Time, choice: Option<JobId>)
    requires forall id :: id in rows ==> RowOk(rows[id])
    requires IsChoice(Terminalised(rows, now), claimer, now, {}, choice)
    ensures var after := LeasedRows(Terminalised(rows, now), claimer, now, choice);
            && after.Keys == rows.Keys
            && (forall id :: id in rows ==>
                  ((after[id].status == DeadLetter && rows[id].status != DeadLetter) <==>
                   (!Terminal(rows[id]) && rows[id].attempt == rows[id].maxAttempts && rows[id].leaseExpiresAt.Some? && rows[id].leaseExpiresAt.value < now)))
            && (choice.None? <==> forall id :: id in rows ==> !Eligible(rows[id], claimer, now))
            && (choice.Some? ==>
                  var id := choice.value;
                  && id in rows && Eligible(rows[id], claimer, now)
                  && (forall other :: other in rows && Eligible(rows[other], claimer, now) ==> rows[id].scheduledAt <= rows[other].scheduledAt)
                  && rows[id].minHandlerVersion <= claimer.handlerVersion && rows[id].queueGeneration == claimer.queueGeneration
                  && rows[id].jobType in claimer.handlerTypes
                  && after[id].status == Running && after[id].lockedBy == Some(claimer.worker) && after[id].attempt == rows[id].attempt + 1)
            && (forall id :: id in rows && choice != Some(id) && after[id] != rows[id] ==> after[id].status == DeadLetter)
            && (forall id :: id in rows && !Terminal(rows[id]) && after[id].status != DeadLetter ==> !Terminal(after[id]))
  {
    var buried := Terminalised(rows, now);
    forall id | id in rows
      ensures Eligible(buried[id], claimer, now) <==> Eligible(rows[id], claimer, now)
    {
    }
    assert forall id :: id in Candidates(buried, claimer, now, {}) <==> id in rows && Eligible(rows[id], claimer, now);
  }
}
