/** Every interleaving of the threads, timers and callbacks of the parse queue
    (app/parse_jobs.py), at the granularity of one lock region or one row access per step. */
module ParseInterleavings {
  import opened Wrappers
  import opened ParseJobs

  type TaskId = nat

  /** Where a run of a job stands. */
  datatype Position =
    | Started                       // event obtained, row not read yet
    | SawQueued                     // row read as queued
    | Marked                        // row set to parsing
    | InWorker
    | Returned
    | Retryable                     // RetryableRuntimeError
    | Counting                      // and the event was not set
    | Attempted(attempt: nat)
    | Rescheduling                  // row back to queued, timer not started yet
    | Broken(terminal: Status)      // any other exception
    | Finishing(status: Status, failed: bool)   // the event was read, the row not written yet
    | Closing(failed: bool)         // row final, cleanup still to come

  datatype CancelStep = SawActive(status: Status, consolidating: bool) | NotCritical(status: Status) | FlagSet

  /** A thread's remaining work for one job. */
  datatype Task =
    | Creating(job: JobId)
    | Resetting(job: JobId, event: EventId)
    | Submitting(job: JobId, event: EventId)
    | Waiting(job: JobId, event: EventId)
    | Running(job: JobId, event: EventId, at: Position)
    | TimerArmed(job: JobId, event: EventId)
    | Observing(job: JobId, event: EventId)
    | Reporting(job: JobId)
    | Canceling(job: JobId, step: CancelStep)
    | Retrying(job: JobId)

  /** `entered` counts the worker calls of each generation. */
  datatype State = State(shared: Shared, tasks: map<TaskId, Task>, entered: map<EventId, nat>)

  const BLANK := State(Shared(map[], map[], {}, {}, map[], 0), map[], map[])

  /** What starts a thread, or what a running worker does. */
  datatype Op =
    | Create(id: TaskId, job: JobId)
    | Cancel(id: TaskId, job: JobId)
    | Retry(id: TaskId, job: JobId)
    | Proceed(id: TaskId)
    | WorkerReturns(id: TaskId)
    | WorkerRetryable(id: TaskId)
    | WorkerFails(id: TaskId, terminal: Status)
    | WorkerCritical(id: TaskId)
    | WorkerCriticalEnds(id: TaskId)
    | WorkerStage(id: TaskId, consolidating: bool)

  function Entered(s: State, e: EventId): nat {
    if e in s.entered then s.entered[e] else 0
  }

  function Set(s: State, id: TaskId, t: Task): State {
    s.(tasks := s.tasks[id := t])
  }

  function End(s: State, id: TaskId): State {
    s.(tasks := s.tasks - {id})
  }

  predicate IsSet(s: State, e: EventId) {
    e in s.shared.flags
  }

  // ---- Steps --------------------------------------------------------------

  /** The next step of a run. `limit` is SAM_RUNTIME_RETRIES, at least 1. */
  function RunStep(s: State, id: TaskId, job: JobId, e: EventId, at: Position, limit: nat): State {
    var m := s.shared;
    match at
    case Started =>
      if job in m.rows && m.rows[job].status == Queued then Set(s, id, Running(job, e, SawQueued))
      else Set(s, id, Running(job, e, Closing(false)))
    case SawQueued => Set(s, id, Running(job, e, Marked)).(shared := SetStatus(m, job, Parsing))
    case Marked => Set(s, id, Running(job, e, InWorker)).(entered := s.entered[e := Entered(s, e) + 1])
    case InWorker => s
    case Returned => Set(s, id, Running(job, e, Finishing(if IsSet(s, e) then Canceled else Done, false)))
    case Retryable => Set(s, id, Running(job, e, if IsSet(s, e) then Finishing(Canceled, false) else Counting))
    case Counting => Set(s, id, Running(job, e, Attempted(Retries(m, job) + 1))).(shared := CountAttempt(m, job))
    case Attempted(attempt) =>
      if attempt > limit then Set(s, id, Running(job, e, Closing(true))).(shared := SetStatus(m, job, Failed))
      else Set(s, id, Running(job, e, Rescheduling)).(shared := SetStatus(m, job, Queued))
    case Rescheduling => Set(s, id, TimerArmed(job, e))
    case Broken(terminal) => Set(s, id, Running(job, e, Finishing(if IsSet(s, e) then Canceled else terminal, true)))
    case Finishing(status, failed) => Set(s, id, Running(job, e, Closing(failed))).(shared := SetStatus(m, job, status))
    case Closing(failed) =>
      (if failed then Set(s, id, Observing(job, e)) else End(s, id)).(shared := EndRun(m, job, e))
  }

  function CancelNext(s: State, id: TaskId, job: JobId, step: CancelStep): State {
    var m := s.shared;
    match step
    case SawActive(status, consolidating) =>
      if consolidating || job in m.critical then End(s, id) else Set(s, id, Canceling(job, NotCritical(status)))
    case NotCritical(status) =>
      (if status == Queued then Set(s, id, Canceling(job, FlagSet)) else End(s, id)).(shared := FlagEvent(m, job))
    case FlagSet => End(s, id).(shared := SetStatus(m, job, Canceled))
  }

  /** The next step of a task by itself. */
  function TaskStep(s: State, id: TaskId, limit: nat): State
    requires id in s.tasks
  {
    var m := s.shared;
    match s.tasks[id]
    case Creating(job) => Set(s, id, Submitting(job, m.next)).(shared := NewEvent(m, job))
    case Resetting(job, e) => Set(s, id, Submitting(job, e)).(shared := SetStatus(m, job, Queued))
    case Submitting(job, e) => Set(s, id, Waiting(job, if job in m.events then m.events[job] else e))
    case Waiting(job, _) =>
      var n := EnsureEvent(m, job);
      Set(s, id, Running(job, n.events[job], Started)).(shared := n)
    case Running(job, e, at) => RunStep(s, id, job, e, at, limit)
    case TimerArmed(job, e) =>
      (if TimerSubmits(m, job, e) then Set(s, id, Submitting(job, e)) else End(s, id)).(shared := TimerFired(m, job, e))
    case Observing(job, e) => if Reports(m, job, e) then Set(s, id, Reporting(job)) else End(s, id)
    case Reporting(job) => End(s, id).(shared := SetStatus(m, job, Failed))
    case Canceling(job, step) => CancelNext(s, id, job, step)
    case Retrying(job) =>
      (match ClaimRetry(m, job)
       case None => End(s, id)
       case Some(n) => Set(s, id, Resetting(job, m.next)).(shared := n))
  }

  predicate Working(s: State, id: TaskId) {
    id in s.tasks && s.tasks[id].Running? && s.tasks[id].at == InWorker
  }

  function Moved(s: State, id: TaskId, at: Position): State
    requires Working(s, id)
  {
    Set(s, id, s.tasks[id].(at := at))
  }

  function Next(s: State, op: Op, limit: nat): State {
    var m := s.shared;
    match op
    case Create(id, job) =>
      if id in s.tasks || job in m.rows then s
      else Set(s, id, Creating(job)).(shared := m.(rows := m.rows[job := Row(Queued, false)]))
    case Cancel(id, job) =>
      if id in s.tasks || job !in m.rows || m.rows[job].status !in {Queued, Parsing} then s
      else Set(s, id, Canceling(job, SawActive(m.rows[job].status, m.rows[job].consolidating)))
    case Retry(id, job) =>
      if id in s.tasks || job !in m.rows || m.rows[job].status !in {Failed, Canceled, NeedsHuman, Partial} then s
      else Set(s, id, Retrying(job))
    case Proceed(id) => if id in s.tasks then TaskStep(s, id, limit) else s
    case WorkerReturns(id) => if Working(s, id) then Moved(s, id, Returned) else s
    case WorkerRetryable(id) => if Working(s, id) then Moved(s, id, Retryable) else s
    case WorkerFails(id, terminal) =>
      if Working(s, id) && terminal in {Failed, NeedsHuman, Partial} then Moved(s, id, Broken(terminal)) else s
    case WorkerCritical(id) =>
      if !Working(s, id) then s
      else
        (match EnterCritical(m, s.tasks[id].job)
         case None => s.(shared := EnsureEvent(m, s.tasks[id].job))
         case Some(n) => s.(shared := n))
    case WorkerCriticalEnds(id) =>
      if Working(s, id) then s.(shared := m.(critical := m.critical - {s.tasks[id].job})) else s
    case WorkerStage(id, consolidating) =>
      if Working(s, id) && s.tasks[id].job in m.rows
      then s.(shared := m.(rows := m.rows[s.tasks[id].job := m.rows[s.tasks[id].job].(consolidating := consolidating)]))
      else s
  }

  function Run(s: State, ops: seq<Op>, limit: nat): State {
    if ops == [] then s else Next(Run(s, ops[..|ops|-1], limit), ops[|ops|-1], limit)
  }

  // ---- Invariant ----------------------------------------------------------

  /** A task that leads to a run of its job. */
  predicate Live(t: Task) {
    t.Creating? || t.Resetting? || t.Submitting? || t.Waiting? || t.Running? || t.TimerArmed?
  }

  /** Worker calls of the generation, given the runtime failures counted so far. */
  predicate Counted(t: Task, entered: nat, retries: nat, limit: nat) {
    match t
    case Running(_, _, at) =>
      (match at
       case InWorker => entered == retries + 1 && retries <= limit
       case Returned => entered == retries + 1 && retries <= limit
       case Retryable => entered == retries + 1 && retries <= limit
       case Counting => entered == retries + 1 && retries <= limit
       case Broken(_) => entered == retries + 1 && retries <= limit
       case Attempted(attempt) => entered == retries == attempt && attempt <= limit + 1
       case Finishing(_, _) => true
       case Closing(_) => true
       case _ => entered == retries <= limit)
    case _ => entered == retries <= limit
  }

  /** A live task owns the job's event: nobody else removes or replaces it. */
  ghost predicate TokenInv(s: State, t: Task, limit: nat)
    requires Live(t)
  {
    && t.job in s.shared.rows
    && (if t.Creating? then
          && t.job !in s.shared.retries
          && (s.shared.rows[t.job].status == Queued || t.job in s.shared.events)
        else
          && t.job in s.shared.events && s.shared.events[t.job] == t.event
          && Counted(t, Entered(s, t.event), Retries(s.shared, t.job), limit))
  }

  /** Tasks that lead to no run, beside a job that is still being created. */
  ghost predicate BesideInv(s: State, t: Task) {
    && t.job in s.shared.rows
    && (t.Retrying? || (t.Canceling? && t.step.FlagSet?) ==>
          t.job in s.shared.events || !exists x :: x in s.tasks && s.tasks[x] == Creating(t.job))
    && (t.Observing? || t.Reporting? ==> !exists x :: x in s.tasks && s.tasks[x] == Creating(t.job))
  }

  ghost predicate EventsInv(s: State, limit: nat) {
    && (forall j :: j in s.shared.events ==> s.shared.events[j] < s.shared.next)
    && (forall i, j :: i in s.shared.events && j in s.shared.events && s.shared.events[i] == s.shared.events[j] ==> i == j)
    && (forall e :: e in s.entered ==> e < s.shared.next && s.entered[e] <= limit + 1)
    && (forall j :: j in s.shared.retries ==> j in s.shared.rows)
  }

  ghost predicate OneToken(tasks: map<TaskId, Task>) {
    forall x, y :: x in tasks && y in tasks && Live(tasks[x]) && Live(tasks[y]) && tasks[x].job == tasks[y].job ==> x == y
  }

  ghost predicate QueueInv(s: State, limit: nat) {
    && OneToken(s.tasks) && EventsInv(s, limit)
    && forall x :: x in s.tasks ==> if Live(s.tasks[x]) then TokenInv(s, s.tasks[x], limit) else BesideInv(s, s.tasks[x])
  }

  lemma BlankInv(limit: nat)
    ensures QueueInv(BLANK, limit)
  {
  }

  // ---- One step of one task -----------------------------------------------

  /** Only this job's entries changed. */
  ghost predicate SameElsewhere(m: Shared, n: Shared, job: JobId) {
    && m.next <= n.next
    && (forall k :: k in m.rows ==> k in n.rows && (k != job ==> n.rows[k] == m.rows[k]))
    && (forall k :: k in n.rows && k != job ==> k in m.rows)
    && (forall k :: k != job ==> (k in n.events <==> k in m.events) && (k in m.events ==> n.events[k] == m.events[k]))
    && (forall k :: k != job ==> (k in n.retries <==> k in m.retries) && (k in m.retries ==> n.retries[k] == m.retries[k]))
  }

  /** Only this job's generation may have entered the worker. */
  ghost predicate EnteredElsewhere(s: State, u: State, job: JobId) {
    forall e :: Entered(u, e) == Entered(s, e) || (job in s.shared.events && e == s.shared.events[job])
  }

  /** A step that stays with one job and keeps the event table proper. */
  ghost predicate Local(s: State, u: State, job: JobId, limit: nat) {
    SameElsewhere(s.shared, u.shared, job) && EnteredElsewhere(s, u, job) && EventsInv(u, limit) && job in u.shared.rows
  }

  lemma LocalRow(s: State, u: State, job: JobId, limit: nat)
    requires EventsInv(s, limit) && job in s.shared.rows && u.entered == s.entered
    requires u.shared == s.shared.(rows := u.shared.rows, flags := u.shared.flags, critical := u.shared.critical)
    requires u.shared.rows == s.shared.rows || (job in u.shared.rows && u.shared.rows == s.shared.rows[job := u.shared.rows[job]])
    ensures Local(s, u, job, limit)
  {
  }

  lemma LocalEvent(s: State, u: State, job: JobId, limit: nat)
    requires EventsInv(s, limit) && job in s.shared.rows && u.entered == s.entered
    requires u.shared == NewEvent(s.shared, job) || u.shared == NewEvent(s.shared, job).(retries := s.shared.retries - {job})
    ensures Local(s, u, job, limit)
  {
  }

  lemma LocalFlag(s: State, u: State, job: JobId, limit: nat)
    requires EventsInv(s, limit) && job in s.shared.rows && u.entered == s.entered
             && u.shared == FlagEvent(s.shared, job)
    ensures Local(s, u, job, limit)
  {
    if job !in s.shared.events {
      LocalEvent(s, u.(shared := NewEvent(s.shared, job)), job, limit);
    }
  }

  lemma LocalTimer(s: State, u: State, job: JobId, e: EventId, limit: nat)
    requires EventsInv(s, limit) && job in s.shared.rows && u.entered == s.entered
             && u.shared == TimerFired(s.shared, job, e)
    ensures Local(s, u, job, limit)
  {
  }

  lemma LocalEnd(s: State, u: State, job: JobId, e: EventId, limit: nat)
    requires EventsInv(s, limit) && job in s.shared.rows && u.entered == s.entered
             && u.shared == EndRun(s.shared, job, e)
    ensures Local(s, u, job, limit)
  {
  }

  lemma LocalCount(s: State, u: State, job: JobId, limit: nat)
    requires EventsInv(s, limit) && job in s.shared.rows
    requires
      || (&& u.shared == s.shared && job in s.shared.events && Entered(s, s.shared.events[job]) <= limit
          && u.entered == s.entered[s.shared.events[job] := Entered(s, s.shared.events[job]) + 1])
      || (u.entered == s.entered && u.shared == CountAttempt(s.shared, job))
    ensures Local(s, u, job, limit)
  {
  }

  ghost predicate NoOtherToken(s: State, id: TaskId, job: JobId) {
    forall y :: y in s.tasks && Live(s.tasks[y]) && s.tasks[y].job == job ==> y == id
  }

  /** Tasks of other jobs do not notice. */
  lemma OthersKeep(s: State, u: State, t: Task, job: JobId, limit: nat)
    requires EventsInv(s, limit) && Local(s, u, job, limit)
    requires t.job != job && Live(t) && TokenInv(s, t, limit)
    ensures TokenInv(u, t, limit)
  {
    hide Counted;
  }

  lemma LocalMeans(s: State, u: State, job: JobId, limit: nat)
    requires Local(s, u, job, limit)
    ensures EventsInv(u, limit) && job in u.shared.rows
  {
  }

  lemma BesideElsewhere(s: State, u: State, id: TaskId, t: Task, job: JobId, limit: nat)
    requires Local(s, u, job, limit) && t.job != job && BesideInv(s, t)
    requires forall x :: x in u.tasks && x != id ==> x in s.tasks && u.tasks[x] == s.tasks[x]
    requires id in u.tasks ==> u.tasks[id].job == job
    ensures BesideInv(u, t)
  {
  }

  /** The only token of a job moves on, or turns into a task that leads to no run. */
  lemma TokenMoves(s: State, u: State, id: TaskId, t: Task, limit: nat)
    requires QueueInv(s, limit) && u.tasks == s.tasks[id := t] && !t.Creating?
    requires id in s.tasks ==> s.tasks[id].job == t.job
    requires NoOtherToken(s, id, t.job) && Local(s, u, t.job, limit) && (Live(t) ==> TokenInv(u, t, limit))
    ensures QueueInv(u, limit)
  {
    hide Local, EventsInv, TokenInv;
    LocalMeans(s, u, t.job, limit);
    forall x | x in u.tasks ensures if Live(u.tasks[x]) then TokenInv(u, u.tasks[x], limit) else BesideInv(u, u.tasks[x]) {
      if x != id && s.tasks[x].job != t.job {
        if Live(s.tasks[x]) {
          OthersKeep(s, u, s.tasks[x], t.job, limit);
        } else {
          BesideElsewhere(s, u, id, s.tasks[x], t.job, limit);
        }
      }
    }
  }

  /** The token of a job is gone. */
  lemma TokenEnds(s: State, u: State, id: TaskId, job: JobId, limit: nat)
    requires QueueInv(s, limit) && u.tasks == s.tasks - {id} && id in s.tasks && s.tasks[id].job == job
    requires NoOtherToken(s, id, job) && Local(s, u, job, limit)
    ensures QueueInv(u, limit)
  {
    hide Local, EventsInv, TokenInv;
    LocalMeans(s, u, job, limit);
    forall x | x in u.tasks ensures if Live(u.tasks[x]) then TokenInv(u, u.tasks[x], limit) else BesideInv(u, u.tasks[x]) {
      if s.tasks[x].job != job {
        if Live(s.tasks[x]) {
          OthersKeep(s, u, s.tasks[x], job, limit);
        } else {
          BesideElsewhere(s, u, id, s.tasks[x], job, limit);
        }
      }
    }
  }

  /** A step beside the token: it may find or create the event, set flags, or change the row. */
  ghost predicate Beside(s: State, u: State, job: JobId) {
    && u.entered == s.entered && u.shared.retries == s.shared.retries && job in u.shared.rows
    && (job in s.shared.events ==> job in u.shared.events && u.shared.events[job] == s.shared.events[job])
    && (u.shared.rows[job].status == Queued || job in u.shared.events
        || (job in s.shared.rows && u.shared.rows[job].status == s.shared.rows[job].status)
        || !exists x :: x in s.tasks && s.tasks[x] == Creating(job))
  }

  lemma BesideKeeps(s: State, u: State, id: TaskId, job: JobId, limit: nat)
    requires QueueInv(s, limit) && Beside(s, u, job) && Local(s, u, job, limit)
    requires forall x :: x in u.tasks && x != id ==> x in s.tasks && u.tasks[x] == s.tasks[x]
    requires forall x :: x in s.tasks && x != id ==> x in u.tasks
    requires id in s.tasks ==> s.tasks[id].job == job && (Live(s.tasks[id]) ==> id in u.tasks && u.tasks[id] == s.tasks[id])
    requires id in u.tasks && !Live(u.tasks[id]) ==> u.tasks[id].job == job && BesideInv(u, u.tasks[id])
    requires id in u.tasks && Live(u.tasks[id]) ==> id in s.tasks && u.tasks[id] == s.tasks[id]
    ensures QueueInv(u, limit)
  {
    hide Counted;
    forall x | x in u.tasks ensures if Live(u.tasks[x]) then TokenInv(u, u.tasks[x], limit) else BesideInv(u, u.tasks[x]) {
      if x in s.tasks && u.tasks[x] == s.tasks[x] {
        var t := s.tasks[x];
        if t.job != job {
          if Live(t) {
            OthersKeep(s, u, t, job, limit);
          } else {
            BesideElsewhere(s, u, id, t, job, limit);
          }
        }
      }
    }
  }

  lemma TokenOf(s: State, id: TaskId, limit: nat)
    requires QueueInv(s, limit) && id in s.tasks && Live(s.tasks[id])
    ensures TokenInv(s, s.tasks[id], limit) && NoOtherToken(s, id, s.tasks[id].job) && EventsInv(s, limit)
  {
  }

  lemma BesideOf(s: State, id: TaskId, limit: nat)
    requires QueueInv(s, limit) && id in s.tasks && !Live(s.tasks[id])
    ensures BesideInv(s, s.tasks[id]) && EventsInv(s, limit)
  {
  }

  // ---- Runs of a job ------------------------------------------------------

  lemma RunKeepsQueue(s: State, id: TaskId, limit: nat)
    requires QueueInv(s, limit) && id in s.tasks && s.tasks[id].Running?
    ensures QueueInv(RunStep(s, id, s.tasks[id].job, s.tasks[id].event, s.tasks[id].at, limit), limit)
  {
    hide QueueInv, EventsInv, NoOtherToken, Local;
    TokenOf(s, id, limit);
    var t := s.tasks[id];
    var u := RunStep(s, id, t.job, t.event, t.at, limit);
    if t.at.Closing? {
      LocalEnd(s, u, t.job, t.event, limit);
      if id in u.tasks {
        TokenMoves(s, u, id, u.tasks[id], limit);
      } else {
        TokenEnds(s, u, id, t.job, limit);
      }
    } else if !t.at.InWorker? {
      RunMoves(s, u, id, limit);
      TokenMoves(s, u, id, u.tasks[id], limit);
    }
  }

  lemma RunMoves(s: State, u: State, id: TaskId, limit: nat)
    requires id in s.tasks && s.tasks[id].Running? && TokenInv(s, s.tasks[id], limit) && EventsInv(s, limit)
    requires u == RunStep(s, id, s.tasks[id].job, s.tasks[id].event, s.tasks[id].at, limit)
    requires !s.tasks[id].at.Closing? && !s.tasks[id].at.InWorker?
    ensures id in u.tasks && u.tasks == s.tasks[id := u.tasks[id]] && u.tasks[id].job == s.tasks[id].job
    ensures !u.tasks[id].Creating? && Local(s, u, s.tasks[id].job, limit)
            && (Live(u.tasks[id]) ==> TokenInv(u, u.tasks[id], limit))
  {
    hide EventsInv, Local;
    var t := s.tasks[id];
    if t.at.Marked? || t.at.Counting? {
      LocalCount(s, u, t.job, limit);
    } else {
      LocalRow(s, u, t.job, limit);
    }
  }

  /** What a running worker does or how it ends. */
  lemma WorkerKeeps(s: State, op: Op, limit: nat)
    requires QueueInv(s, limit) && Working(s, op.id) && Next(s, op, limit) != s
    requires op.WorkerReturns? || op.WorkerRetryable? || op.WorkerFails? || op.WorkerCritical? || op.WorkerCriticalEnds? || op.WorkerStage?
    ensures QueueInv(Next(s, op, limit), limit)
  {
    hide QueueInv, EventsInv, NoOtherToken, Local;
    TokenOf(s, op.id, limit);
    var u := Next(s, op, limit);
    assert s.tasks[op.id := u.tasks[op.id]] == u.tasks;
    LocalRow(s, u, s.tasks[op.id].job, limit);
    TokenMoves(s, u, op.id, u.tasks[op.id], limit);
  }

  lemma TokenStepKeeps(s: State, id: TaskId, limit: nat)
    requires QueueInv(s, limit) && id in s.tasks && Live(s.tasks[id]) && !s.tasks[id].Running?
    ensures QueueInv(TaskStep(s, id, limit), limit)
  {
    hide QueueInv, EventsInv, NoOtherToken, Local, RunStep, CancelNext, Reports;
    TokenOf(s, id, limit);
    var t := s.tasks[id];
    var u := TaskStep(s, id, limit);
    if t.Creating? {
      FreshUnentered(s, limit);
      LocalEvent(s, u, t.job, limit);
    } else if t.TimerArmed? {
      LocalTimer(s, u, t.job, t.event, limit);
    } else {
      LocalRow(s, u, t.job, limit);
    }
    if id in u.tasks {
      TokenMoves(s, u, id, u.tasks[id], limit);
    } else {
      TokenEnds(s, u, id, t.job, limit);
    }
  }

  lemma FreshUnentered(s: State, limit: nat)
    requires EventsInv(s, limit)
    ensures s.shared.next !in s.entered
  {
  }

  // ---- Cancellation, retry, observation -----------------------------------

  lemma CancelKeeps(s: State, id: TaskId, limit: nat)
    requires QueueInv(s, limit) && id in s.tasks && s.tasks[id].Canceling?
    ensures QueueInv(TaskStep(s, id, limit), limit)
  {
    hide QueueInv, EventsInv, Local, Reports, RunStep;
    BesideOf(s, id, limit);
    var t := s.tasks[id];
    var u := TaskStep(s, id, limit);
    match t.step
    case NotCritical(_) =>
      LocalFlag(s, u, t.job, limit);
      BesideKeeps(s, u, id, t.job, limit);
    case _ =>
      LocalRow(s, u, t.job, limit);
      BesideKeeps(s, u, id, t.job, limit);
  }

  lemma ObserveKeeps(s: State, id: TaskId, limit: nat)
    requires QueueInv(s, limit) && id in s.tasks && (s.tasks[id].Observing? || s.tasks[id].Reporting?)
    ensures QueueInv(TaskStep(s, id, limit), limit)
  {
    hide QueueInv, EventsInv, Local, RunStep, CancelNext;
    BesideOf(s, id, limit);
    LocalRow(s, TaskStep(s, id, limit), s.tasks[id].job, limit);
    BesideKeeps(s, TaskStep(s, id, limit), id, s.tasks[id].job, limit);
  }

  /** A retry claims the job only when no token of it is left. */
  lemma RetryKeeps(s: State, id: TaskId, limit: nat)
    requires QueueInv(s, limit) && id in s.tasks && s.tasks[id].Retrying?
    ensures QueueInv(TaskStep(s, id, limit), limit)
  {
    hide QueueInv, EventsInv, NoOtherToken, Local, RunStep, CancelNext, Reports;
    BesideOf(s, id, limit);
    var job := s.tasks[id].job;
    var u := TaskStep(s, id, limit);
    if job in s.shared.events {
      LocalRow(s, u, job, limit);
      BesideKeeps(s, u, id, job, limit);
    } else {
      NoToken(s, id, limit);
      FreshUnentered(s, limit);
      LocalEvent(s, u, job, limit);
      TokenMoves(s, u, id, u.tasks[id], limit);
    }
  }

  lemma NoToken(s: State, id: TaskId, limit: nat)
    requires QueueInv(s, limit) && id in s.tasks && s.tasks[id].Retrying? && s.tasks[id].job !in s.shared.events
    ensures forall y :: y in s.tasks && Live(s.tasks[y]) ==> s.tasks[y].job != s.tasks[id].job
    ensures NoOtherToken(s, id, s.tasks[id].job)
  {
    assert BesideInv(s, s.tasks[id]);
    forall y | y in s.tasks && Live(s.tasks[y]) ensures s.tasks[y].job != s.tasks[id].job {
      assert TokenInv(s, s.tasks[y], limit);
    }
  }

  // ---- New threads --------------------------------------------------------

  /** A thread that starts beside the jobs: it has read a row. */
  lemma StartKeeps(s: State, op: Op, limit: nat)
    requires QueueInv(s, limit) && (op.Cancel? || op.Retry?)
    ensures QueueInv(Next(s, op, limit), limit)
  {
    hide QueueInv, EventsInv, Local;
    var u := Next(s, op, limit);
    if u != s {
      CreatingQueued(s, op.job, limit);
      EventsUnchanged(s, limit);
      LocalRow(s, u, op.job, limit);
      BesideKeeps(s, u, op.id, op.job, limit);
    }
  }

  lemma EventsUnchanged(s: State, limit: nat)
    requires QueueInv(s, limit)
    ensures EventsInv(s, limit)
  {
  }

  lemma CreatingQueued(s: State, job: JobId, limit: nat)
    requires QueueInv(s, limit)
    ensures forall x :: x in s.tasks && s.tasks[x] == Creating(job) ==>
      job in s.shared.rows && (s.shared.rows[job].status == Queued || job in s.shared.events)
  {
    forall x | x in s.tasks && s.tasks[x] == Creating(job)
      ensures job in s.shared.rows && (s.shared.rows[job].status == Queued || job in s.shared.events)
    {
      assert TokenInv(s, s.tasks[x], limit);
    }
  }

  lemma LocalCreate(s: State, u: State, job: JobId, limit: nat)
    requires EventsInv(s, limit) && job !in s.shared.rows && u.entered == s.entered
    requires u.shared == s.shared.(rows := s.shared.rows[job := Row(Queued, false)])
    ensures Local(s, u, job, limit) && job !in u.shared.retries
  {
  }

  lemma CreateKeeps(s: State, op: Op, limit: nat)
    requires QueueInv(s, limit) && op.Create?
    ensures QueueInv(Next(s, op, limit), limit)
  {
    hide Local, EventsInv, Counted, TaskStep;
    var u := Next(s, op, limit);
    if u != s {
      LocalCreate(s, u, op.job, limit);
      LocalMeans(s, u, op.job, limit);
      forall x | x in u.tasks ensures if Live(u.tasks[x]) then TokenInv(u, u.tasks[x], limit) else BesideInv(u, u.tasks[x]) {
        if x != op.id && Live(s.tasks[x]) {
          OthersKeep(s, u, s.tasks[x], op.job, limit);
        } else if x != op.id {
          BesideElsewhere(s, u, op.id, s.tasks[x], op.job, limit);
        }
      }
    }
  }

  // ---- Whole runs ---------------------------------------------------------

  lemma NextKeeps(s: State, op: Op, limit: nat)
    requires QueueInv(s, limit)
    ensures QueueInv(Next(s, op, limit), limit)
  {
    hide QueueInv, TaskStep;
    match op
    case Create(_, _) => CreateKeeps(s, op, limit);
    case Cancel(_, _) => StartKeeps(s, op, limit);
    case Retry(_, _) => StartKeeps(s, op, limit);
    case Proceed(id) => if id in s.tasks { ProceedKeeps(s, id, limit); }
    case _ => if Working(s, op.id) && Next(s, op, limit) != s { WorkerKeeps(s, op, limit); }
  }

  lemma ProceedKeeps(s: State, id: TaskId, limit: nat)
    requires QueueInv(s, limit) && id in s.tasks
    ensures QueueInv(TaskStep(s, id, limit), limit)
  {
    hide QueueInv, RunStep;
    match s.tasks[id]
    case Running(_, _, _) => RunKeepsQueue(s, id, limit);
    case Observing(_, _) => ObserveKeeps(s, id, limit);
    case Reporting(_) => ObserveKeeps(s, id, limit);
    case Canceling(_, _) => CancelKeeps(s, id, limit);
    case Retrying(_) => RetryKeeps(s, id, limit);
    case _ => TokenStepKeeps(s, id, limit);
  }

  lemma {:induction false} RunKeeps(s: State, ops: seq<Op>, limit: nat)
    requires QueueInv(s, limit)
    ensures QueueInv(Run(s, ops, limit), limit)
  {
    hide QueueInv, Next;
    if ops != [] {
      RunKeeps(s, ops[..|ops|-1], limit);
      NextKeeps(Run(s, ops[..|ops|-1], limit), ops[|ops|-1], limit);
    }
  }

  // ---- Promises -----------------------------------------------------------

  /** However submits, timers, cancels and retries interleave, at most one run of a job is inside
      the worker, and that run belongs to the event the manager holds for the job. */
  lemma OneRunInWorker(ops: seq<Op>, limit: nat, x: TaskId, y: TaskId)
    requires
      var s := Run(BLANK, ops, limit);
      Working(s, x) && Working(s, y) && s.tasks[x].job == s.tasks[y].job
    ensures x == y
    ensures
      var s := Run(BLANK, ops, limit);
      s.tasks[x].job in s.shared.events && s.shared.events[s.tasks[x].job] == s.tasks[x].event
  {
    BlankInv(limit);
    RunKeeps(BLANK, ops, limit);
    hide Run, BesideInv;
    TokenOf(Run(BLANK, ops, limit), x, limit);
  }

  /** One generation invokes the worker at most limit + 1 times. */
  lemma GenerationBounded(ops: seq<Op>, limit: nat, e: EventId)
    ensures Entered(Run(BLANK, ops, limit), e) <= limit + 1
  {
    BlankInv(limit);
    RunKeeps(BLANK, ops, limit);
    hide Run, BesideInv, TokenInv;
  }

  /** A retry can be claimed only once no submit, run or timer of the job is left. */
  lemma RetryWaits(ops: seq<Op>, limit: nat, id: TaskId)
    requires
      var s := Run(BLANK, ops, limit);
      id in s.tasks && s.tasks[id].Retrying? && ClaimRetry(s.shared, s.tasks[id].job).Some?
    ensures
      var s := Run(BLANK, ops, limit);
      forall y :: y in s.tasks && Live(s.tasks[y]) ==> s.tasks[y].job != s.tasks[id].job
  {
    BlankInv(limit);
    RunKeeps(BLANK, ops, limit);
    hide Run, QueueInv;
    NoToken(Run(BLANK, ops, limit), id, limit);
  }
}
