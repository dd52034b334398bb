/** How a parse job ends: which status a run writes, when a generation is given up, and that no job is
    canceled unasked, over every interleaving (app/parse_jobs.py). */
module ParseOutcomes {
  import opened Wrappers
  import opened ParseJobs
  import opened ParseInterleavings

  // ---- What a run writes --------------------------------------------------

  /** Steps of other threads, timers and callbacks. */
  predicate Others(ops: seq<Op>, id: TaskId) {
    forall i :: 0 <= i < |ops| ==> ops[i].id != id
  }

  lemma OtherStep(s: State, op: Op, id: TaskId, limit: nat)
    requires op.id != id && id in s.tasks
    ensures id in Next(s, op, limit).tasks && Next(s, op, limit).tasks[id] == s.tasks[id]
  {
  }

  lemma {:induction false} OthersSpare(s: State, ops: seq<Op>, id: TaskId, limit: nat)
    requires Others(ops, id) && id in s.tasks
    ensures id in Run(s, ops, limit).tasks && Run(s, ops, limit).tasks[id] == s.tasks[id]
  {
    hide Next;
    if ops != [] {
      OthersSpare(s, ops[..|ops|-1], id, limit);
      OtherStep(Run(s, ops[..|ops|-1], limit), ops[|ops|-1], id, limit);
    }
  }

  /** What a run whose worker call ended writes to its row, given whether its event was set when it
      looked: canceled if it was, and otherwise done after a return and the failure's own status after a
      failure. None while the run may still be rescheduled. */
  function Verdict(at: Position, flagged: bool): Option<Status> {
    match at
    case Returned => Some(if flagged then Canceled else Done)
    case Broken(terminal) => Some(if flagged then Canceled else terminal)
    case Retryable => if flagged then Some(Canceled) else None
    case _ => None
  }

  /** A run decides by the event as it reads it, and writes that verdict however long the other threads
      take in between and whatever they do. */
  lemma RunWritesVerdict(s: State, id: TaskId, others: seq<Op>, limit: nat)
    requires id in s.tasks && s.tasks[id].Running? && Others(others, id)
    requires Verdict(s.tasks[id].at, s.tasks[id].event in s.shared.flags).Some?
    ensures
      var t := s.tasks[id];
      var u := Next(Run(Next(s, Proceed(id), limit), others, limit), Proceed(id), limit);
      && t.job in u.shared.rows
      && u.shared.rows[t.job] == Row(Verdict(t.at, t.event in s.shared.flags).value, false)
      && id in u.tasks && u.tasks[id] == Running(t.job, t.event, Closing(t.at.Broken?))
  {
    var t := s.tasks[id];
    var u := Next(s, Proceed(id), limit);
    assert u.tasks[id] == Running(t.job, t.event, Finishing(Verdict(t.at, t.event in s.shared.flags).value, t.at.Broken?));
    OthersSpare(u, others, id, limit);
    hide Run, Verdict;
  }

  /** The end of a run frees the job: its own event is gone, so a retry can be claimed, unless another
      generation owns the job by then. */
  lemma RunEndFrees(s: State, id: TaskId, limit: nat)
    requires id in s.tasks && s.tasks[id].Running? && s.tasks[id].at.Closing?
    ensures
      var t, u := s.tasks[id], Next(s, Proceed(id), limit).shared;
      && (t.job in s.shared.events && s.shared.events[t.job] == t.event ==> t.job !in u.events)
      && (t.job in s.shared.events && s.shared.events[t.job] != t.event ==>
            t.job in u.events && u.events[t.job] == s.shared.events[t.job])
      && t.job !in u.critical && t.job !in u.retries && u.rows == s.shared.rows
  {
  }

  // ---- Giving a generation up ---------------------------------------------

  /** The attempt that a failed run has counted is the number of worker calls of its generation. */
  lemma AttemptsAreCalls(ops: seq<Op>, limit: nat, id: TaskId)
    requires
      var s := Run(BLANK, ops, limit);
      id in s.tasks && s.tasks[id].Running? && s.tasks[id].at.Attempted?
    ensures
      var s := Run(BLANK, ops, limit);
      s.tasks[id].at.attempt == Entered(s, s.tasks[id].event)
  {
    BlankInv(limit);
    RunKeeps(BLANK, ops, limit);
    hide Run, BesideInv;
    TokenOf(Run(BLANK, ops, limit), id, limit);
  }

  /** After a runtime failure a generation is rescheduled as long as it entered the worker at most `limit`
      times, and given up as failed exactly when it entered it once more. */
  lemma GivenUpExactly(ops: seq<Op>, limit: nat, id: TaskId)
    requires
      var s := Run(BLANK, ops, limit);
      id in s.tasks && s.tasks[id].Running? && s.tasks[id].at.Attempted?
    ensures
      var s := Run(BLANK, ops, limit);
      var t, u := s.tasks[id], Next(s, Proceed(id), limit);
      if Entered(s, t.event) <= limit then
        && u.shared.rows == s.shared.rows[t.job := Row(Queued, false)]
        && Next(u, Proceed(id), limit).tasks[id] == TimerArmed(t.job, t.event)
      else
        && u.shared.rows == s.shared.rows[t.job := Row(Failed, false)]
        && u.tasks[id] == Running(t.job, t.event, Closing(true))
  {
    AttemptsAreCalls(ops, limit, id);
    hide Run;
  }

  /** A timer that fires submits its run again exactly when its event is still the job's and was not set;
      a canceled one clears the event, so that the job can be retried. */
  lemma TimerExactly(s: State, id: TaskId, limit: nat)
    requires id in s.tasks && s.tasks[id].TimerArmed?
    ensures
      var t, u := s.tasks[id], Next(s, Proceed(id), limit);
      var current := t.job in s.shared.events && s.shared.events[t.job] == t.event;
      if current && t.event !in s.shared.flags then u == Set(s, id, Submitting(t.job, t.event))
      else if current then u.tasks == s.tasks - {id} && u.shared == s.shared.(events := s.shared.events - {t.job})
      else u == End(s, id)
  {
  }

  // ---- Cancellation -------------------------------------------------------

  /** A cancel that found the job active is dropped if the job consolidates or is critical by then.
      Otherwise, and whatever other threads do in between, it sets the event of the job; and one that had
      found the job queued then writes the row as canceled. */
  lemma CancelExactly(s: State, id: TaskId, first: seq<Op>, second: seq<Op>, limit: nat)
    requires id in s.tasks && s.tasks[id].Canceling? && s.tasks[id].step.SawActive? && Others(first, id) && Others(second, id)
    ensures
      var t := s.tasks[id];
      var u := Next(s, Proceed(id), limit);
      if t.step.consolidating || t.job in s.shared.critical then u == End(s, id)
      else
        var flagged := Next(Run(u, first, limit), Proceed(id), limit);
        var written := Next(Run(flagged, second, limit), Proceed(id), limit);
        && t.job in flagged.shared.events && flagged.shared.events[t.job] in flagged.shared.flags
        && (t.step.status == Queued ==> t.job in written.shared.rows && written.shared.rows[t.job] == Row(Canceled, false))
        && (t.step.status != Queued ==> id !in flagged.tasks)
  {
    var t := s.tasks[id];
    var u := Next(s, Proceed(id), limit);
    if !t.step.consolidating && t.job !in s.shared.critical {
      OthersSpare(u, first, id, limit);
      var flagged := Next(Run(u, first, limit), Proceed(id), limit);
      if t.step.status == Queued {
        OthersSpare(flagged, second, id, limit);
      }
    }
    hide Run;
  }

  /** Nobody has asked to cancel the job. */
  predicate NeverCanceled(ops: seq<Op>, job: JobId) {
    forall i :: 0 <= i < |ops| && ops[i].Cancel? ==> ops[i].job != job
  }

  /** No thread is about to write the row as canceled. */
  predicate Harmless(t: Task, job: JobId) {
    t.job == job ==>
      && !t.Canceling?
      && (t.Running? && t.at.Finishing? ==> t.at.status != Canceled)
      && (t.Running? && t.at.Broken? ==> t.at.terminal != Canceled)
  }

  ghost predicate UnaskedInv(s: State, job: JobId) {
    && (forall x :: x in s.tasks ==> Harmless(s.tasks[x], job))
    && (job in s.shared.rows ==> s.shared.rows[job].status != Canceled)
    && (job in s.shared.events ==> s.shared.events[job] !in s.shared.flags)
    && (forall e :: e in s.shared.flags ==> e < s.shared.next)
  }

  /** A step of a task of another job. */
  lemma ElsewhereUnasked(s: State, op: Op, job: JobId, limit: nat)
    requires QueueInv(s, limit) && UnaskedInv(s, job)
    requires op.Proceed? && op.id in s.tasks && s.tasks[op.id].job != job
    ensures UnaskedInv(Next(s, op, limit), job)
  {
    EventsUnchanged(s, limit);
    hide QueueInv;
    OtherJobs(s, op, job, limit);
    OtherFlags(s, op, job, limit);
    hide Next, EventsInv;
  }

  /** The entries of the job are the same, and so are its threads. */
  ghost predicate Untouched(s: State, u: State, job: JobId) {
    && (job in u.shared.rows <==> job in s.shared.rows)
    && (job in s.shared.rows ==> u.shared.rows[job] == s.shared.rows[job])
    && (job in u.shared.events <==> job in s.shared.events)
    && (job in s.shared.events ==> u.shared.events[job] == s.shared.events[job])
    && (forall x :: x in u.tasks ==> u.tasks[x].job != job || (x in s.tasks && u.tasks[x] == s.tasks[x]))
  }

  lemma OtherJobs(s: State, op: Op, job: JobId, limit: nat)
    requires op.Proceed? && op.id in s.tasks && s.tasks[op.id].job != job
    ensures Untouched(s, Next(s, op, limit), job)
  {
    hide RunStep, CancelNext, Untouched, Reports;
    var t := s.tasks[op.id];
    if t.Running? {
      OtherRun(s, op.id, t.job, t.event, t.at, job, limit);
    } else if t.Canceling? {
      OtherCancel(s, op.id, t.job, t.step, job);
    } else {
      OtherTask(s, op.id, job, limit);
    }
  }

  lemma OtherRun(s: State, id: TaskId, other: JobId, e: EventId, at: Position, job: JobId, limit: nat)
    requires other != job && id in s.tasks && s.tasks[id].job == other
    ensures Untouched(s, RunStep(s, id, other, e, at, limit), job)
  {
  }

  lemma OtherCancel(s: State, id: TaskId, other: JobId, step: CancelStep, job: JobId)
    requires other != job && id in s.tasks && s.tasks[id].job == other
    ensures Untouched(s, CancelNext(s, id, other, step), job)
  {
  }

  lemma OtherTask(s: State, id: TaskId, job: JobId, limit: nat)
    requires id in s.tasks && s.tasks[id].job != job && !s.tasks[id].Running? && !s.tasks[id].Canceling?
    ensures Untouched(s, TaskStep(s, id, limit), job)
  {
    hide RunStep, CancelNext, Reports;
  }

  lemma OtherFlags(s: State, op: Op, job: JobId, limit: nat)
    requires EventsInv(s, limit) && op.Proceed? && op.id in s.tasks && s.tasks[op.id].job != job
    requires forall e :: e in s.shared.flags ==> e < s.shared.next
    ensures
      var u := Next(s, op, limit);
      && (forall e :: e in u.shared.flags ==> e < u.shared.next)
      && (job in s.shared.events ==> (s.shared.events[job] in u.shared.flags <==> s.shared.events[job] in s.shared.flags))
  {
    hide RunStep;
    RunFlags(s, op.id, limit);
  }

  lemma RunFlags(s: State, id: TaskId, limit: nat)
    ensures id in s.tasks && s.tasks[id].Running? ==>
      var u := RunStep(s, id, s.tasks[id].job, s.tasks[id].event, s.tasks[id].at, limit);
      u.shared.flags == s.shared.flags && u.shared.next == s.shared.next
  {
  }

  /** A step of a task of the job itself. */
  lemma HereUnasked(s: State, id: TaskId, job: JobId, limit: nat)
    requires QueueInv(s, limit) && UnaskedInv(s, job) && id in s.tasks && s.tasks[id].job == job
    ensures UnaskedInv(Next(s, Proceed(id), limit), job)
  {
    hide QueueInv, EventsInv, Counted;
    var t := s.tasks[id];
    if t.Running? {
      TokenOf(s, id, limit);
      RunUnasked(s, id, job, limit);
    } else {
      hide RunStep, CancelNext;
    }
  }

  lemma RunUnasked(s: State, id: TaskId, job: JobId, limit: nat)
    requires UnaskedInv(s, job) && id in s.tasks && s.tasks[id].job == job && s.tasks[id].Running?
    requires TokenInv(s, s.tasks[id], limit)
    ensures UnaskedInv(RunStep(s, id, job, s.tasks[id].event, s.tasks[id].at, limit), job)
  {
    assert Harmless(s.tasks[id], job);
    RunFlags(s, id, limit);
    RunHarmless(s, id, job, limit);
    RunRows(s, id, job, limit);
    hide RunStep, Harmless, Counted;
  }

  lemma RunHarmless(s: State, id: TaskId, job: JobId, limit: nat)
    requires id in s.tasks && s.tasks[id].job == job && s.tasks[id].Running?
    requires s.tasks[id].event !in s.shared.flags
    requires forall x :: x in s.tasks ==> Harmless(s.tasks[x], job)
    ensures
      var u := RunStep(s, id, job, s.tasks[id].event, s.tasks[id].at, limit);
      forall x :: x in u.tasks ==> Harmless(u.tasks[x], job)
  {
    var u := RunStep(s, id, job, s.tasks[id].event, s.tasks[id].at, limit);
    assert Harmless(s.tasks[id], job);
    forall x | x in u.tasks ensures Harmless(u.tasks[x], job) {
      if x != id { assert Harmless(s.tasks[x], job); }
    }
  }

  lemma RunRows(s: State, id: TaskId, job: JobId, limit: nat)
    requires id in s.tasks && s.tasks[id].Running? && Harmless(s.tasks[id], job) && s.tasks[id].job == job
    requires job in s.shared.rows ==> s.shared.rows[job].status != Canceled
    ensures
      var u := RunStep(s, id, job, s.tasks[id].event, s.tasks[id].at, limit);
      && (job in u.shared.rows ==> u.shared.rows[job].status != Canceled)
      && (job in u.shared.events ==> job in s.shared.events && u.shared.events[job] == s.shared.events[job])
  {
  }

  lemma WorkerUnasked(s: State, op: Op, job: JobId, limit: nat)
    requires UnaskedInv(s, job) && EventsInv(s, limit) && !op.Proceed?
    requires op.Cancel? ==> op.job != job
    ensures UnaskedInv(Next(s, op, limit), job)
  {
    hide TaskStep;
  }

  lemma {:induction false} UnaskedRun(ops: seq<Op>, limit: nat, job: JobId)
    requires NeverCanceled(ops, job)
    ensures UnaskedInv(Run(BLANK, ops, limit), job)
  {
    hide UnaskedInv, Next, QueueInv;
    if ops == [] {
      BlankUnasked(job);
    } else {
      var before, op := ops[..|ops|-1], ops[|ops|-1];
      var s := Run(BLANK, before, limit);
      UnaskedRun(before, limit, job);
      BlankInv(limit);
      RunKeeps(BLANK, before, limit);
      EventsUnchanged(s, limit);
      if op.Proceed? && op.id in s.tasks {
        if s.tasks[op.id].job == job { HereUnasked(s, op.id, job, limit); } else { ElsewhereUnasked(s, op, job, limit); }
      } else if op.Proceed? {
        NobodyProceeds(s, op, limit);
      } else {
        WorkerUnasked(s, op, job, limit);
      }
    }
  }

  lemma NobodyProceeds(s: State, op: Op, limit: nat)
    requires op.Proceed? && op.id !in s.tasks
    ensures Next(s, op, limit) == s
  {
  }

  lemma BlankUnasked(job: JobId)
    ensures UnaskedInv(BLANK, job)
  {
  }

  /** No job is ever canceled unasked: over every interleaving, a row reads canceled only if some thread
      was asked to cancel that very job, and until then its event is never set. */
  lemma CanceledOnlyIfAsked(ops: seq<Op>, limit: nat, job: JobId)
    requires NeverCanceled(ops, job)
    ensures
      var m := Run(BLANK, ops, limit).shared;
      && (job in m.rows ==> m.rows[job].status != Canceled)
      && (job in m.events ==> m.events[job] !in m.flags)
  {
    UnaskedRun(ops, limit, job);
    hide Run;
  }

  /** A worker that asks for the critical section enters it exactly when the event of its job is not set,
      and a cancel that looks afterwards is dropped; a refused one leaves the section as it was. */
  lemma CriticalExactly(ops: seq<Op>, limit: nat, id: TaskId)
    requires Working(Run(BLANK, ops, limit), id)
    ensures
      var s := Run(BLANK, ops, limit);
      var t, u := s.tasks[id], Next(s, WorkerCritical(id), limit);
      u == s.(shared := if t.event in s.shared.flags then s.shared
                        else s.shared.(critical := s.shared.critical + {t.job}))
  {
    BlankInv(limit);
    RunKeeps(BLANK, ops, limit);
    hide Run, BesideInv;
    TokenOf(Run(BLANK, ops, limit), id, limit);
  }

  /** The last-resort report of a failed run looks at the row once, and then writes it as failed exactly
      when it read queued or parsing and no newer generation owned the job. */
  lemma ReportExactly(s: State, id: TaskId, limit: nat)
    requires id in s.tasks && s.tasks[id].Observing?
    ensures
      var t := s.tasks[id];
      var reports := && (t.job in s.shared.events ==> s.shared.events[t.job] == t.event)
                     && t.job in s.shared.rows
                     && (s.shared.rows[t.job].status == Queued || s.shared.rows[t.job].status == Parsing);
      var u := Next(s, Proceed(id), limit);
      if reports then
        && u.shared == s.shared
        && Next(u, Proceed(id), limit).shared == s.shared.(rows := s.shared.rows[t.job := Row(Failed, false)])
      else u == End(s, id)
  {
    hide RunStep, CancelNext;
  }

  // ---- An undisturbed job -------------------------------------------------

  /** The thread of a new job up to its worker call, when no other thread steps in: the row is queued
      first, then the event is set up, and the row reads parsing before the worker is called. */
  lemma CreatedRuns(s: State, id: TaskId, job: JobId, limit: nat)
    requires id !in s.tasks && job !in s.shared.rows && job !in s.shared.events
    ensures
      var created := Next(s, Create(id, job), limit);
      var submitted := Next(created, Proceed(id), limit);
      var entered := Run(submitted, seq(5, i => Proceed(id)), limit);
      && created.shared.rows == s.shared.rows[job := Row(Queued, false)]
      && entered.tasks == s.tasks[id := Running(job, s.shared.next, InWorker)]
      && entered.shared == s.shared.(rows := s.shared.rows[job := Row(Parsing, false)],
                                     events := s.shared.events[job := s.shared.next], next := s.shared.next + 1)
      && Entered(entered, s.shared.next) == Entered(s, s.shared.next) + 1
  {
    var e := s.shared.next;
    var submitted := Next(Next(s, Create(id, job), limit), Proceed(id), limit);
    assert submitted.tasks == s.tasks[id := Submitting(job, e)];
    SubmittedRuns(submitted, id, job, e, limit);
    assert submitted.shared.rows[job := Row(Parsing, false)] == s.shared.rows[job := Row(Parsing, false)];
    assert s.tasks[id := Submitting(job, e)][id := Running(job, e, InWorker)] == s.tasks[id := Running(job, e, InWorker)];
    hide Next;
  }

  /** The thread of a retry: refused, with nothing changed, while any event of the job is left; otherwise
      it starts a new generation with no failures counted, up to its worker call. */
  lemma RetriedRuns(s: State, id: TaskId, job: JobId, limit: nat)
    requires id !in s.tasks && job in s.shared.rows && s.shared.rows[job].status in {Failed, Canceled, NeedsHuman, Partial}
    ensures
      var asked := Next(s, Retry(id, job), limit);
      if job in s.shared.events then Next(asked, Proceed(id), limit) == End(asked, id)
      else
        var reset := Next(Next(asked, Proceed(id), limit), Proceed(id), limit);
        var entered := Run(reset, seq(5, i => Proceed(id)), limit);
        && reset.shared.rows == s.shared.rows[job := Row(Queued, false)]
        && entered.tasks == s.tasks[id := Running(job, s.shared.next, InWorker)]
        && entered.shared == s.shared.(rows := s.shared.rows[job := Row(Parsing, false)],
                                       events := s.shared.events[job := s.shared.next], next := s.shared.next + 1,
                                       retries := s.shared.retries - {job})
  {
    var e := s.shared.next;
    var asked := Next(s, Retry(id, job), limit);
    if job !in s.shared.events {
      var s0 := Next(Next(asked, Proceed(id), limit), Proceed(id), limit);
      assert s0.tasks == s.tasks[id := Submitting(job, e)];
      SubmittedRuns(s0, id, job, e, limit);
      assert s0.shared.rows[job := Row(Parsing, false)] == s.shared.rows[job := Row(Parsing, false)];
      assert s.tasks[id := Submitting(job, e)][id := Running(job, e, InWorker)] == s.tasks[id := Running(job, e, InWorker)];
      hide Next;
    }
  }

  /** A submitted, queued job whose event is set up runs up to its worker call. */
  lemma SubmittedRuns(s: State, id: TaskId, job: JobId, e: EventId, limit: nat)
    requires id in s.tasks && s.tasks[id] == Submitting(job, e)
    requires job in s.shared.events && s.shared.events[job] == e
    requires job in s.shared.rows && s.shared.rows[job].status == Queued
    ensures
      var u := Run(s, seq(5, i => Proceed(id)), limit);
      && u.tasks == s.tasks[id := Running(job, e, InWorker)]
      && u.shared == s.shared.(rows := s.shared.rows[job := Row(Parsing, false)])
      && Entered(u, e) == Entered(s, e) + 1
  {
    FiveSteps(s, id, limit);
    var s1 := Next(s, Proceed(id), limit);
    assert s1 == Set(s, id, Waiting(job, e));
    var s2 := Next(s1, Proceed(id), limit);
    assert s2 == Set(s, id, Running(job, e, Started));
    var s3 := Next(s2, Proceed(id), limit);
    assert s3 == Set(s, id, Running(job, e, SawQueued));
    var s4 := Next(s3, Proceed(id), limit);
    assert s4 == Set(s, id, Running(job, e, Marked)).(shared := SetStatus(s.shared, job, Parsing));
    var s5 := Next(s4, Proceed(id), limit);
    assert s5.tasks == s.tasks[id := Running(job, e, InWorker)] && s5.shared == s4.shared;
    hide Next;
  }

  lemma FiveSteps(s: State, id: TaskId, limit: nat)
    ensures
      var p := Proceed(id);
      Run(s, seq(5, i => p), limit) == Next(Next(Next(Next(Next(s, p, limit), p, limit), p, limit), p, limit), p, limit)
  {
    hide Next;
    var p := Proceed(id);
    RunOneMore(s, p, 4, limit);
    RunOneMore(s, p, 3, limit);
    RunOneMore(s, p, 2, limit);
    RunOneMore(s, p, 1, limit);
    RunOneMore(s, p, 0, limit);
  }

  lemma RunOneMore(s: State, op: Op, n: nat, limit: nat)
    ensures Run(s, seq(n + 1, i => op), limit) == Next(Run(s, seq(n, i => op), limit), op, limit)
  {
    var ops := seq(n + 1, i => op);
    assert ops[..|ops|-1] == seq(n, i => op);
  }
}
