/** The upload parse queue (app/parse_jobs.py): job rows, generation events, retry counters, and
    the lock regions that change them. */
module ParseJobs {
  import opened Wrappers

  type JobId = string
  type EventId = nat

  datatype Status = Queued | Parsing | Done | Failed | Canceled | NeedsHuman | Partial

  /** A row of parse_jobs, by status and by whether its stage is consolidating. */
  datatype Row = Row(status: Status, consolidating: bool)

  /** What the threads of the process share. `flags` holds the events that are set, and every event
      number from `next` on is still unused. */
  datatype Shared = Shared(rows: map<JobId, Row>, events: map<JobId, EventId>, flags: set<EventId>,
                           critical: set<JobId>, retries: map<JobId, nat>, next: EventId)

  function Retries(m: Shared, job: JobId): nat {
    if job in m.retries then m.retries[job] else 0
  }

  function SetStatus(m: Shared, job: JobId, status: Status): Shared {
    m.(rows := m.rows[job := Row(status, false)])
  }

  // ---- Lock regions -------------------------------------------------------

  /** self._events[job_id] = Event() */
  function NewEvent(m: Shared, job: JobId): Shared {
    m.(events := m.events[job := m.next], next := m.next + 1)
  }

  /** self._events.setdefault(job_id, Event()) */
  function EnsureEvent(m: Shared, job: JobId): Shared {
    if job in m.events then m else NewEvent(m, job)
  }

  /** cancel(): find or create the event and set it. */
  function FlagEvent(m: Shared, job: JobId): Shared {
    var n := EnsureEvent(m, job);
    n.(flags := n.flags + {n.events[job]})
  }

  /** retry(): refused while any event of the job remains; otherwise a new generation. */
  function ClaimRetry(m: Shared, job: JobId): Option<Shared> {
    if job in m.events then None else Some(NewEvent(m, job).(retries := m.retries - {job}))
  }

  /** The runtime failure counter of the running generation. */
  function CountAttempt(m: Shared, job: JobId): Shared {
    m.(retries := m.retries[job := Retries(m, job) + 1])
  }

  /** The end of a run that is not rescheduled: its own event goes, if it is still there. */
  function EndRun(m: Shared, job: JobId, e: EventId): Shared {
    m.(events := if job in m.events && m.events[job] == e then m.events - {job} else m.events,
       critical := m.critical - {job}, retries := m.retries - {job})
  }

  /** A fired timer: it submits again only for the current event, and only when that is not set. */
  predicate TimerSubmits(m: Shared, job: JobId, e: EventId) {
    job in m.events && m.events[job] == e && e !in m.flags
  }

  function TimerFired(m: Shared, job: JobId, e: EventId): Shared {
    if job in m.events && m.events[job] == e && e in m.flags then m.(events := m.events - {job}) else m
  }

  /** _progress(critical=True): refused once the event is set. */
  function EnterCritical(m: Shared, job: JobId): Option<Shared> {
    var n := EnsureEvent(m, job);
    if n.events[job] in n.flags then None else Some(n.(critical := n.critical + {job}))
  }

  /** _observe_failure: a failed future is reported when its job still looks active and no newer
      generation owns it. */
  predicate Reports(m: Shared, job: JobId, generation: EventId) {
    && (job in m.events ==> m.events[job] == generation)
    && job in m.rows && m.rows[job].status in {Queued, Parsing}
  }

  // ---- The manager --------------------------------------------------------

  /** The manager's fields, each method one lock region or one row update. */
  class ParseJobManager {
    var rows: map<JobId, Row>
    var events: map<JobId, EventId>
    var flags: set<EventId>
    var critical: set<JobId>
    var runtimeRetries: map<JobId, nat>
    var nextEvent: EventId

    constructor ()
      ensures View() == Shared(map[], map[], {}, {}, map[], 0)
    {
      rows, events, flags, critical, runtimeRetries, nextEvent := map[], map[], {}, {}, map[], 0;
    }

    ghost function View(): Shared
      reads this
    {
      Shared(rows, events, flags, critical, runtimeRetries, nextEvent)
    }

    method Update(job: JobId, status: Status)
      modifies this`rows
      ensures View() == SetStatus(old(View()), job, status)
    {
      rows := rows[job := Row(status, false)];
    }

    method RegisterEvent(job: JobId)
      modifies this`events, this`nextEvent
      ensures View() == NewEvent(old(View()), job)
    {
      events := events[job := nextEvent];
      nextEvent := nextEvent + 1;
    }

    method SetDefault(job: JobId) returns (e: EventId)
      modifies this`events, this`nextEvent
      ensures View() == EnsureEvent(old(View()), job) && job in events && e == events[job]
    {
      if job !in events {
        RegisterEvent(job);
      }
      e := events[job];
    }

    method FlagForCancel(job: JobId)
      modifies this`events, this`nextEvent, this`flags
      ensures View() == FlagEvent(old(View()), job)
    {
      var e := SetDefault(job);
      flags := flags + {e};
    }

    method RegisterRetry(job: JobId) returns (claimed: bool)
      modifies this`events, this`nextEvent, this`runtimeRetries
      ensures match ClaimRetry(old(View()), job)
              case None => !claimed && View() == old(View())
              case Some(m) => claimed && View() == m
    {
      if job in events {
        return false;
      }
      RegisterEvent(job);
      runtimeRetries := runtimeRetries - {job};
      return true;
    }

    method NextAttempt(job: JobId) returns (attempt: nat)
      modifies this`runtimeRetries
      ensures View() == CountAttempt(old(View()), job) && attempt == Retries(View(), job)
    {
      attempt := (if job in runtimeRetries then runtimeRetries[job] else 0) + 1;
      runtimeRetries := runtimeRetries[job := attempt];
    }

    method LeaveRun(job: JobId, e: EventId, rescheduled: bool)
      modifies this`events, this`critical, this`runtimeRetries
      ensures View() == if rescheduled then old(View()) else EndRun(old(View()), job, e)
    {
      if !rescheduled && job in events && events[job] == e {
        events := events - {job};
      }
      if !rescheduled {
        critical := critical - {job};
        runtimeRetries := runtimeRetries - {job};
      }
    }

    method OnTimer(job: JobId, e: EventId) returns (submit: bool)
      modifies this`events
      ensures submit == TimerSubmits(old(View()), job, e) && View() == TimerFired(old(View()), job, e)
    {
      if job !in events || events[job] != e || e in flags {
        if job in events && events[job] == e {
          events := events - {job};
        }
        return false;
      }
      return true;
    }

    method BeginCritical(job: JobId) returns (entered: bool)
      modifies this`events, this`nextEvent, this`critical
      ensures match EnterCritical(old(View()), job)
              case None => !entered && View() == EnsureEvent(old(View()), job)
              case Some(m) => entered && View() == m
    {
      var e := SetDefault(job);
      if e in flags {
        return false;
      }
      critical := critical + {job};
      return true;
    }
  }
}
