/** The job lease (app/document_read/execution.py) and the charged model channel that saves under
    it (app/document_read/service.py, _call and _save). */
module JobLeases {
  import opened Wrappers

  type JobId = string
  type Clock = real

  datatype LeaseRow = LeaseRow(company: string, owner: string, generation: int, expires: Clock)

  /** What a holder keeps of its lease. */
  datatype Lease = Lease(company: string, owner: string, generation: int, seconds: int)

  datatype Phase = Classify | Attribute | Extract | Plan | LeafPhase | ReviewPhase | PublishPhase

  /** Calls per phase; an absent phase counts zero. */
  type Counts = map<Phase, nat>

  datatype Stopped = OutsideScope | JobBusy | LeaseLost | BadSeconds | BudgetStopped

  function Get(c: Counts, p: Phase): nat {
    if p in c then c[p] else 0
  }

  // ---- Specification ------------------------------------------------------

  /** A new generation, unless another worker still holds the job. */
  function Acquire(row: Option<LeaseRow>, inScope: bool, company: string, owner: string, seconds: int,
                   now: Clock): Result<Lease, Stopped> {
    if !(240 <= seconds <= 900) then Err(BadSeconds)
    else if !inScope then Err(OutsideScope)
    else if row.Some? && row.value.expires > now then Err(JobBusy)
    else Ok(Lease(company, owner, if row.Some? then row.value.generation + 1 else 1, seconds))
  }

  function RowOf(l: Lease, now: Clock): LeaseRow {
    LeaseRow(l.company, l.owner, l.generation, now + l.seconds as real)
  }

  /** The lease still stands: same owner, generation and company, and not expired. */
  predicate Holds(row: Option<LeaseRow>, l: Lease, now: Clock) {
    && row.Some? && row.value.owner == l.owner && row.value.generation == l.generation
    && row.value.company == l.company && row.value.expires > now
  }

  /** check(): the renewed row, or LeaseLost. */
  function Check(row: Option<LeaseRow>, l: Lease, now: Clock): Result<LeaseRow, Stopped> {
    if Holds(row, l, now) then Ok(row.value.(expires := now + l.seconds as real)) else Err(LeaseLost)
  }

  /** release(): expires only the holder's own generation. */
  function Released(row: Option<LeaseRow>, l: Lease): Option<LeaseRow> {
    if row.Some? && row.value.owner == l.owner && row.value.generation == l.generation
    then Some(row.value.(expires := 0.0))
    else row
  }

  /** _call: the charged counts, unless the phase has no budget left or none configured. */
  function Charge(c: Counts, limits: Counts, p: Phase): Result<Counts, Stopped> {
    if p !in limits || Get(c, p) >= limits[p] then Err(BudgetStopped) else Ok(c[p := Get(c, p) + 1])
  }

  // ---- The objects --------------------------------------------------------

  /** The rows that workers of one job share, and the number of model transports ever started. */
  class JobDatabase {
    var row: Option<LeaseRow>
    var kv: Counts
    ghost var sent: Counts

    constructor ()
      ensures row == None && kv == map[] && sent == map[]
    {
      row, kv, sent := None, map[], map[];
    }
  }

  class JobLease {
    const db: JobDatabase
    const lease: Lease

    constructor (db: JobDatabase, lease: Lease)
      ensures this.db == db && this.lease == lease
    {
      this.db, this.lease := db, lease;
    }

    /** The constructor of the original, which raises when the job is out of scope or busy. */
    static method Take(db: JobDatabase, inScope: bool, company: string, owner: string, seconds: int, now: Clock)
      returns (r: Result<JobLease, Stopped>)
      modifies db
      ensures match Acquire(old(db.row), inScope, company, owner, seconds, now)
              case Ok(l) => r.Ok? && r.value.db == db && r.value.lease == l && db.row == Some(RowOf(l, now))
              case Err(e) => r == Err(e) && db.row == old(db.row)
      ensures r.Ok? <==> 240 <= seconds <= 900 && inScope && (old(db.row).Some? ==> old(db.row).value.expires <= now)
      ensures r.Ok? ==>
        var generation := if old(db.row).None? then 1 else old(db.row).value.generation + 1;
        db.row == Some(LeaseRow(company, owner, generation, now + seconds as real))
      ensures db.kv == old(db.kv) && db.sent == old(db.sent)
    {
      if !(240 <= seconds <= 900) {
        return Err(BadSeconds);
      }
      if !inScope {
        return Err(OutsideScope);
      }
      if db.row.Some? && db.row.value.expires > now {
        return Err(JobBusy);
      }
      var generation := if db.row.Some? then db.row.value.generation + 1 else 1;
      db.row := Some(LeaseRow(company, owner, generation, now + seconds as real));
      var lease := new JobLease(db, Lease(company, owner, generation, seconds));
      return Ok(lease);
    }

    /** check(renew=True) inside the transaction of the write it protects. */
    method CheckHeld(now: Clock) returns (r: Result<(), Stopped>)
      modifies db
      ensures match Check(old(db.row), lease, now)
              case Ok(renewed) => r == Ok(()) && db.row == Some(renewed)
              case Err(e) => r == Err(e) && db.row == old(db.row)
      ensures r.Ok? <==>
        && old(db.row).Some? && old(db.row).value.expires > now
        && old(db.row).value == LeaseRow(lease.company, lease.owner, lease.generation, old(db.row).value.expires)
      ensures r.Ok? ==>
        db.row == Some(LeaseRow(lease.company, lease.owner, lease.generation, now + lease.seconds as real))
      ensures db.kv == old(db.kv) && db.sent == old(db.sent)
    {
      if db.row.None? {
        return Err(LeaseLost);
      }
      var row := db.row.value;
      if row.owner != lease.owner || row.generation != lease.generation || row.company != lease.company
         || row.expires <= now {
        return Err(LeaseLost);
      }
      db.row := Some(row.(expires := now + lease.seconds as real));
      return Ok(());
    }

    method Release()
      modifies db
      ensures db.row == Released(old(db.row), lease)
      ensures db.row ==
        if old(db.row).Some? && old(db.row).value.owner == lease.owner
           && old(db.row).value.generation == lease.generation
        then Some(old(db.row).value.(expires := 0.0))
        else old(db.row)
      ensures db.kv == old(db.kv) && db.sent == old(db.sent)
    {
      if db.row.Some? && db.row.value.owner == lease.owner && db.row.value.generation == lease.generation {
        db.row := Some(db.row.value.(expires := 0.0));
      }
    }
  }

  /** The service's charged channel to the model: state['calls'] in memory, saved before transport. */
  class ModelChannel {
    const held: JobLease
    const limits: Counts
    var calls: Counts

    constructor (held: JobLease, limits: Counts)
      ensures this.held == held && this.limits == limits && calls == held.db.kv
    {
      this.held, this.limits, calls := held, limits, held.db.kv;
    }

    /** _save: the lease check and the checkpoint write share one transaction. */
    method Save(now: Clock) returns (r: Result<(), Stopped>)
      modifies held.db
      ensures match Check(old(held.db.row), held.lease, now)
              case Ok(renewed) => r == Ok(()) && held.db.row == Some(renewed) && held.db.kv == calls
              case Err(e) => r == Err(e) && held.db.row == old(held.db.row) && held.db.kv == old(held.db.kv)
      ensures held.db.sent == old(held.db.sent)
    {
      r := held.CheckHeld(now);
      if r.Ok? {
        held.db.kv := calls;
      }
    }

    /** One charged call: refuse, or count, save, and only then transport. */
    method Call(p: Phase, now: Clock) returns (r: Result<(), Stopped>)
      modifies this, held.db
      ensures p !in limits || Get(old(calls), p) >= limits[p] ==>
        && r == Err(BudgetStopped) && calls == old(calls)
        && held.db.row == old(held.db.row) && held.db.kv == old(held.db.kv) && held.db.sent == old(held.db.sent)
      ensures p in limits && Get(old(calls), p) < limits[p] ==>
        && calls == old(calls)[p := Get(old(calls), p) + 1]
        && match Check(old(held.db.row), held.lease, now)
           case Err(e) =>
             && r == Err(e) && held.db.row == old(held.db.row)
             && held.db.kv == old(held.db.kv) && held.db.sent == old(held.db.sent)
           case Ok(renewed) =>
             && r == Ok(()) && held.db.row == Some(renewed) && held.db.kv == calls
             && held.db.sent == old(held.db.sent)[p := Get(old(held.db.sent), p) + 1]
    {
      if p !in limits || Get(calls, p) >= limits[p] {
        return Err(BudgetStopped);
      }
      calls := calls[p := Get(calls, p) + 1];
      r := Save(now);
      if r.Ok? {
        held.db.sent := held.db.sent[p := Get(held.db.sent, p) + 1];
      }
    }
  }
}
