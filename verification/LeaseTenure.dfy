/** Who holds the job and for how long: over runs whose clock does not go back, a lease cannot be
    taken from a holder that renews it in time, and is free as soon as it is released or expired
    (app/document_read/execution.py). */
module LeaseTenure {
  import opened Wrappers
  import opened JobLeases
  import opened ChargedCalls

  // ---- Clocks -------------------------------------------------------------

  predicate Timed(op: Op) {
    op.Take? || op.SaveCheckpoint? || op.OtherFencedWrite?
  }

  /** Every clock reading of the run is at most t. */
  predicate UpTo(ops: seq<Op>, t: Clock) {
    forall i :: 0 <= i < |ops| && Timed(ops[i]) ==> ops[i].now <= t
  }

  /** The clock does not go back. */
  predicate Forward(ops: seq<Op>) {
    forall i, j :: 0 <= i < j < |ops| && Timed(ops[i]) && Timed(ops[j]) ==> ops[i].now <= ops[j].now
  }

  // ---- Tenures ------------------------------------------------------------

  /** The worker still holds the generation that the lease row names. */
  ghost predicate Holder(s: System, id: WorkerId) {
    id in s.workers && s.row.Some? && s.row.value.generation == s.workers[id].lease.generation
  }

  /** A holder's row carries its company and owner, and was last written by time t at the latest. */
  ghost predicate TenureInv(s: System, t: Clock) {
    forall id :: Holder(s, id) ==>
      && s.row.value.company == s.workers[id].lease.company && s.row.value.owner == s.workers[id].lease.owner
      && s.row.value.expires <= t + s.workers[id].lease.seconds as real
      && 240 <= s.workers[id].lease.seconds <= 900
  }

  /** What a step does to the leases of the workers: only a take hands out a new one, under a
      generation beyond the row's. */
  lemma LeaseStep(s: System, op: Op, id: WorkerId)
    requires id in Next(s, op).workers
    ensures
      || (id in s.workers && Next(s, op).workers[id].lease == s.workers[id].lease)
      || (&& op.Take? && id == op.id && 240 <= op.seconds <= 900
          && Next(s, op).workers[id].lease ==
               Lease(op.company, op.owner, if s.row.None? then 1 else s.row.value.generation + 1, op.seconds)
          && Next(s, op).row == Some(RowOf(Next(s, op).workers[id].lease, op.now)))
  {
  }

  /** What a step does to the row: a take or a fenced write of the holder writes it by its own clock,
      a release expires it and ends the holder. */
  lemma RowStep(s: System, op: Op)
    ensures
      var u := Next(s, op);
      || u.row == s.row
      || (op.Take? && op.id in u.workers && u.row == Some(RowOf(u.workers[op.id].lease, op.now))
          && u.workers[op.id].lease.generation == if s.row.None? then 1 else s.row.value.generation + 1)
      || (&& (op.SaveCheckpoint? || op.OtherFencedWrite?) && op.id in s.workers && Holds(s.row, s.workers[op.id].lease, op.now)
          && u.row == Some(s.row.value.(expires := op.now + s.workers[op.id].lease.seconds as real)))
      || (&& op.Release? && op.id in s.workers && op.id !in u.workers && s.row.Some?
          && s.row.value.owner == s.workers[op.id].lease.owner
          && s.row.value.generation == s.workers[op.id].lease.generation
          && u.row == Some(s.row.value.(expires := 0.0)))
  {
  }

  /** There is one holder at most. */
  lemma OneHolder(s: System, x: WorkerId, y: WorkerId)
    requires SystemInv(s) && Holder(s, x) && Holder(s, y)
    ensures x == y
  {
  }

  lemma TenureStep(s: System, op: Op, t: Clock)
    requires SystemInv(s) && TenureInv(s, t) && (Timed(op) ==> op.now <= t)
    ensures TenureInv(Next(s, op), t)
  {
    hide SystemInv, Next;
    var u := Next(s, op);
    RowStep(s, op);
    forall id | Holder(u, id) ensures
      && u.row.value.company == u.workers[id].lease.company && u.row.value.owner == u.workers[id].lease.owner
      && u.row.value.expires <= t + u.workers[id].lease.seconds as real
      && 240 <= u.workers[id].lease.seconds <= 900
    {
      LeaseStep(s, op, id);
      if id in s.workers { LeaseAhead(s, id); }
      if id in s.workers && u.workers[id].lease == s.workers[id].lease && u.row != s.row && !op.Take? {
        assert Holder(s, id) && Holder(s, op.id);
        OneHolder(s, id, op.id);
      }
    }
  }

  /** No worker is ahead of the row. */
  lemma LeaseAhead(s: System, id: WorkerId)
    requires SystemInv(s) && id in s.workers
    ensures s.row.Some? && s.workers[id].lease.generation <= s.row.value.generation
  {
  }

  lemma {:induction false} TenureRun(ops: seq<Op>, t: Clock)
    requires UpTo(ops, t)
    ensures TenureInv(Run(BLANK, ops), t)
  {
    hide TenureInv, SystemInv, Next;
    if ops == [] {
      NobodyHolds(t);
    } else {
      TenureRun(ops[..|ops|-1], t);
      BlankInv();
      RunKeeps(BLANK, ops[..|ops|-1]);
      TenureStep(Run(BLANK, ops[..|ops|-1]), ops[|ops|-1], t);
    }
  }

  lemma NobodyHolds(t: Clock)
    ensures TenureInv(BLANK, t)
  {
  }

  /** The lease of a holder, over one step after which the worker still has that lease. */
  lemma HolderStep(s: System, op: Op, id: WorkerId, t: Clock)
    requires SystemInv(s) && TenureInv(s, t) && Holder(s, id)
    requires Timed(op) ==> t <= op.now < s.row.value.expires
    requires id in Next(s, op).workers && Next(s, op).workers[id].lease == s.workers[id].lease
    ensures Holder(Next(s, op), id) && Next(s, op).row.value.expires >= s.row.value.expires
  {
    hide SystemInv;
    RowStep(s, op);
    if Next(s, op).row != s.row && !op.Take? {
      assert Holder(s, op.id);
      OneHolder(s, id, op.id);
    }
    hide TenureInv;
    HeldNotTaken(s, op);
    hide Next;
  }

  /** A take before the expiry changes nothing. */
  lemma HeldNotTaken(s: System, op: Op)
    requires op.Take? ==> s.row.Some? && op.now < s.row.value.expires
    ensures op.Take? ==> Next(s, op) == s
  {
  }

  /** A lease is never given out twice: a worker that has it after the step had it before. */
  lemma SameTenure(s: System, op: Op, id: WorkerId, lease: Lease)
    requires s.row.Some? && lease.generation <= s.row.value.generation
    requires id in Next(s, op).workers && Next(s, op).workers[id].lease == lease
    ensures id in s.workers && s.workers[id].lease == lease
  {
    LeaseStep(s, op, id);
  }

  /** Generations never decrease. */
  lemma {:induction false} RowGrows(s: System, ops: seq<Op>)
    ensures s.row.Some? ==>
      Run(s, ops).row.Some? && s.row.value.generation <= Run(s, ops).row.value.generation
  {
    hide Next;
    if ops != [] {
      RowGrows(s, ops[..|ops|-1]);
      RowStep(Run(s, ops[..|ops|-1]), ops[|ops|-1]);
    }
  }

  lemma {:induction false} RunConcat(s: System, a: seq<Op>, b: seq<Op>)
    ensures Run(s, a + b) == Run(Run(s, a), b)
  {
    hide Next;
    if b == [] {
      assert a + b == a;
    } else {
      RunConcat(s, a, b[..|b|-1]);
      assert (a + b)[..|a + b|-1] == a + b[..|b|-1];
    }
  }

  lemma StepFacts(ops: seq<Op>, op: Op)
    ensures Run(BLANK, ops + [op]) == Next(Run(BLANK, ops), op)
    ensures SystemInv(Run(BLANK, ops))
  {
    hide SystemInv, Next;
    assert (ops + [op])[..|ops|] == ops;
    BlankInv();
    RunKeeps(BLANK, ops);
  }

  /** A worker that holds the lease keeps it: whatever the others do, as long as no clock reading
      reaches the expiry it last wrote and it neither releases the lease nor stops, the row stays
      under its generation, the expiry only moves up, and its own checks pass until then. In
      particular no other worker has taken the lease. */
  lemma {:induction false} HolderKeepsLease(ops: seq<Op>, more: seq<Op>, id: WorkerId)
    requires Forward(ops + more) && Holder(Run(BLANK, ops), id)
    requires forall i :: 0 <= i < |more| && Timed(more[i]) ==> more[i].now < Run(BLANK, ops).row.value.expires
    requires
      var s, u := Run(BLANK, ops), Run(BLANK, ops + more);
      id in u.workers && u.workers[id].lease == s.workers[id].lease
    ensures
      var s, u := Run(BLANK, ops), Run(BLANK, ops + more);
      && Holder(u, id) && u.row.value.expires >= s.row.value.expires
      && u.row.value.company == s.workers[id].lease.company && u.row.value.owner == s.workers[id].lease.owner
      && forall now: Clock :: now < s.row.value.expires ==> Check(u.row, u.workers[id].lease, now).Ok?
    decreases |more|
  {
    hide SystemInv, Next, Holder, TenureInv;
    var s := Run(BLANK, ops);
    if more == [] {
      assert ops + more == ops;
    } else {
      var before, op := more[..|more|-1], more[|more|-1];
      var m := Run(BLANK, ops + before);
      assert ops + more == (ops + before) + [op];
      StepFacts(ops + before, op);
      RowGrows(s, before);
      RunConcat(BLANK, ops, before);
      HolderRow(s, id);
      SameTenure(m, op, id, s.workers[id].lease);
      ForwardBefore(ops + before, op);
      HolderKeepsLease(ops, before, id);
      if Timed(op) {
        TenureRun(ops + before, op.now);
        HolderStep(m, op, id, op.now);
      } else {
        var t := LatestTime(ops + before);
        TenureRun(ops + before, t);
        HolderStep(m, op, id, t);
      }
    }
    LatestHolder(ops + more, id);
  }

  lemma HolderRow(s: System, id: WorkerId)
    requires Holder(s, id)
    ensures id in s.workers && s.row.Some? && s.row.value.generation == s.workers[id].lease.generation
  {
  }

  lemma ForwardBefore(ops: seq<Op>, op: Op)
    requires Forward(ops + [op])
    ensures Forward(ops) && (Timed(op) ==> UpTo(ops, op.now))
  {
    forall i, j | 0 <= i < j < |ops| && Timed(ops[i]) && Timed(ops[j]) ensures ops[i].now <= ops[j].now {
      assert (ops + [op])[i] == ops[i] && (ops + [op])[j] == ops[j];
    }
    if Timed(op) {
      forall i | 0 <= i < |ops| && Timed(ops[i]) ensures ops[i].now <= op.now {
        assert (ops + [op])[i] == ops[i] && (ops + [op])[|ops|] == op;
      }
    }
  }

  /** Some time at or after every clock reading of the run. */
  function LatestTime(ops: seq<Op>): (t: Clock)
    ensures UpTo(ops, t)
  {
    if ops == [] then 0.0
    else
      var t := LatestTime(ops[..|ops|-1]);
      if Timed(ops[|ops|-1]) && ops[|ops|-1].now > t then ops[|ops|-1].now else t
  }

  lemma LatestHolder(ops: seq<Op>, id: WorkerId)
    requires Holder(Run(BLANK, ops), id)
    ensures
      var s := Run(BLANK, ops);
      && id in s.workers && s.row.Some? && s.row.value.generation == s.workers[id].lease.generation
      && s.row.value.company == s.workers[id].lease.company && s.row.value.owner == s.workers[id].lease.owner
  {
    TenureRun(ops, LatestTime(ops));
  }

  /** A lease is taken exactly when its expiry has passed, and then by the next generation: no worker
      takes the job from a holder whose row still stands, and none is kept from a free job. */
  lemma TakenExactlyWhenFree(s: System, op: Op)
    requires op.Take? && op.id !in s.workers
    requires forall x :: x in s.workers ==> s.workers[x].lease.owner != op.owner
    requires forall i :: 0 <= i < |s.writes| ==> s.writes[i].owner != op.owner
    ensures
      var u := Next(s, op);
      if 240 <= op.seconds <= 900 && (s.row.None? || s.row.value.expires <= op.now) then
        var generation := if s.row.None? then 1 else s.row.value.generation + 1;
        && u.row == Some(LeaseRow(op.company, op.owner, generation, op.now + op.seconds as real))
        && u == s.(row := u.row, workers := s.workers[op.id :=
             Worker(Lease(op.company, op.owner, generation, op.seconds), op.limits, None, None, None, map[], 0)])
      else u == s
  {
  }

  /** A holder's release frees the job at once: the next worker need not wait for the expiry. */
  lemma ReleaseFrees(ops: seq<Op>, id: WorkerId, next: Op)
    requires Holder(Run(BLANK, ops), id)
    requires next.Take? && next.now >= 0.0 && 240 <= next.seconds <= 900
    ensures Acquire(Run(BLANK, ops + [Release(id)]).row, true, next.company, next.owner, next.seconds, next.now).Ok?
  {
    hide SystemInv;
    StepFacts(ops, Release(id));
    LatestHolder(ops, id);
  }
}
