/** Any number of workers over one job: they take the lease, load the checkpoint, charge, save,
    transport, release and crash in any order, under an arbitrary clock
    (app/document_read/execution.py, app/document_read/service.py). */
module ChargedCalls {
  import opened Wrappers
  import opened JobLeases

  type WorkerId = string

  /** One run: `memory` is what it loaded and charged since, `pending` a charge not yet saved and
      `charged` a saved one whose transport has not started. `loaded` and `made` are history. */
  datatype Worker = Worker(lease: Lease, limits: Counts, memory: Option<Counts>, pending: Option<Phase>,
                           charged: Option<Phase>, loaded: Counts, made: nat)

  /** A committed fenced write. */
  datatype Write = Write(generation: int, owner: string)

  datatype System = System(row: Option<LeaseRow>, kv: Counts, workers: map<WorkerId, Worker>, sent: Counts, writes: seq<Write>)

  const BLANK := System(None, map[], map[], map[], [])

  datatype Op =
    | Take(id: WorkerId, company: string, owner: string, seconds: int, limits: Counts, now: Clock)
    | LoadCheckpoint(id: WorkerId)
    | ChargeCall(id: WorkerId, phase: Phase)
    | SaveCheckpoint(id: WorkerId, now: Clock)
    | OtherFencedWrite(id: WorkerId, now: Clock)
    | Transport(id: WorkerId)
    | Release(id: WorkerId)
    | Crash(id: WorkerId)

  function Lose(s: System, id: WorkerId): System {
    s.(workers := s.workers - {id})
  }

  /** A fenced write by a worker: renewed and recorded, or the worker is lost. */
  function Fenced(s: System, id: WorkerId, now: Clock, kv: Counts, after: Worker): System
    requires id in s.workers
  {
    match Check(s.row, s.workers[id].lease, now)
    case Err(_) => Lose(s, id)
    case Ok(renewed) =>
      s.(row := Some(renewed), kv := kv, workers := s.workers[id := after],
         writes := s.writes + [Write(renewed.generation, renewed.owner)])
  }

  /** One step; a step that does not fit changes nothing. Owners are fresh identifiers. */
  function Next(s: System, op: Op): System {
    match op
    case Take(id, company, owner, seconds, limits, now) =>
      if id in s.workers || (exists x :: x in s.workers && s.workers[x].lease.owner == owner)
         || (exists i :: 0 <= i < |s.writes| && s.writes[i].owner == owner) then s
      else
        (match Acquire(s.row, true, company, owner, seconds, now)
         case Err(_) => s
         case Ok(lease) =>
           s.(row := Some(RowOf(lease, now)), workers := s.workers[id := Worker(lease, limits, None, None, None, map[], 0)]))
    case LoadCheckpoint(id) =>
      if id !in s.workers || s.workers[id].memory.Some? then s
      else s.(workers := s.workers[id := s.workers[id].(memory := Some(s.kv), loaded := s.kv)])
    case ChargeCall(id, p) =>
      if id !in s.workers || s.workers[id].memory.None? || s.workers[id].pending.Some? || s.workers[id].charged.Some? then s
      else
        var w := s.workers[id];
        (match Charge(w.memory.value, w.limits, p)
         case Err(_) => Lose(s, id)
         case Ok(c) => s.(workers := s.workers[id := w.(memory := Some(c), pending := Some(p))]))
    case SaveCheckpoint(id, now) =>
      if id !in s.workers || s.workers[id].memory.None? then s
      else
        var w := s.workers[id];
        Fenced(s, id, now, w.memory.value, if w.pending.Some? then w.(pending := None, charged := w.pending) else w)
    case OtherFencedWrite(id, now) =>
      if id !in s.workers then s else Fenced(s, id, now, s.kv, s.workers[id])
    case Transport(id) =>
      if id !in s.workers || s.workers[id].charged.None? then s
      else
        var w := s.workers[id];
        var p := w.charged.value;
        s.(workers := s.workers[id := w.(charged := None, made := w.made + 1)], sent := s.sent[p := Get(s.sent, p) + 1])
    case Release(id) =>
      if id !in s.workers then s else Lose(s, id).(row := Released(s.row, s.workers[id].lease))
    case Crash(id) => Lose(s, id)
  }

  function Run(s: System, ops: seq<Op>): System {
    if ops == [] then s else Next(Run(s, ops[..|ops|-1]), ops[|ops|-1])
  }

  // ---- Invariant ----------------------------------------------------------

  /** One owner per generation, and no worker ahead of the lease row. */
  ghost predicate LeaseInv(row: Option<LeaseRow>, workers: map<WorkerId, Worker>) {
    && (forall x :: x in workers ==>
          && row.Some? && workers[x].lease.generation <= row.value.generation
          && (workers[x].lease.generation == row.value.generation ==> workers[x].lease.owner == row.value.owner))
    && (forall x, y :: x in workers && y in workers && workers[x].lease.generation == workers[y].lease.generation ==> x == y)
  }

  /** Committed writes: generations never decrease, one owner each, none ahead of the row. */
  ghost predicate WritesInv(row: Option<LeaseRow>, writes: seq<Write>) {
    && (forall i :: 0 <= i < |writes| ==> row.Some? && writes[i].generation <= row.value.generation)
    && (forall i, j :: 0 <= i < j < |writes| ==> writes[i].generation <= writes[j].generation)
    && (forall i, j :: 0 <= i < j < |writes| && writes[i].generation == writes[j].generation ==>
          writes[i].owner == writes[j].owner)
    && (forall i :: 0 <= i < |writes| && writes[i].generation == row.value.generation ==>
          writes[i].owner == row.value.owner)
  }

  /** What the checkpoint holds when this worker's charge is not saved yet. */
  predicate InSync(kv: Counts, w: Worker) {
    w.memory.Some? ==>
      w.memory.value == if w.pending.Some? then kv[w.pending.value := Get(kv, w.pending.value) + 1] else kv
  }

  ghost predicate WorkerInv(row: Option<LeaseRow>, kv: Counts, w: Worker) {
    && (w.pending.Some? ==> w.charged.None? && w.memory.Some?)
    && (w.charged.Some? ==> w.memory.Some?)
    && (row.Some? && w.lease.generation == row.value.generation ==> InSync(kv, w))
    && (w.pending.Some? ==> w.pending.value in w.limits && Get(w.memory.value, w.pending.value) <= w.limits[w.pending.value])
    && (w.charged.Some? ==>
          && w.charged.value in w.limits
          && Get(w.memory.value, w.charged.value) <= w.limits[w.charged.value]
          && Get(w.memory.value, w.charged.value) <= Get(kv, w.charged.value))
    && (if w.memory.Some? then w.made + Outstanding(w) + Remaining(w.limits, w.memory.value) == Remaining(w.limits, w.loaded)
        else w.made == 0)
  }

  ghost predicate WorkersInv(row: Option<LeaseRow>, kv: Counts, workers: map<WorkerId, Worker>) {
    forall x :: x in workers ==> WorkerInv(row, kv, workers[x])
  }

  function Outstanding(w: Worker): nat {
    if w.pending.Some? || w.charged.Some? then 1 else 0
  }

  function Left(limits: Counts, c: Counts, p: Phase): nat {
    if p in limits && limits[p] > Get(c, p) then limits[p] - Get(c, p) else 0
  }

  /** The calls that the limits still allow, over all phases. */
  function Remaining(limits: Counts, c: Counts): nat {
    Left(limits, c, Classify) + Left(limits, c, Attribute) + Left(limits, c, Extract) + Left(limits, c, Plan) +
    Left(limits, c, LeafPhase) + Left(limits, c, ReviewPhase) + Left(limits, c, PublishPhase)
  }

  function ChargedIn(workers: map<WorkerId, Worker>, p: Phase): set<WorkerId> {
    set x | x in workers && workers[x].charged == Some(p)
  }

  /** The saved count covers every transport started and every saved charge still to be sent. */
  ghost predicate CountsInv(kv: Counts, sent: Counts, workers: map<WorkerId, Worker>) {
    forall p :: Get(kv, p) >= Get(sent, p) + |ChargedIn(workers, p)|
  }

  ghost predicate SystemInv(s: System) {
    && LeaseInv(s.row, s.workers) && WritesInv(s.row, s.writes)
    && CountsInv(s.kv, s.sent, s.workers) && WorkersInv(s.row, s.kv, s.workers)
  }

  lemma BlankInv()
    ensures SystemInv(BLANK)
  {
    assert forall p :: ChargedIn(BLANK.workers, p) == {};
  }

  /** Every saved count only grows. */
  ghost predicate CountsGrow(s: System, t: System) {
    forall p :: Get(s.kv, p) <= Get(t.kv, p)
  }

  // ---- Each part under an update ------------------------------------------

  /** Of the workers with a given charge, only this one may have changed. */
  lemma ChargedUpdate(workers: map<WorkerId, Worker>, id: WorkerId, w: Worker, p: Phase)
    ensures |ChargedIn(workers[id := w], p)| <= |ChargedIn(workers, p)| + if w.charged == Some(p) then 1 else 0
    ensures id in workers && workers[id].charged == Some(p) && w.charged != Some(p) ==>
      |ChargedIn(workers[id := w], p)| == |ChargedIn(workers, p)| - 1
    ensures id in workers && workers[id].charged == w.charged ==>
      ChargedIn(workers[id := w], p) == ChargedIn(workers, p)
  {
    assert ChargedIn(workers[id := w], p) ==
           if w.charged == Some(p) then ChargedIn(workers, p) + {id} else ChargedIn(workers, p) - {id};
  }

  lemma SubsetSize<T>(a: set<T>, b: set<T>)
    requires a <= b
    ensures |a| <= |b|
  {
    if a != {} {
      var x :| x in a;
      SubsetSize(a - {x}, b - {x});
    }
  }

  lemma LoseKeeps(s: System, id: WorkerId, row: Option<LeaseRow>)
    requires SystemInv(s)
    requires row == s.row || (s.row.Some? && row == Some(s.row.value.(expires := 0.0)))
    ensures SystemInv(Lose(s, id).(row := row))
  {
    forall p ensures Get(s.kv, p) >= Get(s.sent, p) + |ChargedIn(s.workers - {id}, p)| {
      SubsetSize(ChargedIn(s.workers - {id}, p), ChargedIn(s.workers, p));
    }
  }

  /** The worker's row and lease stay; its own state may change. */
  lemma LeaseUpdate(row: Option<LeaseRow>, renewed: Option<LeaseRow>, workers: map<WorkerId, Worker>, id: WorkerId,
                    w: Worker)
    requires LeaseInv(row, workers) && id in workers && w.lease == workers[id].lease
    requires renewed == row || (row.Some? && renewed.Some? && renewed.value == row.value.(expires := renewed.value.expires))
    ensures LeaseInv(renewed, workers[id := w])
  {
  }

  lemma WritesRenewed(row: Option<LeaseRow>, renewed: LeaseRow, writes: seq<Write>)
    requires WritesInv(row, writes) && row.Some? && renewed == row.value.(expires := renewed.expires)
    ensures WritesInv(Some(renewed), writes + [Write(renewed.generation, renewed.owner)])
  {
  }

  /** The counts saved by the holder: everyone else's bounds still hold. */
  lemma WorkersSaved(row: LeaseRow, renewed: LeaseRow, kv: Counts, kv': Counts, workers: map<WorkerId, Worker>,
                     id: WorkerId, w: Worker)
    requires WorkersInv(Some(row), kv, workers) && LeaseInv(Some(row), workers) && id in workers
    requires w.lease == workers[id].lease && w.lease.generation == row.generation
             && renewed == row.(expires := renewed.expires)
    requires WorkerInv(Some(renewed), kv', w) && forall p :: Get(kv, p) <= Get(kv', p)
    ensures WorkersInv(Some(renewed), kv', workers[id := w])
  {
    hide Remaining;
    forall x | x in workers && x != id ensures WorkerInv(Some(renewed), kv', workers[x]) {
      assert WorkerInv(Some(row), kv, workers[x]);
      assert workers[x].lease.generation != row.generation;
    }
  }

  lemma WorkersUpdate(row: Option<LeaseRow>, kv: Counts, workers: map<WorkerId, Worker>, id: WorkerId, w: Worker)
    requires WorkersInv(row, kv, workers) && WorkerInv(row, kv, w)
    ensures WorkersInv(row, kv, workers[id := w])
  {
    hide WorkerInv;
  }

  lemma CountsUpdate(kv: Counts, sent: Counts, workers: map<WorkerId, Worker>, id: WorkerId, w: Worker)
    requires CountsInv(kv, sent, workers) && id in workers && w.charged == workers[id].charged
    ensures CountsInv(kv, sent, workers[id := w])
  {
    forall p ensures Get(kv, p) >= Get(sent, p) + |ChargedIn(workers[id := w], p)| {
      ChargedUpdate(workers, id, w, p);
    }
  }

  /** Saving a charge: one more count, and one more transport that may start. */
  lemma CountsSaved(kv: Counts, kv': Counts, sent: Counts, workers: map<WorkerId, Worker>, id: WorkerId, w: Worker,
                    p: Phase)
    requires CountsInv(kv, sent, workers) && id in workers && w.charged == Some(p)
    requires kv' == kv[p := Get(kv, p) + 1]
    ensures CountsInv(kv', sent, workers[id := w])
  {
    forall q ensures Get(kv', q) >= Get(sent, q) + |ChargedIn(workers[id := w], q)| {
      ChargedUpdate(workers, id, w, q);
    }
  }

  /** A transport starts for a saved charge. */
  lemma CountsSent(kv: Counts, sent: Counts, workers: map<WorkerId, Worker>, id: WorkerId, p: Phase, w: Worker)
    requires CountsInv(kv, sent, workers) && id in workers && workers[id].charged == Some(p) && w.charged.None?
    ensures CountsInv(kv, sent[p := Get(sent, p) + 1], workers[id := w])
  {
    forall q ensures Get(kv, q) >= Get(sent[p := Get(sent, p) + 1], q) + |ChargedIn(workers[id := w], q)| {
      ChargedUpdate(workers, id, w, q);
    }
  }

  lemma LeftCharged(limits: Counts, c: Counts, p: Phase, q: Phase)
    requires Charge(c, limits, p).Ok?
    ensures Left(limits, Charge(c, limits, p).value, q) == Left(limits, c, q) - if q == p then 1 else 0
  {
  }

  /** Each charge uses up exactly one of the remaining calls. */
  lemma ChargeRemaining(limits: Counts, c: Counts, p: Phase)
    requires Charge(c, limits, p).Ok?
    ensures Remaining(limits, Charge(c, limits, p).value) == Remaining(limits, c) - 1
    ensures Get(Charge(c, limits, p).value, p) <= limits[p]
  {
    hide Left;
    forall q ensures Left(limits, Charge(c, limits, p).value, q) == Left(limits, c, q) - if q == p then 1 else 0 {
      LeftCharged(limits, c, p, q);
    }
  }

  // ---- Each step ----------------------------------------------------------

  lemma TakeKeeps(s: System, op: Op)
    requires SystemInv(s) && op.Take?
    ensures SystemInv(Next(s, op)) && Next(s, op).kv == s.kv
  {
    var t := Next(s, op);
    if t != s {
      var w := t.workers[op.id];
      hide Remaining, ChargedIn;
      forall p ensures Get(t.kv, p) >= Get(t.sent, p) + |ChargedIn(t.workers, p)| {
        ChargedUpdate(s.workers, op.id, w, p);
      }
      TakenWorkers(s.row, t.row.value, s.kv, s.workers, op.id, w);
    }
  }

  lemma TakenWorkers(row: Option<LeaseRow>, taken: LeaseRow, kv: Counts, workers: map<WorkerId, Worker>,
                     id: WorkerId, w: Worker)
    requires LeaseInv(row, workers) && WorkersInv(row, kv, workers) && id !in workers
    requires taken.generation == (if row.Some? then row.value.generation + 1 else 1)
    requires w.lease.generation == taken.generation && w.lease.owner == taken.owner
    requires w == Worker(w.lease, w.limits, None, None, None, map[], 0)
    ensures LeaseInv(Some(taken), workers[id := w]) && WorkersInv(Some(taken), kv, workers[id := w])
  {
    hide Remaining;
    forall x | x in workers ensures WorkerInv(Some(taken), kv, workers[x]) {
      assert WorkerInv(row, kv, workers[x]);
    }
  }

  lemma WorkerOf(s: System, id: WorkerId)
    requires SystemInv(s) && id in s.workers
    ensures WorkerInv(s.row, s.kv, s.workers[id])
  {
  }

  /** A fenced save by the holder: the saved counts grow by its pending charge alone. */
  lemma SaveKeeps(s: System, id: WorkerId, now: Clock)
    requires SystemInv(s) && id in s.workers && s.workers[id].memory.Some?
    ensures SystemInv(Next(s, SaveCheckpoint(id, now))) && CountsGrow(s, Next(s, SaveCheckpoint(id, now)))
  {
    hide SystemInv, Remaining;
    if Holds(s.row, s.workers[id].lease, now) {
      HeldSaveKeeps(s, id, now);
    } else {
      LoseKeeps(s, id, s.row);
    }
  }

  lemma HeldSaveKeeps(s: System, id: WorkerId, now: Clock)
    requires SystemInv(s) && id in s.workers && s.workers[id].memory.Some? && Holds(s.row, s.workers[id].lease, now)
    ensures SystemInv(Next(s, SaveCheckpoint(id, now))) && CountsGrow(s, Next(s, SaveCheckpoint(id, now)))
  {
    hide Remaining, ChargedIn, LeaseInv, WritesInv, CountsInv, WorkersInv;
    WorkerOf(s, id);
    var w := s.workers[id];
    var kv := w.memory.value;
    var v := if w.pending.Some? then w.(pending := None, charged := w.pending) else w;
    var renewed := s.row.value.(expires := now + w.lease.seconds as real);
    LeaseUpdate(s.row, Some(renewed), s.workers, id, v);
    WritesRenewed(s.row, renewed, s.writes);
    WorkersSaved(s.row.value, renewed, s.kv, kv, s.workers, id, v);
    if w.pending.Some? {
      CountsSaved(s.kv, kv, s.sent, s.workers, id, v, w.pending.value);
    } else {
      CountsUpdate(s.kv, s.sent, s.workers, id, v);
    }
  }

  lemma OtherWriteKeeps(s: System, id: WorkerId, now: Clock)
    requires SystemInv(s) && id in s.workers
    ensures SystemInv(Next(s, OtherFencedWrite(id, now))) && Next(s, OtherFencedWrite(id, now)).kv == s.kv
  {
    hide SystemInv, Remaining;
    if Holds(s.row, s.workers[id].lease, now) {
      HeldWriteKeeps(s, id, now);
    } else {
      LoseKeeps(s, id, s.row);
    }
  }

  lemma HeldWriteKeeps(s: System, id: WorkerId, now: Clock)
    requires SystemInv(s) && id in s.workers && Holds(s.row, s.workers[id].lease, now)
    ensures SystemInv(Next(s, OtherFencedWrite(id, now)))
  {
    hide Remaining, ChargedIn, LeaseInv, WritesInv, CountsInv, WorkersInv;
    WorkerOf(s, id);
    var w := s.workers[id];
    var renewed := s.row.value.(expires := now + w.lease.seconds as real);
    LeaseUpdate(s.row, Some(renewed), s.workers, id, w);
    WritesRenewed(s.row, renewed, s.writes);
    WorkersSaved(s.row.value, renewed, s.kv, s.kv, s.workers, id, w);
    CountsUpdate(s.kv, s.sent, s.workers, id, w);
  }

  lemma TransportKeeps(s: System, id: WorkerId)
    requires SystemInv(s) && id in s.workers && s.workers[id].charged.Some?
    ensures SystemInv(Next(s, Transport(id))) && Next(s, Transport(id)).kv == s.kv
  {
    hide Remaining, ChargedIn, LeaseInv, WritesInv, CountsInv, WorkersInv;
    WorkerOf(s, id);
    var w := s.workers[id];
    var v := w.(charged := None, made := w.made + 1);
    LeaseUpdate(s.row, s.row, s.workers, id, v);
    WorkersUpdate(s.row, s.kv, s.workers, id, v);
    CountsSent(s.kv, s.sent, s.workers, id, w.charged.value, v);
  }

  lemma LoadKeeps(s: System, id: WorkerId)
    requires SystemInv(s) && id in s.workers && s.workers[id].memory.None?
    ensures SystemInv(Next(s, LoadCheckpoint(id)))
  {
    hide Remaining, ChargedIn, LeaseInv, WritesInv, CountsInv, WorkersInv;
    WorkerOf(s, id);
    var w := s.workers[id];
    var v := w.(memory := Some(s.kv), loaded := s.kv);
    LeaseUpdate(s.row, s.row, s.workers, id, v);
    WorkersUpdate(s.row, s.kv, s.workers, id, v);
    CountsUpdate(s.kv, s.sent, s.workers, id, v);
  }

  lemma ChargeKeeps(s: System, id: WorkerId, p: Phase)
    requires SystemInv(s) && id in s.workers && s.workers[id].memory.Some?
    requires s.workers[id].pending.None? && s.workers[id].charged.None?
    ensures SystemInv(Next(s, ChargeCall(id, p)))
  {
    hide Remaining, ChargedIn, LeaseInv, WritesInv, CountsInv, WorkersInv;
    var w := s.workers[id];
    if Charge(w.memory.value, w.limits, p).Ok? {
      WorkerOf(s, id);
      ChargeRemaining(w.limits, w.memory.value, p);
      var v := w.(memory := Some(Charge(w.memory.value, w.limits, p).value), pending := Some(p));
      LeaseUpdate(s.row, s.row, s.workers, id, v);
      WorkersUpdate(s.row, s.kv, s.workers, id, v);
      CountsUpdate(s.kv, s.sent, s.workers, id, v);
    } else {
      LoseKeeps(s, id, s.row);
    }
  }

  /** Every step keeps the invariant, and no step lowers a saved count. */
  lemma StepKeeps(s: System, op: Op)
    requires SystemInv(s)
    ensures SystemInv(Next(s, op)) && CountsGrow(s, Next(s, op))
  {
    hide SystemInv, Acquire, Fenced;
    match op
    case Take(_, _, _, _, _, _) => TakeKeeps(s, op);
    case LoadCheckpoint(id) => if Next(s, op) != s { LoadKeeps(s, id); }
    case ChargeCall(id, p) => if Next(s, op) != s { ChargeKeeps(s, id, p); }
    case SaveCheckpoint(id, now) => if id in s.workers && s.workers[id].memory.Some? { SaveKeeps(s, id, now); }
    case OtherFencedWrite(id, now) => if id in s.workers { OtherWriteKeeps(s, id, now); }
    case Transport(id) => if id in s.workers && s.workers[id].charged.Some? { TransportKeeps(s, id); }
    case Release(id) => if id in s.workers { LoseKeeps(s, id, Released(s.row, s.workers[id].lease)); }
    case Crash(id) => LoseKeeps(s, id, s.row);
  }

  lemma {:induction false} RunKeeps(s: System, ops: seq<Op>)
    requires SystemInv(s)
    ensures SystemInv(Run(s, ops)) && CountsGrow(s, Run(s, ops))
  {
    hide SystemInv, Next;
    if ops != [] {
      RunKeeps(s, ops[..|ops|-1]);
      StepKeeps(Run(s, ops[..|ops|-1]), ops[|ops|-1]);
    }
  }

  // ---- Promises -----------------------------------------------------------

  /** In every interleaving the committed fenced writes come in generation order, with one owner
      per generation: a checkpoint is never overwritten by an older generation. */
  lemma FencingOrder(ops: seq<Op>, i: int, j: int)
    requires 0 <= i < j < |Run(BLANK, ops).writes|
    ensures
      var writes := Run(BLANK, ops).writes;
      && writes[i].generation <= writes[j].generation
      && (writes[i].generation == writes[j].generation ==> writes[i].owner == writes[j].owner)
  {
    BlankInv();
    RunKeeps(BLANK, ops);
    hide Run;
  }

  /** At every point of every interleaving the saved count of a phase covers the transports made
      in it; so does a retry, a resume or a crash, since no step lowers a saved count. */
  lemma ChargedBeforeCall(ops: seq<Op>, more: seq<Op>, p: Phase)
    ensures
      var s := Run(BLANK, ops);
      var t := Run(s, more);
      && Get(s.sent, p) <= Get(s.kv, p)
      && Get(s.kv, p) <= Get(t.kv, p) && Get(t.sent, p) <= Get(t.kv, p)
  {
    BlankInv();
    RunKeeps(BLANK, ops);
    RunKeeps(Run(BLANK, ops), more);
    hide Run;
  }

  /** A run makes no more transports than its limits left when it loaded the checkpoint: each
      charge uses up one of them, and nothing gives one back. */
  lemma RunIsBounded(ops: seq<Op>, id: WorkerId)
    requires id in Run(BLANK, ops).workers
    ensures
      var w := Run(BLANK, ops).workers[id];
      && (w.memory.Some? ==> w.made + Outstanding(w) + Remaining(w.limits, w.memory.value) == Remaining(w.limits, w.loaded))
      && (w.memory.None? ==> w.made == 0)
      && (w.charged.Some? ==>
            && w.charged.value in w.limits
            && w.memory.Some?
            && Get(w.memory.value, w.charged.value) <= w.limits[w.charged.value]
            && Get(w.memory.value, w.charged.value) <= Get(Run(BLANK, ops).kv, w.charged.value))
  {
    BlankInv();
    RunKeeps(BLANK, ops);
    hide Run;
    assert WorkerInv(Run(BLANK, ops).row, Run(BLANK, ops).kv, Run(BLANK, ops).workers[id]);
  }

  /** All runs of the job allow at most n calls in the phase. */
  predicate Allows(ops: seq<Op>, p: Phase, n: nat) {
    forall i :: 0 <= i < |ops| && ops[i].Take? && p in ops[i].limits ==> ops[i].limits[p] <= n
  }

  predicate WorkerWithin(w: Worker, p: Phase, n: nat) {
    && (p in w.limits ==> w.limits[p] <= n)
    && (w.memory.Some? ==> Get(w.memory.value, p) <= n)
  }

  ghost predicate Within(s: System, p: Phase, n: nat) {
    Get(s.kv, p) <= n && forall x :: x in s.workers ==> WorkerWithin(s.workers[x], p, n)
  }

  lemma {:induction false} StaysWithin(ops: seq<Op>, p: Phase, n: nat)
    requires Allows(ops, p, n)
    ensures Within(Run(BLANK, ops), p, n)
  {
    if ops != [] {
      StaysWithin(ops[..|ops|-1], p, n);
      StepWithin(Run(BLANK, ops[..|ops|-1]), ops[|ops|-1], p, n);
    }
  }

  lemma StepWithin(s: System, op: Op, p: Phase, n: nat)
    requires Within(s, p, n) && (op.Take? && p in op.limits ==> op.limits[p] <= n)
    ensures Within(Next(s, op), p, n)
  {
    if op.SaveCheckpoint? {
      SaveWithin(s, op, p, n);
    } else if op.ChargeCall? {
      ChargeStepWithin(s, op, p, n);
    } else {
      OtherStepWithin(s, op, p, n);
    }
  }

  lemma SaveWithin(s: System, op: Op, p: Phase, n: nat)
    requires Within(s, p, n) && op.SaveCheckpoint?
    ensures Within(Next(s, op), p, n)
  {
    hide Check;
    assert op.id in s.workers ==> WorkerWithin(s.workers[op.id], p, n);
  }

  lemma ChargeStepWithin(s: System, op: Op, p: Phase, n: nat)
    requires Within(s, p, n) && op.ChargeCall?
    ensures Within(Next(s, op), p, n)
  {
    if op.id in s.workers && s.workers[op.id].memory.Some?
       && Charge(s.workers[op.id].memory.value, s.workers[op.id].limits, op.phase).Ok? {
      ChargeWithin(s.workers[op.id], op.phase, p, n);
    }
    hide Charge;
  }

  lemma OtherStepWithin(s: System, op: Op, p: Phase, n: nat)
    requires Within(s, p, n) && (op.Take? && p in op.limits ==> op.limits[p] <= n)
    requires !op.SaveCheckpoint? && !op.ChargeCall?
    ensures Within(Next(s, op), p, n)
  {
    hide Acquire, Check, Released, Charge;
  }

  lemma ChargeWithin(w: Worker, q: Phase, p: Phase, n: nat)
    requires WorkerWithin(w, p, n) && w.memory.Some? && Charge(w.memory.value, w.limits, q).Ok?
    ensures WorkerWithin(w.(memory := Some(Charge(w.memory.value, w.limits, q).value), pending := Some(q)), p, n)
  {
  }

  /** However many workers, crashes and retries a job sees, the transports of a phase never exceed
      the largest limit that any of its runs was given. */
  lemma BudgetNeverExceeded(ops: seq<Op>, p: Phase, n: nat)
    requires Allows(ops, p, n)
    ensures Get(Run(BLANK, ops).sent, p) <= n
  {
    StaysWithin(ops, p, n);
    ChargedBeforeCall(ops, [], p);
  }

  /** One call of a worker with nothing outstanding, from its charge to its transport. */
  function CallOf(s: System, id: WorkerId, p: Phase, now: Clock): System {
    Next(Next(Next(s, ChargeCall(id, p)), SaveCheckpoint(id, now)), Transport(id))
  }

  predicate BudgetLeft(w: Worker, p: Phase)
    requires w.memory.Some?
  {
    p in w.limits && Get(w.memory.value, p) < w.limits[p]
  }

  /** The worker with one more charge, not saved yet. */
  function WithCharge(w: Worker, p: Phase): Worker
    requires w.memory.Some?
  {
    w.(memory := Some(w.memory.value[p := Get(w.memory.value, p) + 1]), pending := Some(p))
  }

  lemma CallCharged(s: System, id: WorkerId, p: Phase)
    requires id in s.workers && s.workers[id].memory.Some?
    requires s.workers[id].pending.None? && s.workers[id].charged.None?
    ensures Next(s, ChargeCall(id, p)) ==
      if BudgetLeft(s.workers[id], p) then s.(workers := s.workers[id := WithCharge(s.workers[id], p)]) else Lose(s, id)
  {
  }

  /** The lease row still stands for this lease. */
  predicate StandsFor(row: Option<LeaseRow>, l: Lease, now: Clock) {
    row.Some? && row.value.expires > now && row.value == LeaseRow(l.company, l.owner, l.generation, row.value.expires)
  }

  lemma CallSaved(s: System, id: WorkerId, now: Clock)
    requires id in s.workers && s.workers[id].memory.Some? && s.workers[id].pending.Some?
    ensures
      var w := s.workers[id];
      Next(s, SaveCheckpoint(id, now)) ==
        if !StandsFor(s.row, w.lease, now) then Lose(s, id)
        else s.(row := Some(s.row.value.(expires := now + w.lease.seconds as real)), kv := w.memory.value,
                workers := s.workers[id := w.(pending := None, charged := w.pending)],
                writes := s.writes + [Write(w.lease.generation, w.lease.owner)])
  {
  }

  /** Any other fenced write of a worker: recorded and renewing the lease while that stands, and the end of
      the worker otherwise. A worker loads exactly what was saved last. */
  lemma OtherStepsExactly(s: System, id: WorkerId, now: Clock)
    requires id in s.workers
    ensures
      var w := s.workers[id];
      Next(s, OtherFencedWrite(id, now)) ==
        if !StandsFor(s.row, w.lease, now) then Lose(s, id)
        else s.(row := Some(s.row.value.(expires := now + w.lease.seconds as real)),
                writes := s.writes + [Write(w.lease.generation, w.lease.owner)])
    ensures s.workers[id].memory.None? ==>
      Next(s, LoadCheckpoint(id)) == s.(workers := s.workers[id := s.workers[id].(memory := Some(s.kv), loaded := s.kv)])
  {
    assert s.workers[id := s.workers[id]] == s.workers;
  }

  /** A call with budget left and the lease held is counted once, saved, and transported once; without
      budget, or once the lease is lost, the run ends before anything is saved or sent. */
  lemma CallGoesThrough(s: System, id: WorkerId, p: Phase, now: Clock)
    requires id in s.workers && s.workers[id].memory.Some?
    requires s.workers[id].pending.None? && s.workers[id].charged.None?
    ensures
      var w, u := s.workers[id], CallOf(s, id, p, now);
      if BudgetLeft(w, p) && StandsFor(s.row, w.lease, now) then
        && u.kv == w.memory.value[p := Get(w.memory.value, p) + 1] && u.sent == s.sent[p := Get(s.sent, p) + 1]
        && u.row == Some(s.row.value.(expires := now + w.lease.seconds as real))
        && id in u.workers && u.workers[id].memory == Some(u.kv)
        && u.workers[id].pending.None? && u.workers[id].charged.None?
      else u.kv == s.kv && u.sent == s.sent && u.row == s.row && id !in u.workers
  {
    hide Charge, Check, Acquire, Released, Fenced;
    CallCharged(s, id, p);
    if BudgetLeft(s.workers[id], p) {
      CallSaved(Next(s, ChargeCall(id, p)), id, now);
    }
  }
}
