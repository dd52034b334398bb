/** Safety of whole notebook runs: exactly-once reading, single review rounds and the publication
    gate, over every interleaving of answers, crashes, resumes and explicit retries. */
module NotebookSafety {
  import opened Wrappers
  import opened Evidence
  import opened NoteLedger
  import opened NoteRules
  import opened Notebook
  import opened ReadingLoop
  import opened ReadingResume
  import opened ReviewLoop

  // ---- Runs ---------------------------------------------------------------

  datatype Act = Read(event: Event) | Judge(decision: ReviewEvent) | ExplicitRetry

  function Next(job: Job, s: State, a: Act): State {
    match a
    case Read(e) => if Ready(job, s) then Step(job, s, e) else s
    case Judge(e) => if ReviewReady(s) then ReviewStep(job, s, e) else s
    case ExplicitRetry => Retry(s)
  }

  function RunAll(job: Job, s: State, acts: seq<Act>): State {
    if acts == [] then s else Next(job, RunAll(job, s, acts[..|acts|-1]), acts[|acts|-1])
  }

  const BLANK := State(None, EMPTY, Idle)

  // ---- The invariant of the review ----------------------------------------

  /** The order holds every note that is not rejected; the notes before the cursor have their
      receipt, and only the note at the cursor can be blocked. */
  ghost predicate OrderInv(l: Ledger, rv: Review) {
    && rv.cursor <= |rv.order|
    && (forall i :: 0 <= i < |rv.order| ==> rv.order[i] in l.notes)
    && (forall id :: id in l.notes ==> id in rv.order || l.notes[id].status == Rejected)
    && (forall i :: 0 <= i < rv.cursor ==> Reviews(l, rv.order[i]) != [])
    && (forall i :: 0 <= i < |rv.order| && ItemOf(rv, rv.order[i]).blocked ==> i >= rv.cursor)
    && NoDuplicates(rv.order)
    && (forall i :: rv.cursor < i < |rv.order| ==> !ItemOf(rv, rv.order[i]).blocked)
    && (rv.complete ==> rv.cursor == |rv.order|)
  }

  /** A recorded receipt is the ledger's; saved revisits are grant ids, never numbers. */
  ghost predicate ItemInv(l: Ledger, id: NoteId, item: Item) {
    && (item.receipt.Some? ==> Reviews(l, id) != [] && item.receipt.value == Reviews(l, id)[0].receipt)
    && (forall i :: 0 <= i < |item.revisits| ==> item.revisits[i].Text?)
  }

  ghost predicate ItemsInv(l: Ledger, rv: Review) {
    forall id :: id in rv.items ==> id in rv.order && ItemInv(l, id, rv.items[id])
  }

  ghost predicate SingleRounds(l: Ledger) {
    forall id :: |Reviews(l, id)| <= 1
  }

  ghost predicate GateInv(l: Ledger, p: Progress) {
    && (p.reviewComplete <==> p.review.Some? && p.review.value.complete)
    && (p.reviewComplete ==> p.openNotes == Some(CountOpen(l, |l.order|)))
  }

  /** A review is on record and not complete. */
  ghost predicate Opened(s: State) {
    s.disk.Some? && Load(s).complete && Load(s).review.Some? && !Load(s).review.value.complete
  }

  /** The review cursor stands on a note that is not blocked. */
  ghost predicate AtNote(s: State)
    requires s.disk.Some?
  {
    ReviewOf(Load(s)).cursor < |ReviewOf(Load(s)).order| && !CurrentItem(s).blocked
  }

  /** The note at the cursor is under review and has no receipt yet. */
  ghost predicate Undecided(s: State) {
    Opened(s) && AtNote(s) && Reviews(s.ledger, CurrentId(s)) == []
  }

  ghost predicate StageInv(s: State) {
    var p := Load(s);
    match s.phase
    case Top => !p.complete
    case Reading => !p.complete
    case Blocking => !p.complete
    case Applied(_, _, _, _) => !p.complete
    case Recorded => !p.complete
    case Idle => true
    case ReviewStart => s.disk.Some? && p.complete
    case Gate => s.disk.Some? && p.reviewComplete
    case ReviewTop => Opened(s)
    case Reviewing(_, _) => Undecided(s)
    case ReviewBlocking => Undecided(s)
    case ReviewApplied(receipt) =>
      && Opened(s) && AtNote(s)
      && Reviews(s.ledger, CurrentId(s)) != [] && Reviews(s.ledger, CurrentId(s))[0].receipt == receipt
  }

  ghost predicate ReviewInv(s: State) {
    var p := Load(s);
    && SingleRounds(s.ledger) && GateInv(s.ledger, p) && StageInv(s)
    && (p.review.Some? ==> p.complete && OrderInv(s.ledger, p.review.value) && ItemsInv(s.ledger, p.review.value))
  }

  /** Everything a notebook run keeps. */
  ghost predicate NotebookInv(job: Job, s: State) {
    ReadingInv(job, s) && ReviewInv(s)
  }

  lemma BlankInv(job: Job)
    requires job.Valid()
    ensures NotebookInv(job, BLANK)
  {
    EmptyInv();
  }

  // ---- Reading steps do not touch the review ------------------------------

  /** What a reading step may do: append to the ledger, and not to its reviews. */
  ghost predicate ReadingFrame(s: State, u: State) {
    && Grows(s.ledger, u.ledger) && u.ledger.reviews == s.ledger.reviews
    && Load(u).review == Load(s).review && Load(u).reviewComplete == Load(s).reviewComplete
    && (Load(s).complete ==> u.ledger == s.ledger && Load(u) == Load(s))
    && (Load(u).complete && !Load(s).complete ==> u.phase == ReviewStart)
    && (u.disk.None? ==> s.disk.None?)
  }

  lemma SubmitFrame(job: Job, s: State, e: Event)
    requires ReadingInv(job, s) && Ready(job, s) && s.phase == Reading && e.Receipt? && !Load(s).complete
    ensures ReadingFrame(s, Submit(job, s, e))
    ensures Submit(job, s, e).phase != Top && Submit(job, s, e).phase != ReviewStart
  {
    hide ReadInv, Inv, Grows, HeadContext, WindowSpec, RevisitAll, Retained, Open;
    GrowsRefl(s.ledger);
    var p := Load(s);
    var u := Submit(job, s, e);
    if u.phase.Applied? && u.phase.result.Ok? {
      OpenRecord(job, p);
      var shown := RevisitAll(job, p, p.records[p.cursor].revisits).value;
      var q := RequestOf(job, p, e, GrantMap([job.Grant(p.cursor)] + Dedup(HeadContext(job, p).value + shown)));
      WindowReviews(job.host, s.ledger, q, e.fence);
    }
  }

  lemma OpenRecord(job: Job, p: Progress)
    requires Open(job, p)
    ensures p.cursor < |p.records| && p.cursor < |job.doc|
  {
  }

  lemma WindowReviews(h: Host, l: Ledger, q: WindowRequest, fence: Fence)
    requires Inv(l) && WindowSpec(h, l, q, fence).Ok?
    ensures Grows(l, WindowSpec(h, l, q, fence).value.0) && WindowSpec(h, l, q, fence).value.0.reviews == l.reviews
  {
    hide Inv, Grows, WindowRows, WindowShapeOk, FromCandidate, RevisedIds;
    WindowKeeps(h, l, q, fence);
    if q.window !in l.windows {
      WindowOutcome(h, l, q, fence);
    }
  }

  lemma StepFrame(job: Job, s: State, e: Event)
    requires NotebookInv(job, s) && Ready(job, s)
    ensures ReadingFrame(s, Step(job, s, e)) && StageInv(Step(job, s, e))
  {
    hide ReadInv, Inv, Grows, HeadContext, WindowSpec, RevisitAll, Submit, OrderInv, ItemsInv, SingleRounds, Open,
      Replay, Retained;
    GrowsRefl(s.ledger);
    match e
    case Receipt(_, _, _, _, _, _) => if s.phase.Reading? && OwnCandidates(s, e) { SubmitFrame(job, s, e); SubmitStage(job, s, e); }
    case _ =>
  }

  lemma SubmitStage(job: Job, s: State, e: Event)
    requires ReadingInv(job, s) && Ready(job, s) && s.phase == Reading && e.Receipt? && !Load(s).complete
    ensures StageInv(Submit(job, s, e))
  {
    hide ReadInv, Inv, HeadContext, WindowSpec, RevisitAll, Retained;
  }

  /** Without a review on record, a reading step cannot disturb the review's invariant; with one,
      reading is complete and the step changes nothing durable. */
  lemma ReadingStepKeeps(job: Job, s: State, e: Event)
    requires NotebookInv(job, s) && Ready(job, s)
    ensures NotebookInv(job, Step(job, s, e)) && Grows(s.ledger, Step(job, s, e).ledger)
  {
    hide ReadingInv, Inv, Grows, OrderInv, ItemsInv, StageInv, Step, ReviewInv, ReadingFrame;
    StepKeeps(job, s, e);
    StepFrame(job, s, e);
    ReviewUndisturbed(s, Step(job, s, e));
  }

  lemma ReviewUndisturbed(s: State, u: State)
    requires ReviewInv(s) && ReadingFrame(s, u) && StageInv(u)
    ensures ReviewInv(u) && Grows(s.ledger, u.ledger)
  {
    hide OrderInv, ItemsInv, StageInv, Grows;
    assert forall id :: Reviews(u.ledger, id) == Reviews(s.ledger, id);
  }

  // ---- Review steps -------------------------------------------------------

  /** A review step leaves the reading checkpoint and the window receipts alone. */
  ghost predicate ReviewFrame(s: State, u: State) {
    && Load(u).cursor == Load(s).cursor && Load(u).records == Load(s).records && Load(u).complete == Load(s).complete
    && u.ledger.windows == s.ledger.windows
    && Inv(u.ledger) && Grows(s.ledger, u.ledger)
  }

  lemma ReviewKeepsReading(job: Job, s: State, u: State)
    requires ReadingInv(job, s) && ReviewFrame(s, u) && StageInv(u) && Load(s).complete
    ensures ReadingInv(job, u)
  {
    hide Inv, Grows, Replay, ReplayOne, Revisit;
    var p, q := Load(s), Load(u);
    HeadContextFrame(job, p, q);
    forall i | 0 <= i < |q.records| ensures RecordInv(job, u.ledger, q.records[i], i) {
      assert RecordInv(job, s.ledger, p.records[i], i);
    }
  }

  lemma AlwaysReviewReady(s: State)
    requires ReviewInv(s)
    ensures ReviewReady(s)
  {
    hide ItemsInv, SingleRounds, GateInv;
  }

  /** The window a note was created in has been read, so its grant can be rebuilt. */
  lemma OriginRevisits(job: Job, s: State, id: NoteId)
    requires ReadingInv(job, s) && Load(s).complete && id in s.ledger.notes
    ensures Revisit(job, Load(s), s.ledger.notes[id].window).Some?
  {
    hide Inv, ReadInv, PhaseInv, RecordInv;
    NoteWindow(s.ledger, id);
    ReadWindowRevisits(job, s.ledger, Load(s), s.ledger.notes[id].window);
  }

  lemma ReadWindowRevisits(job: Job, l: Ledger, p: Progress, w: int)
    requires ReadInv(job, l, p) && p.complete && w in l.windows
    ensures Revisit(job, p, w).Some?
  {
    hide Replay, HeadInv;
    assert RecordInv(job, l, p.records[w], w);
  }

  lemma NoteWindow(l: Ledger, id: NoteId)
    requires Inv(l) && id in l.notes
    ensures l.notes[id].window in l.windows
  {
  }

  /** The checkpoint's review cursor stands on a note. */
  predicate Standing(s: State) {
    s.disk.Some? && Load(s).review.Some? && ReviewOf(Load(s)).cursor < |ReviewOf(Load(s)).order|
  }

  /** A note under review is entered exactly when it is not blocked, not reviewed yet and has no
      saved revisits: the checkpoint and the origin window never stand in its way. */
  lemma EnterItemOutcome(job: Job, s: State)
    requires ReadingInv(job, s) && ReviewInv(s) && s.phase == ReviewTop && Standing(s)
    ensures
      var item := CurrentItem(s);
      && (EnterItem(job, s).phase.Reviewing? <==>
            !item.blocked && Reviews(s.ledger, CurrentId(s)) == [] && item.revisits == [])
      && (EnterItem(job, s).phase.ReviewTop? <==> !item.blocked && Reviews(s.ledger, CurrentId(s)) != [])
  {
    hide ReadingInv, Revisit, RevisitAll, ReviewInv;
    CurrentKnown(s);
    OriginRevisits(job, s, CurrentId(s));
    assert CurrentItem(s).revisits != [] ==> CurrentItem(s).revisits[0].Text?;
  }

  lemma CurrentKnown(s: State)
    requires ReviewInv(s) && Standing(s)
    ensures CurrentId(s) in s.ledger.notes && Load(s).complete
    ensures ItemInv(s.ledger, CurrentId(s), CurrentItem(s))
  {
  }

  // ---- Each review step keeps the invariant -------------------------------

  /** Writing the item of the note under review keeps the review's invariant. */
  lemma ItemKeeps(s: State, item: Item, phase: Phase)
    requires ReviewInv(s) && Standing(s) && !Load(s).review.value.complete
    requires ItemInv(s.ledger, CurrentId(s), item) && StageInv(SaveItem(s, item, phase))
    ensures ReviewInv(SaveItem(s, item, phase)) && ReviewFrameless(s, SaveItem(s, item, phase))
  {
    hide StageInv, Reviews, CountOpen;
    var rv, rw := Load(s).review.value, Load(SaveItem(s, item, phase)).review.value;
    forall i | 0 <= i < |rw.order| ensures i != rv.cursor ==> ItemOf(rw, rw.order[i]) == ItemOf(rv, rv.order[i]) {
    }
  }

  /** Only the review part of the checkpoint was written. */
  ghost predicate ReviewFrameless(s: State, u: State) {
    && u.ledger == s.ledger && u.disk.Some?
    && u.disk.value == Load(s).(review := u.disk.value.review, openNotes := u.disk.value.openNotes,
                                reviewComplete := u.disk.value.reviewComplete)
  }

  /** Passing a reviewed note keeps the review's invariant. */
  lemma PassKeeps(s: State)
    requires ReviewInv(s) && Standing(s) && !Load(s).review.value.complete
    requires Reviews(s.ledger, CurrentId(s)) != [] && !CurrentItem(s).blocked
    ensures ReviewInv(Save(s, SetCursor(Load(s), ReviewOf(Load(s)).cursor + 1), ReviewTop))
  {
    hide Reviews, CountOpen, ItemInv;
  }

  /** A new receipt for the note under review keeps order, items and gate. */
  lemma ReceiptKeepsReview(s: State, m: Ledger, receipt: ReviewReceipt)
    requires ReviewInv(s) && Standing(s) && !Load(s).review.value.complete && s.phase.Reviewing?
    requires Grows(s.ledger, m) && m.notes.Keys == s.ledger.notes.Keys
    requires forall id :: id != CurrentId(s) ==> Reviews(m, id) == Reviews(s.ledger, id)
    requires |Reviews(m, CurrentId(s))| == 1 && Reviews(m, CurrentId(s))[0].receipt == receipt
    ensures ReviewInv(State(s.disk, m, ReviewApplied(receipt)))
  {
    hide CountOpen, Reviews, OrderInv, ItemsInv, Grows;
    OrderStays(s.ledger, m, Load(s).review.value);
    ItemsStay(s.ledger, m, Load(s).review.value, CurrentId(s));
  }

  lemma OrderStays(l: Ledger, m: Ledger, rv: Review)
    requires OrderInv(l, rv) && Grows(l, m) && m.notes.Keys == l.notes.Keys
    requires forall id :: Reviews(l, id) != [] ==> Reviews(m, id) != []
    ensures OrderInv(m, rv)
  {
    hide Grows, Reviews;
    forall id | id in m.notes ensures id in rv.order || m.notes[id].status == Rejected {
      if id !in rv.order { RejectedStays(l, m, id); }
    }
  }

  lemma ItemsStay(l: Ledger, m: Ledger, rv: Review, current: NoteId)
    requires ItemsInv(l, rv) && Reviews(l, current) == []
    requires forall id :: id != current ==> Reviews(m, id) == Reviews(l, id)
    ensures ItemsInv(m, rv)
  {
    hide Reviews;
    forall id | id in rv.items ensures ItemInv(m, id, rv.items[id]) {
      assert ItemInv(l, id, rv.items[id]);
    }
  }

  lemma RejectedStays(l: Ledger, m: Ledger, id: NoteId)
    requires Grows(l, m) && id in l.notes && l.notes[id].status == Rejected
    ensures id in m.notes && m.notes[id] == l.notes[id]
  {
  }

  /** Where a review step of a note leads: the item is rewritten, the note is passed, or only the
      volatile phase changes. */
  lemma TurnKeeps(job: Job, s: State, e: ReviewEvent)
    requires NotebookInv(job, s) && s.phase.Reviewing? && Standing(s) && ReviewReady(s)
    ensures NotebookInv(job, Turn(job, s, e)) && Grows(s.ledger, Turn(job, s, e).ledger)
  {
    hide ReadingInv, Inv, Grows, ReviewInv, ReviewContext, SubmitDecision;
    GrowsRefl(s.ledger);
    CurrentKnown(s);
    UndecidedNote(s);
    if CurrentItem(s).attempts >= 2 {
      ItemStepKeeps(job, s, CurrentItem(s).(blocked := true, round := Some(s.phase.round)), Idle);
    } else {
      match e
      case Proceed =>
      case ReviewTool(ids) => ContextKeeps(job, s, ids);
      case BadDecision =>
        ItemStepKeeps(job, s, CurrentItem(s).(attempts := CurrentItem(s).attempts + 1, round := Some(s.phase.round)), s.phase);
      case Decision(_, _, _, _, _, _) => DecideKeeps(job, s, e);
    }
  }

  lemma UndecidedNote(s: State)
    requires ReviewInv(s) && (s.phase.Reviewing? || s.phase.ReviewBlocking?)
    ensures Standing(s) && !Load(s).review.value.complete && Load(s).complete && Reviews(s.ledger, CurrentId(s)) == []
    ensures !CurrentItem(s).blocked
  {
  }

  /** Writing the item of the note under review, and staying with it or stopping. */
  lemma ItemStepKeeps(job: Job, s: State, item: Item, phase: Phase)
    requires NotebookInv(job, s) && Standing(s) && (s.phase.Reviewing? || s.phase.ReviewBlocking?)
    requires ItemInv(s.ledger, CurrentId(s), item)
    requires phase.Idle? || (!item.blocked && (phase.ReviewBlocking? || phase.Reviewing?))
    ensures NotebookInv(job, SaveItem(s, item, phase)) && Grows(s.ledger, SaveItem(s, item, phase).ledger)
  {
    hide ReadingInv, Inv, Grows, OrderInv, ItemsInv, SingleRounds, GateInv, ItemInv;
    GrowsRefl(s.ledger);
    ItemKeeps(s, item, phase);
    ReadingPart(job, s);
    ReviewKeepsReading(job, s, SaveItem(s, item, phase));
  }

  lemma ReadingPart(job: Job, s: State)
    requires ReadingInv(job, s)
    ensures Inv(s.ledger)
  {
  }

  lemma ContextKeeps(job: Job, s: State, ids: seq<int>)
    requires NotebookInv(job, s) && s.phase.Reviewing? && Standing(s) && ReviewReady(s)
    ensures NotebookInv(job, ReviewContext(job, s, ids)) && Grows(s.ledger, ReviewContext(job, s, ids).ledger)
  {
    hide ReadingInv, Inv, Grows, ReviewInv, Revisit, RevisitAll, Dedup;
    CurrentKnown(s);
    UndecidedNote(s);
    var u := ReviewContext(job, s, ids);
    var item := ReviewOf(Load(u)).items[CurrentId(s)];
    assert u == SaveItem(s, item, u.phase);
    ItemStepKeeps(job, s, item, u.phase);
  }

  lemma DecideKeeps(job: Job, s: State, e: ReviewEvent)
    requires NotebookInv(job, s) && s.phase.Reviewing? && e.Decision? && Standing(s) && ReviewReady(s)
    ensures NotebookInv(job, SubmitDecision(job, s, e)) && Grows(s.ledger, SubmitDecision(job, s, e).ledger)
  {
    hide ReadingInv, Inv, Grows, ReviewInv, Revisit, ReviewSpec, SetItem;
    GrowsRefl(s.ledger);
    CurrentKnown(s);
    UndecidedNote(s);
    ReadingPart(job, s);
    var u := SubmitDecision(job, s, e);
    var origin := Revisit(job, Load(s), s.ledger.notes[CurrentId(s)].window);
    if u.phase.ReviewApplied? {
      var q := DecisionRequest(job, CurrentId(s), s.phase.round, GrantMap([origin.value] + s.phase.shown), e);
      FirstRound(job.host, s.ledger, q, e.fence);
      ReceiptKeepsReview(s, u.ledger, u.phase.receipt);
      ReviewedReading(job, s, u);
    } else if u.phase.Reviewing? {
      ItemStepKeeps(job, s, CurrentItem(s).(attempts := CurrentItem(s).attempts + 1, round := Some(s.phase.round)), s.phase);
    } else {
      StopKeeps(job, s);
    }
  }

  lemma ReviewedReading(job: Job, s: State, u: State)
    requires ReadingInv(job, s) && ReviewInv(u) && u.disk == s.disk && Load(s).complete
    requires Grows(s.ledger, u.ledger) && Inv(u.ledger) && u.ledger.windows == s.ledger.windows
    ensures ReadingInv(job, u)
  {
    hide ReadingInv, Inv, Grows;
    ReviewKeepsReading(job, s, u);
  }

  lemma StopKeeps(job: Job, s: State)
    requires NotebookInv(job, s)
    ensures NotebookInv(job, Stop(s))
  {
    hide Inv, ReadInv;
  }

  /** The first decision of a note stores exactly one receipt, for that note alone. */
  lemma FirstRound(h: Host, l: Ledger, q: ReviewRequest, fence: Fence)
    requires Inv(l) && ReviewSpec(h, l, q, fence).Ok? && Reviews(l, q.noteId) == []
    ensures
      var (m, receipt) := ReviewSpec(h, l, q, fence).value;
      && Inv(m) && Grows(l, m) && m.windows == l.windows && m.notes.Keys == l.notes.Keys
      && |Reviews(m, q.noteId)| == 1 && Reviews(m, q.noteId)[0].receipt == receipt
      && forall id :: id != q.noteId ==> Reviews(m, id) == Reviews(l, id)
  {
    hide Inv, Grows, ReviewSpec, Decided, NoteLedger.Decide, WithReview;
    ReviewKeeps(h, l, q, fence);
    ReviewResult(h, l, q, fence);
    DecidedFrame(l, q, NoteLedger.Decide(h, l, q).value, StoredReview(q.round, q.sha, ReviewSpec(h, l, q, fence).value.1));
  }

  // ---- Opening, passing and completing the review -------------------------

  lemma DistinctOrder(l: Ledger)
    requires Inv(l)
    ensures NoDuplicates(l.order)
    ensures forall i :: 0 <= i < |l.order| ==> l.order[i] in l.notes
  {
    hide Accounted, NoteInv;
  }

  lemma {:induction false} OpenOrderMembers(l: Ledger, n: nat, id: NoteId)
    requires n <= |l.order|
    ensures id in OpenOrder(l, n) <==> id in l.order[..n] && id in l.notes && l.notes[id].status != Rejected
  {
    if n > 0 {
      OpenOrderMembers(l, n - 1, id);
      assert l.order[..n] == l.order[..n-1] + [l.order[n-1]];
    }
  }

  lemma {:induction false} OpenOrderDistinct(l: Ledger, n: nat)
    requires n <= |l.order| && NoDuplicates(l.order)
    ensures NoDuplicates(OpenOrder(l, n))
  {
    if n > 0 {
      OpenOrderDistinct(l, n - 1);
      OpenOrderMembers(l, n - 1, l.order[n-1]);
    }
  }

  lemma WholeOpenOrder(l: Ledger)
    requires Inv(l)
    ensures
      var o := OpenOrder(l, |l.order|);
      && (forall id :: id in o <==> id in l.notes && l.notes[id].status != Rejected)
      && NoDuplicates(o)
  {
    DistinctOrder(l);
    OpenOrderDistinct(l, |l.order|);
    forall id ensures id in OpenOrder(l, |l.order|) <==> id in l.order && id in l.notes && l.notes[id].status != Rejected {
      OpenOrderMembers(l, |l.order|, id);
      assert l.order[..|l.order|] == l.order;
    }
    assert forall id :: id in l.notes ==> id in l.order;
    hide Inv, OpenOrder;
  }

  /** Freezing the order of a review that has none yet. */
  lemma FreezeKeeps(s: State)
    requires ReviewInv(s) && Inv(s.ledger) && s.phase == ReviewStart && ReviewOf(Load(s)).order == []
             && !ReviewOf(Load(s)).complete
    ensures ReviewInv(Save(s, Load(s).(review := Some(ReviewOf(Load(s)).(order := OpenOrder(s.ledger, |s.ledger.order|)))), ReviewTop))
  {
    hide Inv, Reviews, CountOpen, ItemInv, OpenOrder, OrderInv, ItemsInv, NoDuplicates;
    NoItemsYet(s);
    WholeOpenOrder(s.ledger);
    FrozenOrder(s.ledger, ReviewOf(Load(s)).(order := OpenOrder(s.ledger, |s.ledger.order|)));
  }

  lemma NoItemsYet(s: State)
    requires ReviewInv(s) && ReviewOf(Load(s)).order == []
    ensures ReviewOf(Load(s)).items == map[] && ReviewOf(Load(s)).cursor == 0
  {
  }

  lemma FrozenOrder(l: Ledger, rv: Review)
    requires rv.items == map[] && rv.cursor == 0 && !rv.complete
    requires forall id :: id in rv.order <==> id in l.notes && l.notes[id].status != Rejected
    requires NoDuplicates(rv.order)
    ensures OrderInv(l, rv) && ItemsInv(l, rv)
  {
  }

  lemma BeginKeeps(job: Job, s: State)
    requires NotebookInv(job, s) && s.phase == ReviewStart
    ensures NotebookInv(job, Begin(job, s)) && Grows(s.ledger, Begin(job, s).ledger)
  {
    hide ReadingInv, Inv, Grows, OpenOrder, OrderInv, ItemsInv, SingleRounds, CountOpen;
    GrowsRefl(s.ledger);
    ReadingPart(job, s);
    var u := Begin(job, s);
    if ReviewOf(Load(s)).complete || !GrantsUnchanged(job, Load(s)) || ReviewOf(Load(s)).order != [] {
      PhaseOnly(job, s, u.phase);
    } else {
      FreezeKeeps(s);
      ReviewKeepsReading(job, s, u);
    }
  }

  /** The reading invariant does not depend on the phases of the review. */
  lemma PhaseOnly(job: Job, s: State, phase: Phase)
    requires ReadingInv(job, s)
    requires phase.Idle? || phase.ReviewStart? || phase.ReviewTop? || phase.Reviewing? || phase.ReviewApplied? || phase.Gate?
    ensures ReadingInv(job, s.(phase := phase))
  {
    hide Inv, ReadInv;
  }

  lemma EnterItemKeeps(job: Job, s: State)
    requires NotebookInv(job, s) && s.phase == ReviewTop && Standing(s)
    ensures NotebookInv(job, EnterItem(job, s)) && Grows(s.ledger, EnterItem(job, s).ledger)
  {
    hide ReadingInv, Inv, Grows, OrderInv, ItemsInv, SingleRounds, GateInv, Revisit, SavedRevisits, ReviewInv, CountOpen;
    GrowsRefl(s.ledger);
    ReadingPart(job, s);
    CurrentKnown(s);
    var u := EnterItem(job, s);
    if u.phase.ReviewTop? {
      PassedKeeps(job, s);
    } else {
      PhaseOnly(job, s, u.phase);
      PhaseReview(s, u.phase);
    }
  }

  lemma PhaseReview(s: State, phase: Phase)
    requires ReviewInv(s) && s.phase == ReviewTop && Standing(s)
    requires phase.Idle? || (phase.Reviewing? && Reviews(s.ledger, CurrentId(s)) == [] && !CurrentItem(s).blocked)
    ensures ReviewInv(s.(phase := phase))
  {
    hide OrderInv, ItemsInv, SingleRounds, GateInv;
  }

  /** Recording the receipt of a reviewed note and passing it keeps the review's invariant. */
  lemma PassItemKeeps(s: State, item: Item)
    requires ReviewInv(s) && Standing(s) && !Load(s).review.value.complete
    requires Reviews(s.ledger, CurrentId(s)) != [] && !item.blocked && ItemInv(s.ledger, CurrentId(s), item)
    ensures
      var u := Save(s, SetCursor(SetItem(Load(s), CurrentId(s), item), ReviewOf(Load(s)).cursor + 1), ReviewTop);
      ReviewInv(u) && ReviewFrameless(s, u)
  {
    hide ReviewInv, ItemInv, Reviews;
    ItemKeeps(s, item, ReviewTop) by { TopStage(s, item); }
    PassKeeps(SaveItem(s, item, ReviewTop));
  }

  lemma TopStage(s: State, item: Item)
    requires ReviewInv(s) && Standing(s) && !Load(s).review.value.complete
    ensures StageInv(SaveItem(s, item, ReviewTop))
  {
    hide OrderInv, ItemsInv, SingleRounds, GateInv;
  }

  lemma ReadingBeside(job: Job, s: State, u: State)
    requires ReadingInv(job, s) && ReviewFrameless(s, u) && Load(s).complete && u.phase.ReviewTop?
    ensures ReadingInv(job, u)
  {
    hide Inv, Replay, ReplayOne, Revisit, Grows;
    GrowsRefl(s.ledger);
    ReadingPart(job, s);
    var p, q := Load(s), Load(u);
    HeadContextFrame(job, p, q);
  }

  /** A note whose receipt was committed before a crash is passed with that receipt. */
  lemma PassedKeeps(job: Job, s: State)
    requires NotebookInv(job, s) && s.phase == ReviewTop && Standing(s)
    requires !CurrentItem(s).blocked && Reviews(s.ledger, CurrentId(s)) != []
    ensures NotebookInv(job, EnterItem(job, s))
  {
    hide ReadingInv, ReviewInv, Inv, Revisit, SavedRevisits, ReviewFrameless;
    SingleRound(s, CurrentId(s));
    CurrentKnown(s);
    TopOpen(s);
    var id := CurrentId(s);
    var item := CurrentItem(s);
    var last := Reviews(s.ledger, id)[0];
    var passed := item.(round := Some(last.round),
                        receipt := if item.receipt.None? then Some(last.receipt) else item.receipt);
    PassItemKeeps(s, passed);
    ReadingBeside(job, s, EnterItem(job, s));
  }

  lemma SingleRound(s: State, id: NoteId)
    requires ReviewInv(s)
    ensures |Reviews(s.ledger, id)| <= 1
  {
  }

  lemma TopOpen(s: State)
    requires ReviewInv(s) && (s.phase.ReviewTop? || s.phase.ReviewApplied?)
    ensures s.disk.Some? && Load(s).complete && Load(s).review.Some? && !Load(s).review.value.complete
    ensures s.phase.ReviewApplied? ==>
      && Standing(s) && !CurrentItem(s).blocked
      && Reviews(s.ledger, CurrentId(s)) != [] && Reviews(s.ledger, CurrentId(s))[0].receipt == s.phase.receipt
  {
    hide OrderInv, ItemsInv, SingleRounds, GateInv;
  }

  lemma CompleteKeeps(job: Job, s: State)
    requires NotebookInv(job, s) && s.phase == ReviewTop && !Standing(s)
    ensures NotebookInv(job, Complete(s)) && Grows(s.ledger, Complete(s).ledger)
  {
    hide ReadingInv, Inv, Grows, ReviewInv;
    GrowsRefl(s.ledger);
    TopOpen(s);
    CompleteReview(s);
    CompleteReading(job, s);
  }

  lemma CompleteReading(job: Job, s: State)
    requires ReadingInv(job, s) && s.disk.Some? && Load(s).complete
    ensures ReadingInv(job, Complete(s))
  {
    hide ReadingInv;
    ReadingBeside(job, s, Complete(s).(phase := ReviewTop));
    PhaseOnly(job, Complete(s).(phase := ReviewTop), Gate);
  }

  lemma CompleteReview(s: State)
    requires ReviewInv(s) && s.phase == ReviewTop && !Standing(s)
    ensures ReviewInv(Complete(s))
  {
    hide Reviews, CountOpen, ItemInv;
  }

  /** The first commit after the ledger accepted a decision. */
  lemma AppliedKeeps(job: Job, s: State)
    requires NotebookInv(job, s) && s.phase.ReviewApplied? && ReviewReady(s)
    ensures NotebookInv(job, ReviewStep(job, s, Proceed)) && ReviewStep(job, s, Proceed).ledger == s.ledger
  {
    hide ReadingInv, ReviewInv, Inv, ReviewFrameless;
    TopOpen(s);
    CurrentKnown(s);
    PassItemKeeps(s, CurrentItem(s).(receipt := Some(s.phase.receipt), round := Some(s.phase.receipt.round)));
    ReadingBeside(job, s, ReviewStep(job, s, Proceed));
  }

  lemma ReviewStepKeeps(job: Job, s: State, e: ReviewEvent)
    requires NotebookInv(job, s) && ReviewReady(s)
    ensures NotebookInv(job, ReviewStep(job, s, e)) && Grows(s.ledger, ReviewStep(job, s, e).ledger)
  {
    hide ReadingInv, ReviewInv, Inv, Grows, Begin, EnterItem, Complete, Turn;
    GrowsRefl(s.ledger);
    match s.phase
    case ReviewStart => if e.Proceed? { BeginKeeps(job, s); }
    case ReviewTop =>
      TopOpen(s);
      if e.Proceed? {
        if Standing(s) { EnterItemKeeps(job, s); } else { CompleteKeeps(job, s); }
      }
    case Reviewing(_, _) =>
      UndecidedNote(s);
      TurnKeeps(job, s, e);
    case ReviewBlocking =>
      if e.Proceed? {
        UndecidedNote(s);
        CurrentKnown(s);
        ItemStepKeeps(job, s, CurrentItem(s).(blocked := true), Idle);
      }
    case ReviewApplied(_) => if e.Proceed? { AppliedKeeps(job, s); }
    case _ =>
  }

  // ---- Explicit retry -----------------------------------------------------

  /** Retrying the review clears the stop marks of the note at the cursor, and moves nothing. */
  lemma RetryReviewKeeps(l: Ledger, rv: Review)
    requires OrderInv(l, rv) && ItemsInv(l, rv) && !rv.complete
    ensures
      var n := FirstBlocked(rv, |rv.order|);
      n < |rv.order| ==>
        && n == rv.cursor
        && OrderInv(l, rv.(items := ReopenedItems(rv.items, rv.order), cursor := n))
        && ItemsInv(l, rv.(items := ReopenedItems(rv.items, rv.order), cursor := n))
  {
    var n := FirstBlocked(rv, |rv.order|);
    if n < |rv.order| {
      var rw := rv.(items := ReopenedItems(rv.items, rv.order), cursor := n);
      forall id | id in rw.items ensures id in rw.order && ItemInv(l, id, rw.items[id]) && !rw.items[id].blocked {
        assert ItemInv(l, id, rv.items[id]);
      }
      hide ItemInv, FirstBlocked, Reviews;
    }
  }

  lemma RetryAllKeeps(job: Job, s: State)
    requires NotebookInv(job, s)
    ensures NotebookInv(job, Retry(s)) && Retry(s).ledger == s.ledger
    ensures Load(Retry(s)).cursor == Load(s).cursor
  {
    if s.phase.Idle? && s.disk.Some? {
      var p := s.disk.value;
      RetryReadingPart(job, s);
      RetryReviewPart(job, s);
    }
  }

  lemma RetryReadingPart(job: Job, s: State)
    requires NotebookInv(job, s) && s.phase.Idle? && s.disk.Some?
    ensures ReadingInv(job, Retry(s)) && Load(Retry(s)).cursor == Load(s).cursor
  {
    hide Inv, ReviewInv, PrefixInv, ReceiptsInv;
    var p := s.disk.value;
    RetryStays(job, s.ledger, p);
    RetryKeeps(job, s.ledger, p);
    var q := RetryReading(p);
    hide RetryReading, ReadInv;
    var t := State(Some(q), s.ledger, ReviewTop);
    ReadInvBeside(job, s.ledger, q, RetryReview(q));
  }

  lemma ReadInvBeside(job: Job, l: Ledger, p: Progress, q: Progress)
    requires ReadInv(job, l, p)
    requires q == p.(review := q.review, openNotes := q.openNotes, reviewComplete := q.reviewComplete)
    ensures ReadInv(job, l, q)
  {
    hide Replay, ReplayOne, Revisit;
    HeadContextFrame(job, p, q);
  }

  lemma RetryReviewPart(job: Job, s: State)
    requires NotebookInv(job, s) && s.phase.Idle? && s.disk.Some?
    ensures ReviewInv(Retry(s))
  {
    var p := s.disk.value;
    RetryStays(job, s.ledger, p);
    RetryCompleted(job, s.ledger, p);
    hide ReadingInv, Inv, OrderInv, ItemsInv, SingleRounds, CountOpen, RetryReading;
    if p.review.Some? && !p.review.value.complete {
      RetryReviewKeeps(s.ledger, p.review.value);
    }
  }

  /** Completed reading is never reopened. */
  lemma RetryCompleted(job: Job, l: Ledger, p: Progress)
    requires ReadInv(job, l, p)
    ensures RetryReading(p).complete == p.complete
    ensures RetryReading(p).review == p.review && RetryReading(p).reviewComplete == p.reviewComplete
    ensures RetryReading(p).openNotes == p.openNotes
  {
    RetryStays(job, l, p);
    hide HeadInv, Replay, RecordInv, ReceiptsInv;
  }

  // ---- Whole runs ---------------------------------------------------------

  lemma NextKeeps(job: Job, s: State, a: Act)
    requires NotebookInv(job, s)
    ensures NotebookInv(job, Next(job, s, a)) && Grows(s.ledger, Next(job, s, a).ledger)
  {
    hide NotebookInv, Inv, Grows, Step, ReviewStep, Retry, Ready, ReviewReady;
    GrowsRefl(s.ledger);
    match a
    case Read(e) => if Ready(job, s) { ReadingStepKeeps(job, s, e); }
    case Judge(e) => if ReviewReady(s) { ReviewStepKeeps(job, s, e); }
    case ExplicitRetry => RetryAllKeeps(job, s);
  }

  /** Every run, whatever the employee answers and wherever it crashes, keeps the invariant and
      only appends to the note ledger. */
  lemma {:induction false} RunKeeps(job: Job, s: State, acts: seq<Act>)
    requires NotebookInv(job, s)
    ensures NotebookInv(job, RunAll(job, s, acts)) && Grows(s.ledger, RunAll(job, s, acts).ledger)
  {
    hide NotebookInv, Grows, Next;
    GrowsRefl(s.ledger);
    if acts != [] {
      var before := RunAll(job, s, acts[..|acts|-1]);
      RunKeeps(job, s, acts[..|acts|-1]);
      NextKeeps(job, before, acts[|acts|-1]);
      GrowsTransitive(s.ledger, before.ledger, RunAll(job, s, acts).ledger);
    }
  }
}
