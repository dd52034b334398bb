/** The promises of the notebook over every run from an empty job: resumable reading, exactly-once
    receipts, the publication gate, and where the review's context tool breaks its own promise. */
module NotebookTheorems {
  import opened Wrappers
  import opened Evidence
  import opened NoteLedger
  import opened NoteRules
  import opened Notebook
  import opened ReadingLoop
  import opened ReadingResume
  import opened ReviewLoop
  import opened NotebookSafety

  /** The state after a run of a fresh job. */
  function Reached(job: Job, acts: seq<Act>): State {
    RunAll(job, BLANK, acts)
  }

  lemma ReachedInv(job: Job, acts: seq<Act>)
    requires job.Valid()
    ensures NotebookInv(job, Reached(job, acts))
  {
    BlankInv(job);
    hide NotebookInv;
    NotebookSafety.RunKeeps(job, BLANK, acts);
  }

  /** No step of the model is ever withheld: in every reached state the cursors stand where the
      phase of the worker says they do. */
  lemma GuardsHold(job: Job, acts: seq<Act>)
    requires job.Valid()
    ensures Ready(job, Reached(job, acts)) && ReviewReady(Reached(job, acts))
  {
    ReachedInv(job, acts);
    var s := Reached(job, acts);
    hide Reached, ReadingInv, ReviewInv;
    AlwaysReady(job, s);
    AlwaysReviewReady(s);
  }

  // ---- Resuming -----------------------------------------------------------

  /** A worker that restarts from the checkpoint. */
  function Restarted(s: State): State {
    s.(phase := Top)
  }

  lemma RestartedInv(job: Job, s: State)
    requires ReadingInv(job, s)
    ensures ReadingInv(job, Restarted(s))
  {
    hide Inv, ReadInv;
  }

  /** Whatever a run leaves behind, resuming it passes every "persisted ... differs" check: the
      next window stops the run only when its own context breaks the byte bound, or when it was
      blocked; and that context has at most four grants. */
  lemma ResumeSelfConsistent(job: Job, acts: seq<Act>)
    requires job.Valid()
    requires
      var p := Load(Reached(job, acts));
      p.cursor < |job.doc| && !job.doc[p.cursor].unavailable
    ensures
      var p := Load(Reached(job, acts));
      && p.cursor <= |p.records|
      && HeadContext(job, p).Some? && |HeadContext(job, p).value| <= 4
      && (Enter(job, Restarted(Reached(job, acts))).phase == Idle <==>
            || !job.fits(HeadContext(job, p).value)
            || (Head(p).status == ReadPending && (Head(p).toolBlocked || Head(p).extractBlocked)))
  {
    ReachedInv(job, acts);
    var s := Reached(job, acts);
    assert ReadingInv(job, s);
    hide Reached, ReadInv, ReviewInv, Enter, HeadContext;
    RestartedInv(job, s);
    AlwaysReady(job, s);
    ResumeAccepts(job, Restarted(s));
  }

  // ---- Exactly-once reading -----------------------------------------------

  /** Every processed window has exactly one outcome, and its record shows the ledger's receipt;
      no receipt stands for a window that was not at least opened. */
  lemma ExactlyOnce(job: Job, acts: seq<Act>, i: int)
    requires job.Valid() && 0 <= i < Load(Reached(job, acts)).cursor
    ensures i < |job.doc| && i < |Load(Reached(job, acts)).records|
    ensures
      var s := Reached(job, acts);
      var r := Load(s).records[i];
      && (r.receipt.Some? <==> i in s.ledger.windows)
      && (r.receipt.Some? ==> s.ledger.windows[i].receipt == r.receipt.value && s.ledger.windows[i].sha == job.key(i))
      && (!job.doc[i].unavailable ==> (r.technical <==> i !in s.ledger.windows))
      && (forall w :: w in s.ledger.windows ==> 0 <= w <= Load(s).cursor)
  {
    ReachedInv(job, acts);
    var s := Reached(job, acts);
    assert ReadingInv(job, s);
    hide Reached, ReviewInv, Inv, HeadInv, Replay, PhaseInv;
    assert RecordInv(job, s.ledger, Load(s).records[i], i);
  }

  /** Every note of the job has exactly one create row, and belongs to exactly the receipt of the
      window that created it. */
  lemma CreatedOnce(job: Job, acts: seq<Act>, id: NoteId)
    requires job.Valid() && id in Reached(job, acts).ledger.notes
    ensures
      var l := Reached(job, acts).ledger;
      && (forall i :: 0 <= i < |Audit(l, id)| ==> (Audit(l, id)[i].entry.Created? <==> i == 0))
      && |Audit(l, id)| > 0
      && (forall w :: w in l.windows ==> (id in l.windows[w].receipt.created <==> w == l.notes[id].window))
      && l.notes[id].window in l.windows
  {
    hide Reached, NotebookInv, Inv;
    ReachedInv(job, acts);
    ReachedLedger(job, Reached(job, acts));
    CreateRow(Reached(job, acts).ledger, id);
  }

  lemma ReachedLedger(job: Job, s: State)
    requires NotebookInv(job, s)
    ensures Inv(s.ledger)
  {
    hide ReviewInv, ReadInv, Inv;
  }

  lemma CreateRow(l: Ledger, id: NoteId)
    requires Inv(l) && id in l.notes
    ensures forall i :: 0 <= i < |Audit(l, id)| ==> (Audit(l, id)[i].entry.Created? <==> i == 0)
    ensures |Audit(l, id)| > 0 && l.notes[id].window in l.windows
    ensures forall w :: w in l.windows ==> (id in l.windows[w].receipt.created <==> w == l.notes[id].window)
  {
    NoteOf(l, id, l.notes.Keys);
    hide Fold;
  }

  /** When the ledger committed before a crash and the employee now answers differently, the
      stored receipt is returned and the ledger keeps its content. */
  lemma ReplayedAnswer(job: Job, s: State, e: Event)
    requires ReadingInv(job, s) && Ready(job, s) && s.phase == Reading && e.Receipt?
    requires Load(s).cursor in s.ledger.windows
    ensures
      var u := Submit(job, s, e);
      && u.ledger == s.ledger
      && (u.phase.Applied? ==> u.phase.result == Ok(s.ledger.windows[Load(s).cursor].receipt))
  {
    hide ReadInv, Inv, HeadContext, RevisitAll, Retained, WindowSpec, Malformed;
    var p := Load(s);
    KeyOf(job, s.ledger, p);
    MalformedLedger(s);
    var u := Submit(job, s, e);
    if u.phase.Applied? || u.ledger != s.ledger {
      var shown := RevisitAll(job, p, p.records[p.cursor].revisits).value;
      var q := RequestOf(job, p, e, GrantMap([job.Grant(p.cursor)] + Dedup(HeadContext(job, p).value + shown)));
      WindowStored(job.host, s.ledger, q, e.fence);
    }
  }

  lemma MalformedLedger(s: State)
    requires Load(s).cursor < |Load(s).records|
    ensures Malformed(s).ledger == s.ledger && !Malformed(s).phase.Applied?
  {
  }

  // ---- The publication gate -----------------------------------------------

  lemma {:induction false} NoneOpen(l: Ledger, n: nat, i: nat)
    requires i < n <= |l.order| && CountOpen(l, n) == 0
    ensures l.order[i] in l.notes ==> l.notes[l.order[i]].status != NeedsCheck
  {
    if i < n - 1 {
      NoneOpen(l, n - 1, i);
    }
  }

  /** Publication is entered only when every note of the job is verified or rejected, and every
      note that was not yet rejected when the review began has its committed review receipt. */
  lemma PublicationGate(job: Job, acts: seq<Act>, id: NoteId)
    requires job.Valid() && PublishAllowed(Load(Reached(job, acts)))
    requires id in Reached(job, acts).ledger.notes
    ensures Load(Reached(job, acts)).review.Some? && Load(Reached(job, acts)).complete
    ensures
      var s := Reached(job, acts);
      && s.ledger.notes[id].status != NeedsCheck
      && (if id in Load(s).review.value.order then |Reviews(s.ledger, id)| == 1
          else s.ledger.notes[id].status == Rejected)
  {
    hide Reached, NotebookInv, PublishAllowed;
    ReachedInv(job, acts);
    GateMeaning(job, Reached(job, acts), id);
  }

  lemma GateMeaning(job: Job, s: State, id: NoteId)
    requires NotebookInv(job, s) && PublishAllowed(Load(s)) && id in s.ledger.notes
    ensures Load(s).review.Some? && Load(s).complete
    ensures s.ledger.notes[id].status != NeedsCheck
    ensures if id in Load(s).review.value.order then |Reviews(s.ledger, id)| == 1
            else s.ledger.notes[id].status == Rejected
  {
    GateOpen(s, id);
    hide ReviewInv;
    ReadingPart(job, s);
    InOrder(s.ledger, id);
  }

  lemma InOrder(l: Ledger, id: NoteId)
    requires Inv(l) && id in l.notes && CountOpen(l, |l.order|) == 0
    ensures l.notes[id].status != NeedsCheck
  {
    assert id in l.order;
    var i :| 0 <= i < |l.order| && l.order[i] == id;
    hide Inv;
    NoneOpen(l, |l.order|, i);
  }

  lemma GateOpen(s: State, id: NoteId)
    requires ReviewInv(s) && PublishAllowed(Load(s)) && id in s.ledger.notes
    ensures CountOpen(s.ledger, |s.ledger.order|) == 0 && Load(s).review.Some? && Load(s).complete
    ensures if id in Load(s).review.value.order then |Reviews(s.ledger, id)| == 1
            else s.ledger.notes[id].status == Rejected
  {
    hide ItemsInv, StageInv, CountOpen;
  }

  // ---- The review's context tool ------------------------------------------

  /** The documented bound of the tool: repeating windows that are already displayed, the origin
      among them, is a stall. */
  ghost predicate AllDisplayed(origin: int, shown: seq<Shown>, ids: seq<int>) {
    forall i :: 0 <= i < |ids| ==> ids[i] == origin || exists j :: 0 <= j < |shown| && shown[j].id == ids[i]
  }

  lemma {:induction false} OnlyNumbersOwned(owned: seq<Ref>, origin: int, ids: seq<int>)
    requires forall i :: 0 <= i < |owned| ==> owned[i].Text?
    ensures UnseenRefs(owned, origin, ids) == [] <==> forall i :: 0 <= i < |ids| ==> ids[i] == origin
  {
    if ids != [] {
      OnlyNumbersOwned(owned, origin, ids[..|ids|-1]);
      assert forall i :: 0 <= i < |ids| - 1 ==> ids[i] == ids[..|ids|-1][i];
    }
  }

  /** The review counts a stall for exactly those well-formed requests that name the origin only: it
      keeps displayed windows as text and looks them up as numbers. A request meets the documented
      bound unless everything it names is displayed and something in it is not the origin. */
  lemma StallsExactly(owned: seq<Ref>, shown: seq<Shown>, origin: int, ids: seq<int>)
    requires owned == TextRefs(shown) && ids != []
    ensures (UnseenRefs(owned, origin, ids) == [] <==> AllDisplayed(origin, shown, ids)) <==>
      !(AllDisplayed(origin, shown, ids) && exists i :: 0 <= i < |ids| && ids[i] != origin)
  {
    OnlyNumbersOwned(owned, origin, ids);
  }

  /** A concrete repeat that is granted again instead of stalling. */
  lemma RepeatNotStalled(grant: Grant)
    ensures
      var shown := [Shown(3, grant)];
      AllDisplayed(5, shown, [3]) && UnseenRefs(TextRefs(shown), 5, [3]) != []
  {
    var shown := [Shown(3, grant)];
    assert shown[0].id == 3;
    OnlyNumbersOwned(TextRefs(shown), 5, [3]);
    assert [3][0] != 5;
  }

  /** The note at the review cursor has saved revisits and no receipt, and no worker is inside it. */
  ghost predicate Wedged(s: State) {
    && Standing(s) && Load(s).complete && !Load(s).review.value.complete && !Load(s).reviewComplete
    && CurrentItem(s).revisits != [] && Reviews(s.ledger, CurrentId(s)) == []
    && (s.phase.Idle? || s.phase.ReviewStart? || s.phase.ReviewTop?)
  }

  /** A worker that stops during a review turn leaves a note that can be resumed exactly when no
      revisit was granted to it yet. */
  lemma StopWedges(job: Job, s: State)
    requires NotebookInv(job, s) && s.phase.Reviewing?
    ensures Standing(s) && (Wedged(Stop(s)) <==> CurrentItem(s).revisits != [])
  {
    hide ReadingInv, ItemsInv, OrderInv;
    UndecidedNote(s);
  }

  lemma WedgedReading(job: Job, s: State, e: Event)
    requires NotebookInv(job, s) && Wedged(s) && Ready(job, s)
    ensures Wedged(Step(job, s, e))
  {
    hide ReadingInv, Inv, OrderInv, ItemsInv, SingleRounds, GateInv;
  }

  lemma WedgedReview(job: Job, s: State, e: ReviewEvent)
    requires NotebookInv(job, s) && Wedged(s) && ReviewReady(s)
    ensures Wedged(ReviewStep(job, s, e))
  {
    hide ReadingInv, Inv, ReviewInv, Revisit, SavedRevisits, EnterItem;
    if s.phase.ReviewTop? && e.Proceed? {
      EnterItemOutcome(job, s);
      EnterItemElse(job, s);
    }
  }

  lemma EnterItemElse(job: Job, s: State)
    requires s.phase.ReviewTop? && Standing(s)
    ensures
      var u := EnterItem(job, s);
      u.phase.Reviewing? || u.phase.ReviewTop? || (u.phase.Idle? && u.disk == s.disk && u.ledger == s.ledger)
  {
  }

  lemma WedgedRetry(job: Job, s: State)
    requires NotebookInv(job, s) && Wedged(s)
    ensures Wedged(Retry(s))
  {
    hide ReadInv, Inv, RetryReading, RetryReview, ReviewInv, Wedged;
    if s.phase.Idle? {
      WedgedStands(s);
      RetryCompleted(job, s.ledger, s.disk.value);
      WedgedReopened(s, RetryReading(s.disk.value));
    }
  }

  lemma WedgedStands(s: State)
    requires Wedged(s)
    ensures s.disk.Some?
  {
  }

  lemma WedgedReopened(s: State, p: Progress)
    requires ReviewInv(s) && Wedged(s)
    requires p.review == Load(s).review && p.complete == Load(s).complete && p.reviewComplete == Load(s).reviewComplete
    ensures Wedged(Save(s, RetryReview(p), Idle))
  {
    var rv := p.review.value;
    hide GateInv, StageInv, SingleRounds, Reviews;
    RetryReviewKeeps(s.ledger, rv);
    hide OrderInv, ItemsInv;
  }

  /** A review that stops after displaying a revisit, before its note has a receipt, can never be
      finished: no resume and no explicit retry passes the note again, so the publication gate
      stays shut on every continuation. */
  lemma {:induction false} WedgedForever(job: Job, s: State, acts: seq<Act>)
    requires NotebookInv(job, s) && Wedged(s)
    ensures Wedged(RunAll(job, s, acts)) && !PublishAllowed(Load(RunAll(job, s, acts)))
  {
    hide NotebookInv, Step, ReviewStep, Retry, Ready, ReviewReady;
    if acts != [] {
      var before := RunAll(job, s, acts[..|acts|-1]);
      WedgedForever(job, s, acts[..|acts|-1]);
      NotebookSafety.RunKeeps(job, s, acts[..|acts|-1]);
      hide Wedged;
      match acts[|acts|-1]
      case Read(e) => if Ready(job, before) { WedgedReading(job, before, e); }
      case Judge(e) => if ReviewReady(before) { WedgedReview(job, before, e); }
      case ExplicitRetry => WedgedRetry(job, before);
    }
    WedgedShut(RunAll(job, s, acts));
  }

  lemma WedgedShut(s: State)
    requires Wedged(s)
    ensures !PublishAllowed(Load(s))
  {
  }
}
