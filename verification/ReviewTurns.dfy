/** What one turn of the post-read review does in every state a run can reach: which windows the ledger
    decides on, which decisions are accepted, and what is saved (app/document_read/notes.py, _run_review). */
module ReviewTurns {
  import opened Wrappers
  import opened Evidence
  import opened NoteLedger
  import opened NoteRules
  import opened NoteOutcomes
  import opened Notebook
  import opened ReadingLoop
  import opened ReadingResume
  import opened ReviewLoop
  import opened NotebookSafety
  import opened NotebookTheorems
  import opened ReadingTurns

  // ---- What a turn stands on ----------------------------------------------

  /** The displayed revisits of the note under review: windows that were read, as the document has them,
      recorded under their ids; and the round is the note's first. */
  ghost predicate DisplayInv(job: Job, s: State) {
    s.phase.Reviewing? ==>
      && Standing(s) && s.phase.round == 1
      && FromDocument(job, s.phase.shown)
      && (forall i :: 0 <= i < |s.phase.shown| ==> ReadEarlier(job, Load(s), s.phase.shown[i].id))
      && CurrentItem(s).revisits == TextRefs(s.phase.shown)
  }

  /** A note of the frozen order without a receipt is not rejected. */
  ghost predicate OpenInv(s: State) {
    Load(s).review.Some? ==>
      forall id :: id in Load(s).review.value.order && Reviews(s.ledger, id) == [] ==>
        id in s.ledger.notes && s.ledger.notes[id].status != Rejected
  }

  /** The quote stands in this window of the document. */
  ghost predicate QuoteStands(job: Job, window: WindowId, primary: Primary) {
    0 <= window < |job.doc| && primary.grantId == window && PrimaryAccepted(primary, job.doc[window].grant)
  }

  /** The quote of every note still stands in the window that created it. */
  ghost predicate QuotesInv(job: Job, l: Ledger) {
    forall id :: id in l.notes ==> QuoteStands(job, l.notes[id].window, l.notes[id].payload.primary)
  }

  ghost predicate TurnInv(job: Job, s: State) {
    NotebookInv(job, s) && DisplayInv(job, s) && OpenInv(s) && QuotesInv(job, s.ledger)
  }

  // ---- Quotes -------------------------------------------------------------

  lemma CreatedQuote(job: Job, n: Note, q: WindowRequest, c: Create)
    requires q.outcome.Some? && 0 <= q.window < |job.doc|
    requires forall i :: 0 <= i < |q.candidates| ==> q.candidates[i].grantId == q.window
    requires q.window in q.grants ==> q.grants[q.window] == job.doc[q.window].grant
    requires CreateFits(job.host, {}, c, q.candidates, q.grants)
    requires CreatedAs(job.host, n, q.window, q.outcome.value, c, q.candidates, q.grants)
    ensures QuoteStands(job, n.window, n.payload.primary)
  {
    hide FieldEvidence, Verbatim;
  }

  lemma RevisedQuote(n0: Note, n1: Note, rs: seq<Revision>, n: nat, id: NoteId)
    requires n <= |rs| && RevisedBy(n0, n1, rs, n, id)
    ensures n1.window == n0.window && n1.payload.primary == n0.payload.primary
  {
  }

  lemma CreatedQuotes(job: Job, l: Ledger, m: Ledger, q: WindowRequest)
    requires QuotesInv(job, l) && q.outcome.Some? && q.creates.Some? && q.revisions.Some?
    requires NotesCommitted(job.host, l, m, q) && 0 <= q.window < |job.doc|
    requires forall i :: 0 <= i < |q.candidates| ==> q.candidates[i].grantId == q.window
    requires q.window in q.grants ==> q.grants[q.window] == job.doc[q.window].grant
    ensures QuotesInv(job, m)
  {
    hide CreateFits, CreatedAs, RevisedBy, QuoteStands;
    var cs := q.creates.value;
    forall id | id in m.notes ensures QuoteStands(job, m.notes[id].window, m.notes[id].payload.primary) {
      if id in l.notes {
        RevisedQuote(l.notes[id], m.notes[id], q.revisions.value, |q.revisions.value|, id);
      } else {
        assert id in CreatedIds(cs);
        var i :| 0 <= i < |cs| && CreatedIds(cs)[i] == id;
        CreatedQuote(job, m.notes[id], q, cs[i]);
      }
    }
  }

  lemma SubmitQuotes(job: Job, s: State, e: Event)
    requires ReadingInv(job, s) && s.phase == Reading && e.Receipt? && OwnCandidates(s, e) && QuotesInv(job, s.ledger)
    ensures Ready(job, s) && QuotesInv(job, Step(job, s, e).ledger)
  {
    OpenHead(job, s);
    if AnswerShaped(e) && Load(s).records[Load(s).cursor].formatAttempts < 2 {
      SubmitsExactly(job, s, e);
      var p := Load(s);
      var q := ReceiptFor(job, p, p.records[p.cursor], HeadContext(job, p).value, e);
      assert Inv(s.ledger) && p.cursor < |job.doc|;
      hide ReadingInv, ReadInv, HeadContext, Step, RetentionFits, GrantsOf, QuotesInv, Inv;
      RequestQuotes(job, s.ledger, q, e.fence);
      hide ReceiptFor, WindowSpec;
    } else {
      MalformedExactly(job, s, e);
    }
  }

  lemma RequestQuotes(job: Job, l: Ledger, q: WindowRequest, fence: Fence)
    requires Inv(l) && QuotesInv(job, l) && 0 <= q.window < |job.doc|
    requires forall i :: 0 <= i < |q.candidates| ==> q.candidates[i].grantId == q.window
    requires q.window in q.grants ==> q.grants[q.window] == job.doc[q.window].grant
    ensures WindowSpec(job.host, l, q, fence).Ok? ==> QuotesInv(job, WindowSpec(job.host, l, q, fence).value.0)
  {
    hide Inv, QuotesInv, WindowRows;
    if WindowSpec(job.host, l, q, fence).Ok? && q.window !in l.windows {
      WindowCommitted(job.host, l, q, fence);
      hide NotesCommitted, NewAudits, WindowSpec;
      CreatedQuotes(job, l, WindowSpec(job.host, l, q, fence).value.0, q);
    }
  }

  /** No decision moves a note or changes its quote. */
  lemma DecisionKeepsQuote(h: Host, l: Ledger, q: ReviewRequest, n: Note, entries: seq<Entry>)
    requires q.action.Some? && q.noteId in l.notes && DecidedAs(h, l, q, n, entries)
    ensures n.window == l.notes[q.noteId].window && n.payload.primary == l.notes[q.noteId].payload.primary
  {
    hide FactStands, FieldEvidence, KeptAll;
  }

  lemma ReviewKeepsQuote(h: Host, l: Ledger, q: ReviewRequest, fence: Fence, id: NoteId)
    requires Inv(l) && ReviewSpec(h, l, q, fence).Ok?
    ensures
      var m := ReviewSpec(h, l, q, fence).value.0;
      && (id in m.notes <==> id in l.notes)
      && (id in l.notes ==>
            m.notes[id].window == l.notes[id].window && m.notes[id].payload.primary == l.notes[id].payload.primary)
  {
    var m := ReviewSpec(h, l, q, fence).value.0;
    hide Inv, ReviewSpec, DecidedAs, Decide, Decided, WithReview;
    ReviewResult(h, l, q, fence);
    if m != l {
      if id == q.noteId {
        ReviewCommitted(h, l, q, fence);
        DecisionKeepsQuote(h, l, q, m.notes[id], Entries(Audit(m, id)[|Audit(l, id)|..]));
      } else {
        ReviewIsolated(h, l, q, fence, id);
        assert NoteAt(m, id) == NoteAt(l, id);
      }
    }
  }

  lemma ReviewQuotes(job: Job, l: Ledger, q: ReviewRequest, fence: Fence)
    requires Inv(l) && QuotesInv(job, l) && ReviewSpec(job.host, l, q, fence).Ok?
    ensures QuotesInv(job, ReviewSpec(job.host, l, q, fence).value.0)
  {
    var m := ReviewSpec(job.host, l, q, fence).value.0;
    hide Inv, ReviewSpec, QuoteStands;
    forall id | id in m.notes ensures QuoteStands(job, m.notes[id].window, m.notes[id].payload.primary) {
      ReviewKeepsQuote(job.host, l, q, fence, id);
    }
  }

  // ---- Turns --------------------------------------------------------------

  /** What the ledger decides on in a turn: the decision as answered, over exactly the window of the note
      and the displayed revisits with the document's content, as the first round under its own key. */
  function DecisionFor(job: Job, s: State, e: ReviewEvent): ReviewRequest
    requires e.Decision? && s.phase.Reviewing? && Standing(s) && CurrentId(s) in s.ledger.notes
  {
    ReviewRequest(CurrentId(s), Some(e.action), e.reason, 1, job.reviewKey(CurrentId(s), 1),
                  DocumentGrants(job, {s.ledger.notes[CurrentId(s)].window} + ShownIds(s.phase.shown)),
                  e.fact, e.witnesses, e.relations)
  }

  /** The checkpoint with this item for the note under review. */
  function WithItem(s: State, item: Item): Option<Progress>
    requires Standing(s)
  {
    var p := Load(s);
    Some(p.(review := Some(p.review.value.(items := p.review.value.items[CurrentId(s) := item]))))
  }

  /** One more failed attempt of the note under review. */
  function Failed(s: State): State
    requires Standing(s)
  {
    s.(disk := WithItem(s, CurrentItem(s).(attempts := CurrentItem(s).attempts + 1, round := Some(1))))
  }

  /** What the ledger's answer to a decision leads to. */
  function Judged(job: Job, s: State, q: ReviewRequest, fence: Fence): State
    requires Standing(s)
  {
    match ReviewSpec(job.host, s.ledger, q, fence)
    case Ok(done) => State(s.disk, done.0, ReviewApplied(done.1))
    case Err(NoteRejected) => Failed(s)
    case Err(_) => s.(phase := Idle)
  }

  /** The facts about the note under review that a turn uses. */
  lemma UnderReview(job: Job, s: State)
    requires TurnInv(job, s) && s.phase.Reviewing?
    ensures ReviewReady(s) && Standing(s) && s.disk.Some? && Load(s).complete && s.phase.round == 1
    ensures CurrentId(s) in s.ledger.notes && Reviews(s.ledger, CurrentId(s)) == [] && !CurrentItem(s).blocked
    ensures s.ledger.notes[CurrentId(s)].status != Rejected && Inv(s.ledger) && job.Valid()
    ensures ReadInv(job, s.ledger, Load(s)) && FromDocument(job, s.phase.shown)
    ensures
      var n := s.ledger.notes[CurrentId(s)];
      && QuoteStands(job, n.window, n.payload.primary) && 0 <= n.window < |job.doc|
      && Revisit(job, Load(s), n.window) == Some(job.Grant(n.window))
  {
    hide Inv, ReadInv, PrimaryAccepted, Revisit;
    AlwaysReviewReady(s);
    UndecidedNote(s);
    CurrentKnown(s);
    OriginRevisits(job, s, CurrentId(s));
    RevisitFromDocument(job, Load(s), s.ledger.notes[CurrentId(s)].window);
    assert CurrentId(s) in Load(s).review.value.order;
  }

  lemma DecisionGrants(job: Job, s: State)
    requires TurnInv(job, s) && s.phase.Reviewing?
    ensures Standing(s) && CurrentId(s) in s.ledger.notes
    ensures
      var w := s.ledger.notes[CurrentId(s)].window;
      && 0 <= w < |job.doc|
      && GrantMap([job.Grant(w)] + s.phase.shown) == DocumentGrants(job, {w} + ShownIds(s.phase.shown))
  {
    UnderReview(job, s);
    hide TurnInv, FromDocument;
    var w := s.ledger.notes[CurrentId(s)].window;
    OneFromDocument(job, w);
    ConcatFromDocument(job, [job.Grant(w)], s.phase.shown);
    GrantMapExactly(job, [job.Grant(w)] + s.phase.shown);
    ShownIdsConcat([job.Grant(w)], s.phase.shown);
  }

  // ---- The context tool of the review -------------------------------------

  lemma {:induction false} UnseenAreOthers(owned: seq<Ref>, origin: int, ids: seq<int>)
    requires forall i :: 0 <= i < |owned| ==> owned[i].Text?
    ensures UnseenRefs(owned, origin, ids) == Fresh([origin], ids)
  {
    if ids != [] {
      UnseenAreOthers(owned, origin, ids[..|ids|-1]);
      FreshSplit([origin], ids[..|ids|-1], ids[|ids|-1]);
      assert ids[..|ids|-1] + [ids[|ids|-1]] == ids;
    }
  }

  /** A refused request: the second one blocks the note. */
  function RefusedTool(s: State): State
    requires Standing(s)
  {
    var item := CurrentItem(s).(toolRejections := CurrentItem(s).toolRejections + 1, round := Some(1));
    State(WithItem(s, item), s.ledger, if item.toolRejections >= 2 then ReviewBlocking else s.phase)
  }

  /** What a request of other windows leads to in a review turn. */
  function ReviewToolResult(job: Job, s: State, window: WindowId, ids: seq<int>): State
    requires Standing(s) && s.phase.Reviewing? && 0 <= window < |job.doc|
  {
    var p, item := Load(s), CurrentItem(s);
    var asked := Fresh([window], ids);
    if !(1 <= |ids| <= 2) || !NoDuplicates(ids) || (exists i :: 0 <= i < |ids| && !(0 <= ids[i] < |job.doc|)) then RefusedTool(s)
    else if asked == [] then
      State(WithItem(s, item.(stalls := item.stalls + 1, round := Some(1))), s.ledger,
            if item.stalls == 0 then s.phase else ReviewBlocking)
    else if |s.phase.shown| + |asked| > 2 || (exists i :: 0 <= i < |asked| && !ReadEarlier(job, p, asked[i])) then RefusedTool(s)
    else
      var shown := s.phase.shown + GrantsOf(job, asked);
      if !job.fits(Dedup([job.Grant(window)] + shown)) then RefusedTool(s)
      else
        State(WithItem(s, item.(revisits := TextRefs(shown), views := shown, stalls := 0, round := Some(1))), s.ledger,
              Reviewing(1, shown))
  }

  /** In every reached review turn: a malformed request, one of a window that was not read, one beyond two
      revisits and one over the byte bound are refused, and the second refusal blocks the note; one that
      names the note's own window only counts as a stall, and the second stall blocks it; any other
      displays the named windows beside those before them, as the document has them. */
  lemma ReviewToolExactly(job: Job, s: State, ids: seq<int>)
    requires TurnInv(job, s) && s.phase.Reviewing?
    ensures Standing(s) && CurrentId(s) in s.ledger.notes && ReviewReady(s)
    ensures 0 <= s.ledger.notes[CurrentId(s)].window < |job.doc|
    ensures CurrentItem(s).attempts < 2 ==>
      NotebookSafety.Next(job, s, Judge(ReviewTool(ids))) ==
        ReviewToolResult(job, s, s.ledger.notes[CurrentId(s)].window, ids)
  {
    hide TurnInv, ReadInv, Inv, Revisit, FromDocument, QuoteStands, ReviewContext, ReviewToolResult, SubmitDecision,
      RefuseDecision, Step, Retry;
    UnderReview(job, s);
    AllRead(job, s);
    ItemDisplayed(job, s);
    var w := s.ledger.notes[CurrentId(s)].window;
    RevisitsExactly(job, s.ledger, Load(s), Fresh([w], ids));
    ReviewToolCases(job, s, w, ids);
  }

  /** Once reading is complete every window has its record. */
  lemma AllRead(job: Job, s: State)
    requires TurnInv(job, s) && s.phase.Reviewing?
    ensures Load(s).cursor == |job.doc| == |Load(s).records|
  {
    UnderReview(job, s);
    hide TurnInv, Inv, HeadInv, ReceiptsInv, RecordInv, Replay, Revisit;
  }

  lemma ItemDisplayed(job: Job, s: State)
    requires TurnInv(job, s) && s.phase.Reviewing?
    ensures Standing(s) && CurrentItem(s).revisits == TextRefs(s.phase.shown)
  {
  }

  lemma ReviewToolCases(job: Job, s: State, window: WindowId, ids: seq<int>)
    requires Standing(s) && s.phase.Reviewing? && s.phase.round == 1 && CurrentId(s) in s.ledger.notes
    requires s.ledger.notes[CurrentId(s)].window == window && 0 <= window < |job.doc| == |Load(s).records|
    requires CurrentItem(s).revisits == TextRefs(s.phase.shown)
    requires Revisit(job, Load(s), window) == Some(job.Grant(window))
    requires
      var p, asked := Load(s), Fresh([window], ids);
      && (RevisitAll(job, p, asked).Some? <==> forall i :: 0 <= i < |asked| ==> ReadEarlier(job, p, asked[i]))
      && (RevisitAll(job, p, asked).Some? ==>
            && (forall i :: 0 <= i < |asked| ==> 0 <= asked[i] < |job.doc|)
            && RevisitAll(job, p, asked) == Some(GrantsOf(job, asked)))
    ensures ReviewContext(job, s, ids) == ReviewToolResult(job, s, window, ids)
  {
    hide Revisit, RevisitAll, Dedup, Fresh, SetItem, SaveItem, NoDuplicates, TextRefs, UnseenRefs;
    var item := CurrentItem(s);
    assert |item.revisits| == |s.phase.shown| by { hide SetItem; TextCount(s.phase.shown); }
    TextOnly(s.phase.shown);
    UnseenAreOthers(item.revisits, window, ids);
    SavedItem(s, item.(toolRejections := item.toolRejections + 1, round := Some(1)),
              if item.toolRejections + 1 >= 2 then ReviewBlocking else s.phase);
    SavedItem(s, item.(stalls := item.stalls + 1, round := Some(1)), if item.stalls + 1 >= 2 then ReviewBlocking else s.phase);
    var asked := Fresh([window], ids);
    if RevisitAll(job, Load(s), asked).Some? {
      var shown := s.phase.shown + GrantsOf(job, asked);
      assert [job.Grant(window)] + s.phase.shown + GrantsOf(job, asked) == [job.Grant(window)] + shown;
      SavedItem(s, item.(revisits := TextRefs(shown), views := shown, stalls := 0, round := Some(1)), Reviewing(1, shown));
    }
  }

  lemma TextCount(shown: seq<Shown>)
    ensures |TextRefs(shown)| == |shown|
  {
  }

  lemma TextOnly(shown: seq<Shown>)
    ensures forall i :: 0 <= i < |TextRefs(shown)| ==> TextRefs(shown)[i].Text?
  {
  }

  // ---- Every run keeps the turns sound ------------------------------------

  /** A reading step never enters a review turn, and leaves one only by stopping. */
  lemma ReadingAside(job: Job, s: State, e: Event)
    requires Ready(job, s)
    ensures Step(job, s, e).phase.Reviewing? ==> Step(job, s, e) == s
    ensures s.phase.Reviewing? ==> Step(job, s, e) == s || Step(job, s, e) == s.(phase := Idle)
  {
    hide HeadContext, RevisitAll, WindowSpec, Retained;
  }

  lemma ReadingStepTurns(job: Job, s: State, e: Event)
    requires TurnInv(job, s) && Ready(job, s)
    ensures TurnInv(job, Step(job, s, e))
  {
    hide ReadingInv, ReviewInv, Step, QuotesInv, OpenInv, Ready;
    var u := Step(job, s, e);
    ReadingStepKeeps(job, s, e);
    ReadingAside(job, s, e);
    ReadingQuotes(job, s, e);
    ReadingOpen(job, s, e);
  }

  lemma ReadingQuotes(job: Job, s: State, e: Event)
    requires ReadingInv(job, s) && Ready(job, s) && QuotesInv(job, s.ledger)
    ensures QuotesInv(job, Step(job, s, e).ledger)
  {
    hide ReadingInv, QuotesInv;
    if e.Receipt? && s.phase.Reading? && OwnCandidates(s, e) {
      SubmitQuotes(job, s, e);
    } else {
      SameLedger(job, s, e);
    }
  }

  lemma SameLedger(job: Job, s: State, e: Event)
    requires Ready(job, s) && !(e.Receipt? && s.phase.Reading? && OwnCandidates(s, e))
    ensures Step(job, s, e).ledger == s.ledger
  {
    hide HeadContext, RevisitAll, Submit;
  }

  lemma ReadingOpen(job: Job, s: State, e: Event)
    requires NotebookInv(job, s) && Ready(job, s) && OpenInv(s)
    ensures OpenInv(Step(job, s, e))
  {
    hide ReadingInv, Step, Ready, Reviews;
    StepFrame(job, s, e);
    hide OrderInv, ItemsInv, SingleRounds, GateInv, StageInv, Grows;
  }

  lemma RetryTurns(job: Job, s: State)
    requires TurnInv(job, s)
    ensures TurnInv(job, Retry(s))
  {
    hide ReadingInv, ReviewInv, QuotesInv, RetryReading, Reviews;
    RetryAllKeeps(job, s);
    RetryOrder(job, s);
  }

  lemma RetryOrder(job: Job, s: State)
    requires NotebookInv(job, s)
    ensures Load(Retry(s)).review.Some? <==> Load(s).review.Some?
    ensures Load(s).review.Some? ==> Load(Retry(s)).review.value.order == Load(s).review.value.order
    ensures Retry(s) == s || (Retry(s).ledger == s.ledger && !Retry(s).phase.Reviewing?)
  {
    hide ReviewInv, Inv, FirstReopened;
    if s.phase.Idle? && s.disk.Some? {
      assert RetryReading(s.disk.value).review == s.disk.value.review;
    }
  }

  /** What a review turn or an ordinary review step leaves of the order. */
  ghost predicate SameOrder(s: State, u: State) {
    Load(s).review.Some? && Load(u).review.Some? && Load(u).review.value.order == Load(s).review.value.order
  }

  lemma OrderStaysOpen(s: State, u: State)
    requires OpenInv(s) && SameOrder(s, u) && u.ledger == s.ledger
    ensures OpenInv(u)
  {
  }

  /** A turn that keeps the ledger. */
  lemma QuietTurn(job: Job, s: State, item: Item, phase: Phase)
    requires TurnInv(job, s) && s.phase.Reviewing? && NotebookInv(job, SaveItem(s, item, phase))
    requires phase.Reviewing? ==>
      && phase.round == 1 && FromDocument(job, phase.shown) && item.revisits == TextRefs(phase.shown)
      && forall i :: 0 <= i < |phase.shown| ==> ReadEarlier(job, Load(s), phase.shown[i].id)
    ensures TurnInv(job, SaveItem(s, item, phase))
  {
    hide NotebookInv, QuotesInv, FromDocument, OpenInv, DisplayInv, SaveItem;
    UnderReview(job, s);
    SavedDisplay(job, s, item, phase);
    SavedOpen(s, item, phase);
  }

  lemma SavedDisplay(job: Job, s: State, item: Item, phase: Phase)
    requires Standing(s)
    requires phase.Reviewing? ==>
      && phase.round == 1 && FromDocument(job, phase.shown) && item.revisits == TextRefs(phase.shown)
      && forall i :: 0 <= i < |phase.shown| ==> ReadEarlier(job, Load(s), phase.shown[i].id)
    ensures DisplayInv(job, SaveItem(s, item, phase))
  {
    hide FromDocument, TextRefs;
    SavedItem(s, item, phase);
  }

  lemma SavedOpen(s: State, item: Item, phase: Phase)
    requires Standing(s) && OpenInv(s)
    ensures OpenInv(SaveItem(s, item, phase)) && SaveItem(s, item, phase).ledger == s.ledger
  {
    hide Reviews;
    SavedItem(s, item, phase);
  }

  lemma DecisionTurn(job: Job, s: State, e: ReviewEvent)
    requires TurnInv(job, s) && s.phase.Reviewing? && e.Decision? && CurrentItem(s).attempts < 2 && Standing(s)
    requires CurrentId(s) in s.ledger.notes
    requires NotebookInv(job, SubmitDecision(job, s, e))
    ensures TurnInv(job, SubmitDecision(job, s, e))
  {
    hide NotebookInv, QuotesInv, FromDocument, TextRefs, Reviews, OpenInv, GrantMap, DocumentGrants, ShownIds, SubmitDecision,
      QuoteStands, Inv;
    UnderReview(job, s);
    DecisionGrants(job, s);
    DecisionCases(job, s, e);
    var q := DecisionFor(job, s, e);
    if ReviewSpec(job.host, s.ledger, q, e.fence).Ok? {
      ReviewQuotes(job, s.ledger, q, e.fence);
      DecidedOpen(job, s, q, e.fence);
    } else if Judged(job, s, q, e.fence).phase.Reviewing? {
      var item := CurrentItem(s).(attempts := CurrentItem(s).attempts + 1, round := Some(1));
      SavedItem(s, item, s.phase);
      QuietTurn(job, s, item, s.phase);
    } else {
      OrderStaysOpen(s, s.(phase := Idle));
    }
  }

  lemma DecidedOpen(job: Job, s: State, q: ReviewRequest, fence: Fence)
    requires Inv(s.ledger) && OpenInv(s) && ReviewSpec(job.host, s.ledger, q, fence).Ok? && Reviews(s.ledger, q.noteId) == []
    ensures OpenInv(State(s.disk, ReviewSpec(job.host, s.ledger, q, fence).value.0,
                          ReviewApplied(ReviewSpec(job.host, s.ledger, q, fence).value.1)))
  {
    var m := ReviewSpec(job.host, s.ledger, q, fence).value.0;
    hide Inv, ReviewSpec, Reviews;
    FirstRound(job.host, s.ledger, q, fence);
    if Load(s).review.Some? {
      forall id | id in Load(s).review.value.order && Reviews(m, id) == []
        ensures id in m.notes && m.notes[id].status != Rejected
      {
        ReviewIsolated(job.host, s.ledger, q, fence, id);
        assert NoteAt(m, id) == NoteAt(s.ledger, id);
      }
    }
  }

  lemma ToolTurn(job: Job, s: State, ids: seq<int>)
    requires TurnInv(job, s) && s.phase.Reviewing? && Standing(s) && CurrentId(s) in s.ledger.notes
    requires CurrentItem(s).attempts < 2 && NotebookInv(job, ReviewContext(job, s, ids))
    ensures TurnInv(job, ReviewContext(job, s, ids))
  {
    hide NotebookInv, QuotesInv, OpenInv, ReadInv, Inv, Revisit, QuoteStands, ReviewContext, TextRefs, FromDocument, DisplayInv;
    UnderReview(job, s);
    AllRead(job, s);
    ItemDisplayed(job, s);
    var w := s.ledger.notes[CurrentId(s)].window;
    RevisitsExactly(job, s.ledger, Load(s), Fresh([w], ids));
    ReviewToolCases(job, s, w, ids);
    ResultDisplays(job, s, w, ids);
    var u := ReviewToolResult(job, s, w, ids);
    hide ReviewToolResult;
    if u.phase == ReviewBlocking || u.phase.Reviewing? {
      var item := CurrentItem(u);
      assert u == State(WithItem(s, item), s.ledger, u.phase);
      SavedItem(s, item, u.phase);
      QuietTurn(job, s, item, u.phase);
    }
  }

  /** The result of a request displays windows of the document that were read, under their ids. */
  lemma ResultDisplays(job: Job, s: State, window: WindowId, ids: seq<int>)
    requires Standing(s) && s.phase.Reviewing? && 0 <= window < |job.doc| && DisplayInv(job, s)
    ensures
      var u := ReviewToolResult(job, s, window, ids);
      && Standing(u) && (u.phase == ReviewBlocking || u.phase.Reviewing?)
      && u == State(WithItem(s, CurrentItem(u)), s.ledger, u.phase)
      && (u.phase.Reviewing? ==>
            && u.phase.round == 1 && FromDocument(job, u.phase.shown) && CurrentItem(u).revisits == TextRefs(u.phase.shown)
            && forall i :: 0 <= i < |u.phase.shown| ==> ReadEarlier(job, Load(s), u.phase.shown[i].id))
  {
    hide Fresh, Dedup, TextRefs, NoDuplicates;
  }

  lemma EnteredTurn(job: Job, s: State)
    requires TurnInv(job, s) && s.phase == ReviewTop && Standing(s) && NotebookInv(job, EnterItem(job, s))
    ensures TurnInv(job, EnterItem(job, s))
  {
    hide NotebookInv, QuotesInv, OpenInv, Revisit, RevisitAll, Reviews, DisplayInv;
    EntersTurn(job, s);
    EnteredQuietly(job, s);
    var u := EnterItem(job, s);
    hide EnterItem;
    OrderStaysOpen(s, u);
  }

  /** A note is entered with nothing displayed yet, in its first round. */
  lemma EntersTurn(job: Job, s: State)
    requires NotebookInv(job, s) && s.phase == ReviewTop && Standing(s)
    ensures EnterItem(job, s).phase.Reviewing? ==>
      EnterItem(job, s) == s.(phase := Reviewing(1, [])) && CurrentItem(s).revisits == []
    ensures DisplayInv(job, EnterItem(job, s))
  {
    hide ReadingInv, ReviewInv, Revisit, RevisitAll, Reviews, SetItem;
    EnterItemOutcome(job, s);
    assert TextRefs([]) == [];
  }

  lemma EnteredQuietly(job: Job, s: State)
    requires s.phase == ReviewTop && Standing(s)
    ensures EnterItem(job, s).ledger == s.ledger && SameOrder(s, EnterItem(job, s))
  {
    hide Revisit, RevisitAll, Reviews;
  }

  lemma BegunOpen(job: Job, s: State)
    requires NotebookInv(job, s) && OpenInv(s) && s.phase == ReviewStart
    ensures OpenInv(Begin(job, s)) && !Begin(job, s).phase.Reviewing? && Begin(job, s).ledger == s.ledger
  {
    hide ReviewInv, ReadInv, Inv, Reviews, OpenOrder;
    WholeOpenOrder(s.ledger);
  }

  lemma ReviewStepTurns(job: Job, s: State, e: ReviewEvent)
    requires TurnInv(job, s) && ReviewReady(s)
    ensures TurnInv(job, ReviewStep(job, s, e))
  {
    hide NotebookInv, QuotesInv, OpenInv, Begin, EnterItem, Complete, Turn, Reviews, SetItem, SetCursor, CurrentItem;
    ReviewStepKeeps(job, s, e);
    match s.phase
    case ReviewStart => if e.Proceed? { BegunOpen(job, s); }
    case ReviewTop =>
      StandsOrEnds(job, s);
      if e.Proceed? {
        if Standing(s) { EnteredTurn(job, s); } else { CompletedTurn(job, s); }
      }
    case Reviewing(_, _) => TurnTurns(job, s, e);
    case ReviewBlocking => if e.Proceed? { BlockedTurn(job, s); }
    case ReviewApplied(_) => if e.Proceed? { AppliedTurn(job, s); }
    case _ =>
  }

  lemma StandsOrEnds(job: Job, s: State)
    requires NotebookInv(job, s) && s.phase == ReviewTop
    ensures Standing(s) <==> s.disk.Some? && ReviewOf(Load(s)).cursor < |ReviewOf(Load(s)).order|
  {
    TopOpen(s);
    hide ReadingInv, ReviewInv;
  }

  lemma CompletedTurn(job: Job, s: State)
    requires TurnInv(job, s) && s.phase == ReviewTop && NotebookInv(job, Complete(s))
    ensures TurnInv(job, Complete(s))
  {
    TopOpen(s);
    hide NotebookInv, QuotesInv, CountOpen;
    OrderStaysOpen(s, Complete(s));
  }

  lemma BlockedTurn(job: Job, s: State)
    requires TurnInv(job, s) && s.phase == ReviewBlocking && ReviewReady(s)
    requires NotebookInv(job, SaveItem(s, CurrentItem(s).(blocked := true), Idle))
    ensures TurnInv(job, SaveItem(s, CurrentItem(s).(blocked := true), Idle))
  {
    UndecidedNote(s);
    hide NotebookInv, QuotesInv, OpenInv, SaveItem;
    SavedDisplay(job, s, CurrentItem(s).(blocked := true), Idle);
    SavedOpen(s, CurrentItem(s).(blocked := true), Idle);
  }

  lemma AppliedTurn(job: Job, s: State)
    requires TurnInv(job, s) && s.phase.ReviewApplied? && ReviewReady(s) && NotebookInv(job, ReviewStep(job, s, Proceed))
    ensures TurnInv(job, ReviewStep(job, s, Proceed))
  {
    TopOpen(s);
    hide NotebookInv, QuotesInv, OpenInv, Reviews, DisplayInv;
    AppliedQuietly(job, s);
    hide ReviewStep;
    OrderStaysOpen(s, ReviewStep(job, s, Proceed));
  }

  lemma AppliedQuietly(job: Job, s: State)
    requires Standing(s) && s.phase.ReviewApplied? && ReviewReady(s)
    ensures
      var u := ReviewStep(job, s, Proceed);
      u.ledger == s.ledger && SameOrder(s, u) && DisplayInv(job, u)
  {
    hide Reviews;
  }

  /** Staying with the note, or stopping, without displaying anything new. */
  lemma StayedTurn(job: Job, s: State, item: Item, phase: Phase)
    requires TurnInv(job, s) && s.phase.Reviewing? && Standing(s) && NotebookInv(job, SaveItem(s, item, phase))
    requires item.revisits == CurrentItem(s).revisits && (phase == s.phase || phase == Idle)
    ensures TurnInv(job, SaveItem(s, item, phase))
  {
    hide NotebookInv, QuotesInv, OpenInv, FromDocument, SaveItem, TextRefs;
    QuietTurn(job, s, item, phase);
  }

  lemma TurnTurns(job: Job, s: State, e: ReviewEvent)
    requires TurnInv(job, s) && s.phase.Reviewing? && ReviewReady(s) && NotebookInv(job, Turn(job, s, e))
    ensures TurnInv(job, Turn(job, s, e))
  {
    hide TurnInv, NotebookInv, ReviewContext, SubmitDecision, Reviews, FromDocument, SaveItem, ReadInv, Inv, Revisit, QuoteStands;
    UnderReview(job, s);
    var item := CurrentItem(s);
    hide CurrentItem;
    if item.attempts >= 2 {
      StayedTurn(job, s, item.(blocked := true, round := Some(s.phase.round)), Idle);
    } else {
      match e
      case Proceed =>
      case ReviewTool(ids) => ToolTurn(job, s, ids);
      case BadDecision => StayedTurn(job, s, item.(attempts := item.attempts + 1, round := Some(s.phase.round)), s.phase);
      case Decision(_, _, _, _, _, _) => DecisionTurn(job, s, e);
    }
  }

  /** What a review turn stands on holds in every state that a run reaches. */
  lemma {:induction false} ReachedTurns(job: Job, acts: seq<Act>)
    requires job.Valid()
    ensures TurnInv(job, Reached(job, acts))
  {
    hide TurnInv, NotebookSafety.Next;
    if acts == [] {
      BlankTurns(job);
    } else {
      ReachedTurns(job, acts[..|acts|-1]);
      NextTurns(job, Reached(job, acts[..|acts|-1]), acts[|acts|-1]);
    }
  }

  lemma NextTurns(job: Job, s: State, a: Act)
    requires TurnInv(job, s)
    ensures TurnInv(job, NotebookSafety.Next(job, s, a))
  {
    hide TurnInv, Step, ReviewStep, Retry, Ready, ReviewReady;
    match a
    case Read(e) => if Ready(job, s) { ReadingStepTurns(job, s, e); }
    case Judge(e) => if ReviewReady(s) { ReviewStepTurns(job, s, e); }
    case ExplicitRetry => RetryTurns(job, s);
  }

  lemma BlankTurns(job: Job)
    requires job.Valid()
    ensures TurnInv(job, BLANK)
  {
    BlankInv(job);
    hide NotebookInv;
  }

  /** In every reached review turn with attempts left, the ledger decides on exactly the note's own window
      and the displayed revisits, with the document's content; it is not asked about anything else, and
      its answer is carried to the next save. */
  lemma DecidesOnDisplayed(job: Job, s: State, e: ReviewEvent)
    requires TurnInv(job, s) && s.phase.Reviewing? && e.Decision?
    ensures Standing(s) && CurrentId(s) in s.ledger.notes && ReviewReady(s)
    ensures CurrentItem(s).attempts < 2 ==>
      NotebookSafety.Next(job, s, Judge(e)) == Judged(job, s, DecisionFor(job, s, e), e.fence)
  {
    hide TurnInv, ReadInv, Inv, Revisit, FromDocument, SubmitDecision, Judged, DecisionFor, QuoteStands, GrantMap,
      DocumentGrants, ReviewContext, RefuseDecision, Step, Retry, ShownIds;
    UnderReview(job, s);
    DecisionGrants(job, s);
    DecisionCases(job, s, e);
  }

  lemma DecisionCases(job: Job, s: State, e: ReviewEvent)
    requires Standing(s) && s.phase.Reviewing? && e.Decision? && CurrentId(s) in s.ledger.notes && s.phase.round == 1
    requires
      var n := s.ledger.notes[CurrentId(s)];
      && QuoteStands(job, n.window, n.payload.primary) && 0 <= n.window < |job.doc|
      && Revisit(job, Load(s), n.window) == Some(job.Grant(n.window))
      && GrantMap([job.Grant(n.window)] + s.phase.shown) == DocumentGrants(job, {n.window} + ShownIds(s.phase.shown))
    ensures SubmitDecision(job, s, e) == Judged(job, s, DecisionFor(job, s, e), e.fence)
  {
    SavedItem(s, CurrentItem(s).(attempts := CurrentItem(s).attempts + 1, round := Some(1)), s.phase);
    hide Revisit, GrantMap, DocumentGrants, ReviewSpec, PrimaryAccepted, SaveItem, SetItem;
  }

  /** Saving the item of the note under review. */
  lemma SavedItem(s: State, item: Item, phase: Phase)
    requires Standing(s)
    ensures SaveItem(s, item, phase) == State(WithItem(s, item), s.ledger, phase)
    ensures Standing(SaveItem(s, item, phase)) && CurrentId(SaveItem(s, item, phase)) == CurrentId(s)
    ensures CurrentItem(SaveItem(s, item, phase)) == item
  {
  }

  lemma DocumentInScope(job: Job, ids: set<int>, w: int)
    requires job.Valid() && w in ids && 0 <= w < |job.doc|
    ensures DisplayedInScope(job.host, DocumentGrants(job, ids)) && |DocumentGrants(job, ids)| > 0
  {
    assert w in DocumentGrants(job, ids);
  }

  lemma DisplayedShaped(job: Job, s: State, e: ReviewEvent)
    requires TurnInv(job, s) && s.phase.Reviewing? && e.Decision?
    ensures Standing(s) && CurrentId(s) in s.ledger.notes && Reviews(s.ledger, CurrentId(s)) == [] && Inv(s.ledger)
    ensures s.ledger.notes[CurrentId(s)].status != Rejected
    ensures DecisionShaped(job.host, DecisionFor(job, s, e)) <==> TextFits(e.reason)
  {
    hide TurnInv, ReadInv, Inv, Revisit, QuoteStands, FromDocument, ShownIds, Reviews, TextFits;
    UnderReview(job, s);
    var w := s.ledger.notes[CurrentId(s)].window;
    DocumentInScope(job, {w} + ShownIds(s.phase.shown), w);
    hide DocumentGrants, DisplayedInScope;
  }

  /** Which decisions a reached review turn accepts: with the lease held, exactly those with a bounded
      reason that fit the note over the displayed windows; they lead to the receipt of round 1. Any other
      decision costs an attempt, and a lost lease ends the run. */
  lemma DecisionAccepted(job: Job, s: State, e: ReviewEvent)
    requires TurnInv(job, s) && s.phase.Reviewing? && e.Decision?
    ensures Standing(s) && CurrentId(s) in s.ledger.notes
    ensures
      var q := DecisionFor(job, s, e);
      var fits := TextFits(e.reason) && DecisionFits(job.host, s.ledger, q);
      var u := Judged(job, s, q, e.fence);
      && (fits && e.fence == Fence(true, true) ==>
            u.phase.ReviewApplied? && u.disk == s.disk && ReviewedAs(job.host, s.ledger, q, u.ledger, u.phase.receipt))
      && (!fits && e.fence.atStart ==> u == Failed(s))
      && (fits && e.fence != Fence(true, true) ==> u == s.(phase := Idle))
  {
    hide TurnInv, Inv, DecisionFits, DecisionShaped, DecisionFor, ReviewedAs, Failed, Reviews, CurrentItem;
    DisplayedShaped(job, s, e);
    DecisionNamed(job, s, e);
    FirstDecision(job.host, s.ledger, DecisionFor(job, s, e), e.fence);
    hide ReviewSpec;
  }

  lemma DecisionNamed(job: Job, s: State, e: ReviewEvent)
    requires e.Decision? && s.phase.Reviewing? && Standing(s) && CurrentId(s) in s.ledger.notes
    ensures
      var q := DecisionFor(job, s, e);
      q.noteId == CurrentId(s) && q.round == 1 && q.action == Some(e.action)
  {
  }

  /** A first decision of an open note, by whether it fits and the lease holds. */
  lemma FirstDecision(h: Host, l: Ledger, q: ReviewRequest, fence: Fence)
    requires Inv(l) && q.noteId in l.notes && l.notes[q.noteId].status != Rejected
    requires Reviews(l, q.noteId) == [] && q.round == 1 && q.action.Some?
    ensures
      var r := ReviewSpec(h, l, q, fence);
      var fits := DecisionShaped(h, q) && DecisionFits(h, l, q);
      && (fits && fence == Fence(true, true) ==> r.Ok? && ReviewedAs(h, l, q, r.value.0, r.value.1))
      && (!fits && fence.atStart ==> r == Err(NoteRejected))
      && (!DecisionShaped(h, q) ==> r == Err(NoteRejected))
      && (fits && fence != Fence(true, true) ==> r == Err(LeaseLost))
  {
    hide Inv, DecisionFits, DecisionShaped, ReviewedAs, Reviews, ReviewSpec;
    ReviewAccepted(h, l, q, fence);
    ReviewCommitted(h, l, q, fence);
    if DecisionShaped(h, q) {
      ReviewRefused(h, l, q, fence);
    } else {
      UnshapedRefused(h, l, q, fence);
    }
    LostAtEnd(h, l, q, fence);
  }

  lemma UnshapedRefused(h: Host, l: Ledger, q: ReviewRequest, fence: Fence)
    requires !DecisionShaped(h, q)
    ensures ReviewSpec(h, l, q, fence) == Err(NoteRejected)
  {
    ShapedExactly(h, q);
    hide DecisionShaped, ReviewShapeOk;
  }

  /** A lease lost during the transaction rolls an acceptable decision back. */
  lemma LostAtEnd(h: Host, l: Ledger, q: ReviewRequest, fence: Fence)
    requires Inv(l) && q.noteId in l.notes && l.notes[q.noteId].status != Rejected
    requires Reviews(l, q.noteId) == [] && q.round == 1 && q.action.Some?
    ensures DecisionShaped(h, q) && DecisionFits(h, l, q) && fence.atStart && !fence.atEnd ==>
      ReviewSpec(h, l, q, fence) == Err(LeaseLost)
  {
    ShapedExactly(h, q);
    DecidesExactly(h, l, q);
    RoundsOf(l, q.noteId);
    if DecisionFits(h, l, q) { ReviewRowsOutcome(h, l, q); }
    hide Inv, DecisionFits, DecisionShaped, ReviewShapeOk, Decide, ReviewRows, LastRound, Reviews;
  }

  // ---- Decisions a reviewer can always make -------------------------------

  const HELD := Fence(true, true)

  /** Confirming a verified note with a bounded reason is accepted in every turn, whether or not anything
      was displayed beside its own window; so is a doubt or a rejection of any note under review. */
  lemma PlainDecisionAccepted(job: Job, s: State, e: ReviewEvent)
    requires TurnInv(job, s) && s.phase.Reviewing? && e.Decision? && e.fence == HELD && TextFits(e.reason)
    requires Standing(s) && CurrentId(s) in s.ledger.notes && CurrentItem(s).attempts < 2
    requires e.action == MarkNeedsCheck || e.action == Reject
             || (e.action == Confirmed && s.ledger.notes[CurrentId(s)].status == Verified)
    ensures ReviewReady(s)
    ensures
      var u := NotebookSafety.Next(job, s, Judge(e));
      var n := s.ledger.notes[CurrentId(s)];
      && u.phase.ReviewApplied? && u.disk == s.disk
      && u.phase.receipt == ReviewReceipt(CurrentId(s), 1, e.action, if e.action == Confirmed then n.rev else n.rev + 1,
                                          match e.action case MarkNeedsCheck => NeedsCheck case Reject => Rejected
                                                         case _ => Verified)
  {
    hide TurnInv, TextFits;
    DecidesOnDisplayed(job, s, e);
    DecisionAccepted(job, s, e);
    PlainFits(job, s, e);
    hide Step, ReviewStep, Judged, DecisionFits;
    var u := Judged(job, s, DecisionFor(job, s, e), e.fence);
    PlainReceipt(job.host, s.ledger, DecisionFor(job, s, e), u.ledger, u.phase.receipt);
    hide ReviewedAs, DecisionFor, NotebookSafety.Next;
  }

  lemma PlainFits(job: Job, s: State, e: ReviewEvent)
    requires s.phase.Reviewing? && e.Decision? && Standing(s) && CurrentId(s) in s.ledger.notes
    requires e.action == MarkNeedsCheck || e.action == Reject
             || (e.action == Confirmed && s.ledger.notes[CurrentId(s)].status == Verified)
    ensures DecisionFits(job.host, s.ledger, DecisionFor(job, s, e))
  {
  }

  lemma PlainReceipt(h: Host, l: Ledger, q: ReviewRequest, m: Ledger, receipt: ReviewReceipt)
    requires q.action.Some? && q.noteId in l.notes && ReviewedAs(h, l, q, m, receipt)
    requires q.action.value == MarkNeedsCheck || q.action.value == Reject
             || (q.action.value == Confirmed && l.notes[q.noteId].status == Verified)
    ensures receipt.noteId == q.noteId && receipt.round == q.round && receipt.action == q.action.value
    ensures receipt.rev == if q.action.value == Confirmed then l.notes[q.noteId].rev else l.notes[q.noteId].rev + 1
    ensures receipt.status == match q.action.value case MarkNeedsCheck => NeedsCheck case Reject => Rejected case _ => Verified
  {
  }

  /** A replacement fact whose evidence stands in what is displayed: complete, with a known period, its
      witnesses quoting the note's own window or a displayed revisit, and each known qualifier in the
      note's quote or witnessed. */
  ghost predicate EvidenceDisplayed(job: Job, s: State, f: Fact, ws: seq<Witness>)
    requires s.phase.Reviewing? && Standing(s) && CurrentId(s) in s.ledger.notes
    requires 0 <= s.ledger.notes[CurrentId(s)].window < |job.doc|
  {
    var n := s.ledger.notes[CurrentId(s)];
    var displayed := DocumentGrants(job, {n.window} + ShownIds(s.phase.shown));
    && !Text.IsBlank(f.entity) && !Text.IsBlank(f.attribute) && !Text.IsBlank(f.value) && !Text.IsBlank(f.valueType)
    && !Text.IsBlank(f.period) && f.period !in {"", "unknown", "unspecified", "未知"}
    && |ws| <= 3 && (forall i, j :: 0 <= i < j < |ws| ==> ws[i].field != ws[j].field)
    && (forall i :: 0 <= i < |ws| ==> Stands(ws[i], f, job.doc[n.window].grant, displayed, job.host.company))
    && (Contains(Text.Squeeze(n.payload.primary.quote), Text.Squeeze(f.period))
        || exists i :: 0 <= i < |ws| && ws[i].field == Some(Period))
    && (f.unit == "" || Contains(Text.Squeeze(n.payload.primary.quote), Text.Squeeze(f.unit))
        || exists i :: 0 <= i < |ws| && ws[i].field == Some(Unit))
  }

  /** A fact revision whose evidence stands in the note's own window or in a displayed revisit is accepted
      in every turn: the quote that the note was created with still stands, and the note becomes verified
      with the new fact. */
  lemma RevisionAccepted(job: Job, s: State, e: ReviewEvent)
    requires TurnInv(job, s) && s.phase.Reviewing? && e.Decision? && e.fence == HELD && TextFits(e.reason)
    requires Standing(s) && CurrentId(s) in s.ledger.notes && CurrentItem(s).attempts < 2
    requires 0 <= s.ledger.notes[CurrentId(s)].window < |job.doc|
    requires e.action == ReviseFact && e.fact.Some? && e.relations == []
    requires EvidenceDisplayed(job, s, e.fact.value, e.witnesses)
    ensures ReviewReady(s)
    ensures
      var u := NotebookSafety.Next(job, s, Judge(e));
      && u.phase.ReviewApplied? && CurrentId(s) in u.ledger.notes
      && u.ledger.notes[CurrentId(s)].status == Verified
      && u.ledger.notes[CurrentId(s)].payload.fact == e.fact.value
      && u.ledger.notes[CurrentId(s)].payload.primary == s.ledger.notes[CurrentId(s)].payload.primary
  {
    hide TurnInv, EvidenceDisplayed, TextFits;
    DecidesOnDisplayed(job, s, e);
    DecisionAccepted(job, s, e);
    RevisionFitsDisplayed(job, s, e);
    hide Step, ReviewStep, Judged, DecisionFits;
    var u := Judged(job, s, DecisionFor(job, s, e), e.fence);
    RevisedNote(job.host, s.ledger, DecisionFor(job, s, e), u.ledger, u.phase.receipt);
    hide ReviewedAs, DecisionFor, NotebookSafety.Next;
  }

  lemma RevisionFitsDisplayed(job: Job, s: State, e: ReviewEvent)
    requires TurnInv(job, s) && s.phase.Reviewing? && e.Decision? && Standing(s) && CurrentId(s) in s.ledger.notes
    requires 0 <= s.ledger.notes[CurrentId(s)].window < |job.doc|
    requires e.action == ReviseFact && e.fact.Some? && e.relations == []
    requires EvidenceDisplayed(job, s, e.fact.value, e.witnesses)
    ensures DecisionFits(job.host, s.ledger, DecisionFor(job, s, e))
  {
    hide TurnInv, ReadInv, Inv, Revisit, FromDocument, QuoteStands;
    UnderReview(job, s);
    var n := s.ledger.notes[CurrentId(s)];
    DisplayedEvidence(job, s, e.fact.value, e.witnesses);
    QuoteFits(job, s.ledger, DecisionFor(job, s, e), n.window);
    hide EvidenceDisplayed, FieldEvidence, DocumentGrants;
  }

  /** The literal guard accepts evidence that stands in what is displayed. */
  lemma DisplayedEvidence(job: Job, s: State, f: Fact, ws: seq<Witness>)
    requires s.phase.Reviewing? && Standing(s) && CurrentId(s) in s.ledger.notes
    requires 0 <= s.ledger.notes[CurrentId(s)].window < |job.doc| && EvidenceDisplayed(job, s, f, ws)
    ensures
      var n := s.ledger.notes[CurrentId(s)];
      var displayed := DocumentGrants(job, {n.window} + ShownIds(s.phase.shown));
      && n.window in displayed && displayed[n.window] == job.doc[n.window].grant
      && FieldEvidence(f, n.payload.primary.quote, ws, job.doc[n.window].grant, displayed, job.host.company).Some?
      && !Text.IsBlank(f.entity) && !Text.IsBlank(f.attribute) && !Text.IsBlank(f.value) && !Text.IsBlank(f.valueType)
      && !Text.IsBlank(f.period) && f.period !in {"", "unknown", "unspecified", "未知"}
  {
    hide Stands, Verbatim, Contains, FieldEvidence, Text.IsBlank;
    var n := s.ledger.notes[CurrentId(s)];
    var displayed := DocumentGrants(job, {n.window} + ShownIds(s.phase.shown));
    EvidenceExactly(f, n.payload.primary.quote, ws, job.doc[n.window].grant, displayed, job.host.company);
  }

  lemma QuoteFits(job: Job, l: Ledger, q: ReviewRequest, window: WindowId)
    requires q.action == Some(ReviseFact) && q.noteId in l.notes && q.fact.Some? && q.relations == []
    requires QuoteStands(job, window, l.notes[q.noteId].payload.primary)
    requires window in q.grants && q.grants[window] == job.doc[window].grant
    requires
      var f := q.fact.value;
      && FieldEvidence(f, l.notes[q.noteId].payload.primary.quote, q.witnesses, q.grants[window], q.grants, job.host.company).Some?
      && !Text.IsBlank(f.entity) && !Text.IsBlank(f.attribute) && !Text.IsBlank(f.value) && !Text.IsBlank(f.valueType)
      && !Text.IsBlank(f.period) && f.period !in {"", "unknown", "unspecified", "未知"}
    ensures DecisionFits(job.host, l, q)
  {
    hide FieldEvidence, Verbatim, Text.IsBlank;
  }

  lemma RevisedNote(h: Host, l: Ledger, q: ReviewRequest, m: Ledger, receipt: ReviewReceipt)
    requires q.action == Some(ReviseFact) && q.noteId in l.notes && ReviewedAs(h, l, q, m, receipt)
    ensures q.fact.Some? && q.noteId in m.notes
    ensures m.notes[q.noteId].status == Verified && m.notes[q.noteId].payload.fact == q.fact.value
    ensures m.notes[q.noteId].payload.primary == l.notes[q.noteId].payload.primary
  {
    hide FieldEvidence, Verbatim, KeptAll;
  }

  // ---- The other steps of the review --------------------------------------

  /** After two failed attempts the note is blocked before anything else is asked of it, and a malformed
      decision is one of those attempts. */
  lemma AttemptsExactly(job: Job, s: State, e: ReviewEvent)
    requires TurnInv(job, s) && s.phase.Reviewing?
    ensures Standing(s) && ReviewReady(s)
    ensures CurrentItem(s).attempts >= 2 ==>
      NotebookSafety.Next(job, s, Judge(e)) ==
        State(WithItem(s, CurrentItem(s).(blocked := true, round := Some(1))), s.ledger, Idle)
    ensures CurrentItem(s).attempts < 2 ==> NotebookSafety.Next(job, s, Judge(BadDecision)) == Failed(s)
  {
    hide TurnInv, ReadInv, Inv, Revisit, FromDocument, QuoteStands, Step, Retry, ReviewContext, SubmitDecision, SaveItem, WithItem;
    UnderReview(job, s);
    SavedItem(s, CurrentItem(s).(blocked := true, round := Some(1)), Idle);
    SavedItem(s, CurrentItem(s).(attempts := CurrentItem(s).attempts + 1, round := Some(1)), s.phase);
  }

  /** A blocked note stops the run. */
  lemma BlockingExactly(job: Job, s: State)
    requires TurnInv(job, s) && s.phase == ReviewBlocking
    ensures Standing(s) && ReviewReady(s)
    ensures NotebookSafety.Next(job, s, Judge(Proceed)) ==
      State(WithItem(s, CurrentItem(s).(blocked := true)), s.ledger, Idle)
  {
    UndecidedNote(s);
    AlwaysReviewReady(s);
    hide TurnInv;
    BlockingCase(job, s);
  }

  lemma BlockingCase(job: Job, s: State)
    requires s.phase == ReviewBlocking && Standing(s) && ReviewReady(s)
    ensures NotebookSafety.Next(job, s, Judge(Proceed)) ==
      State(WithItem(s, CurrentItem(s).(blocked := true)), s.ledger, Idle)
  {
    hide Step, Retry, SaveItem, WithItem, Turn, EnterItem, Begin;
    SavedItem(s, CurrentItem(s).(blocked := true), Idle);
  }

  /** The notes that are not rejected, in the order in which they were created. */
  function OpenIn(l: Ledger, ids: seq<NoteId>): seq<NoteId> {
    if ids == [] then []
    else (if ids[0] in l.notes && l.notes[ids[0]].status != Rejected then [ids[0]] else []) + OpenIn(l, ids[1..])
  }

  lemma {:induction false} OpenInSplit(l: Ledger, ids: seq<NoteId>, id: NoteId)
    ensures OpenIn(l, ids + [id]) ==
      OpenIn(l, ids) + if id in l.notes && l.notes[id].status != Rejected then [id] else []
  {
    if ids == [] {
      assert [id][1..] == [];
    } else {
      assert (ids + [id])[1..] == ids[1..] + [id];
      OpenInSplit(l, ids[1..], id);
    }
  }

  lemma {:induction false} OpenOrderExactly(l: Ledger, n: nat)
    requires n <= |l.order|
    ensures OpenOrder(l, n) == OpenIn(l, l.order[..n])
  {
    if n > 0 {
      OpenOrderExactly(l, n - 1);
      OpenInSplit(l, l.order[..n-1], l.order[n-1]);
      assert l.order[..n] == l.order[..n-1] + [l.order[n-1]];
    }
  }

  /** The review begins by freezing the order of the notes that are not rejected, goes on where it was when
      the order is frozen already, and is not entered again once it is complete. No grant that the
      reading recorded ever differs from the document. */
  lemma BeginsExactly(job: Job, s: State)
    requires NotebookInv(job, s) && s.phase == ReviewStart
    ensures ReviewReady(s)
    ensures
      var p, rv := Load(s), ReviewOf(Load(s));
      NotebookSafety.Next(job, s, Judge(Proceed)) ==
        if rv.complete then s.(phase := Gate)
        else if rv.order != [] then s.(phase := ReviewTop)
        else State(Some(p.(review := Some(rv.(order := OpenIn(s.ledger, s.ledger.order))))), s.ledger, ReviewTop)
  {
    AlwaysReviewReady(s);
    NeverTampered(job, s.ledger, Load(s));
    assert s.ledger.order[..|s.ledger.order|] == s.ledger.order;
    OpenOrderExactly(s.ledger, |s.ledger.order|);
    hide NotebookInv, Step, Retry, OpenOrder, OpenIn, GrantsUnchanged, EnterItem, Turn;
  }

  lemma NeverTampered(job: Job, l: Ledger, p: Progress)
    requires ReadInv(job, l, p)
    ensures GrantsUnchanged(job, p)
  {
    hide HeadInv, ReceiptsInv, Replay;
    forall i | 0 <= i < |p.records| && p.records[i].grant.Some? ensures p.records[i].grant.value == job.Grant(i) {
      assert RecordInv(job, l, p.records[i], i);
    }
  }

  /** The checkpoint with this item for the note under review, past that note. */
  function PastItem(s: State, item: Item): Option<Progress>
    requires Standing(s)
  {
    var p := Load(s);
    var rv := p.review.value;
    Some(p.(review := Some(rv.(items := rv.items[CurrentId(s) := item], cursor := rv.cursor + 1))))
  }

  /** At the head of the review loop: a blocked note stops the run; one whose receipt the ledger holds is
      passed with that receipt; one with saved revisits stops the run as well, since those are never
      found again; any other is put under review with nothing displayed but its own window. */
  lemma EntersReviewExactly(job: Job, s: State)
    requires TurnInv(job, s) && s.phase == ReviewTop && Standing(s)
    ensures ReviewReady(s)
    ensures
      var item, rounds := CurrentItem(s), Reviews(s.ledger, CurrentId(s));
      NotebookSafety.Next(job, s, Judge(Proceed)) ==
        if item.blocked then s.(phase := Idle)
        else if rounds != [] then
          var last := rounds[|rounds|-1];
          State(PastItem(s, item.(round := Some(last.round),
                                  receipt := if item.receipt.None? then Some(last.receipt) else item.receipt)),
                s.ledger, ReviewTop)
        else if item.revisits != [] then s.(phase := Idle)
        else s.(phase := Reviewing(1, []))
  {
    hide NotebookInv, QuotesInv, OpenInv, DisplayInv, ReadingInv, Step, Retry, Begin, Turn, EnterItem, PastItem, Reviews;
    TopReady(job, s);
    EntersTurn(job, s);
    TopOutcome(job, s);
    EnterCases(job, s);
  }

  lemma TopReady(job: Job, s: State)
    requires NotebookInv(job, s)
    ensures ReviewReady(s)
  {
    AlwaysReviewReady(s);
  }

  lemma TopOutcome(job: Job, s: State)
    requires NotebookInv(job, s) && s.phase == ReviewTop && Standing(s)
    ensures EnterItem(job, s).phase.Reviewing? <==>
      !CurrentItem(s).blocked && Reviews(s.ledger, CurrentId(s)) == [] && CurrentItem(s).revisits == []
  {
    hide ReadingInv, ReviewInv, EnterItem, Reviews;
    EnterItemOutcome(job, s);
  }

  lemma EnterCases(job: Job, s: State)
    requires s.phase == ReviewTop && Standing(s)
    ensures
      var item, rounds := CurrentItem(s), Reviews(s.ledger, CurrentId(s));
      && (item.blocked ==> EnterItem(job, s) == s.(phase := Idle))
      && (!item.blocked && rounds != [] ==>
            var last := rounds[|rounds|-1];
            EnterItem(job, s) ==
              State(PastItem(s, item.(round := Some(last.round),
                                      receipt := if item.receipt.None? then Some(last.receipt) else item.receipt)),
                    s.ledger, ReviewTop))
      && (!item.blocked && rounds == [] ==> EnterItem(job, s).phase.Reviewing? || EnterItem(job, s) == s.(phase := Idle))
  {
    hide Revisit, RevisitAll, SavedRevisits;
  }

  /** The save after the ledger accepted a decision: its receipt is recorded and the note is passed. */
  lemma AppliedExactly(job: Job, s: State)
    requires NotebookInv(job, s) && s.phase.ReviewApplied?
    ensures Standing(s) && ReviewReady(s)
    ensures NotebookSafety.Next(job, s, Judge(Proceed)) ==
      State(PastItem(s, CurrentItem(s).(receipt := Some(s.phase.receipt), round := Some(s.phase.receipt.round))),
            s.ledger, ReviewTop)
  {
    TopOpen(s);
    AlwaysReviewReady(s);
    hide NotebookInv;
    AppliedCase(job, s);
  }

  lemma AppliedCase(job: Job, s: State)
    requires s.phase.ReviewApplied? && Standing(s) && ReviewReady(s)
    ensures NotebookSafety.Next(job, s, Judge(Proceed)) ==
      State(PastItem(s, CurrentItem(s).(receipt := Some(s.phase.receipt), round := Some(s.phase.receipt.round))),
            s.ledger, ReviewTop)
  {
    hide Step, Retry, Begin, Turn, EnterItem;
  }

  // ---- The publication gate -----------------------------------------------

  function OpenNotes(l: Ledger): set<NoteId> {
    set id | id in l.notes && l.notes[id].status == NeedsCheck
  }

  function OpenAmong(l: Ledger, n: nat): set<NoteId>
    requires n <= |l.order|
  {
    set i | 0 <= i < n && l.order[i] in l.notes && l.notes[l.order[i]].status == NeedsCheck :: l.order[i]
  }

  lemma OneMoreOpen(l: Ledger, n: nat)
    requires 0 < n <= |l.order| && NoDuplicates(l.order)
    ensures l.order[n-1] !in OpenAmong(l, n - 1)
    ensures OpenAmong(l, n) == OpenAmong(l, n - 1) +
      if l.order[n-1] in l.notes && l.notes[l.order[n-1]].status == NeedsCheck then {l.order[n-1]} else {}
  {
  }

  lemma {:induction false} CountExactly(l: Ledger, n: nat)
    requires n <= |l.order| && NoDuplicates(l.order)
    ensures CountOpen(l, n) == |OpenAmong(l, n)|
  {
    if n > 0 {
      CountExactly(l, n - 1);
      OneMoreOpen(l, n);
      hide NoDuplicates, OpenAmong;
    } else {
      assert OpenAmong(l, 0) == {};
    }
  }

  /** The open notes that the checkpoint counts are exactly the notes that need a check. */
  lemma CountsOpenNotes(l: Ledger)
    requires Inv(l)
    ensures CountOpen(l, |l.order|) == |OpenNotes(l)|
  {
    DistinctOrder(l);
    CountExactly(l, |l.order|);
    forall id | id in l.notes ensures id in l.order {
    }
    hide Inv, CountOpen, NoDuplicates;
    forall id | id in OpenNotes(l) ensures id in OpenAmong(l, |l.order|) {
      var i :| 0 <= i < |l.order| && l.order[i] == id;
    }
    assert OpenAmong(l, |l.order|) == OpenNotes(l);
  }

  /** The end of the reading: no window is missing or still pending, so reading is complete, and the notes
      that need a check are counted. */
  lemma FinishesExactly(job: Job, s: State)
    requires ReadingInv(job, s) && s.phase == Top && Load(s).cursor == |job.doc|
    ensures Ready(job, s)
    ensures Step(job, s, Advance) ==
      State(Some(Load(s).(complete := true, openNotes := Some(|OpenNotes(s.ledger)|))), s.ledger, ReviewStart)
  {
    AlwaysReady(job, s);
    ReadingPart(job, s);
    CountsOpenNotes(s.ledger);
    FinishKeeps(job, s);
    hide ReadingInv, CountOpen, OpenNotes, Enter;
  }

  /** The end of the review, once every note of the order was passed: it is complete, and the notes that
      still need a check are counted. */
  lemma CompletesExactly(job: Job, s: State)
    requires NotebookInv(job, s) && s.phase == ReviewTop && !Standing(s)
    ensures ReviewReady(s) && Load(s).review.Some?
    ensures NotebookSafety.Next(job, s, Judge(Proceed)) ==
      State(Some(Load(s).(review := Some(Load(s).review.value.(complete := true)), reviewComplete := true,
                          openNotes := Some(|OpenNotes(s.ledger)|))), s.ledger, Gate)
  {
    TopOpen(s);
    AlwaysReviewReady(s);
    ReadingPart(job, s);
    CountsOpenNotes(s.ledger);
    hide NotebookInv, Step, Retry, Begin, Turn, EnterItem, CountOpen, OpenNotes;
  }

  /** Publication is allowed exactly when the review is complete and no note of the job needs a check:
      a job whose notes are all decided never stays behind the gate. */
  lemma GateExactly(job: Job, acts: seq<Act>)
    requires job.Valid()
    ensures
      var s := Reached(job, acts);
      PublishAllowed(Load(s)) <==>
        Load(s).reviewComplete && forall id :: id in s.ledger.notes ==> s.ledger.notes[id].status != NeedsCheck
  {
    hide Reached, NotebookInv, PublishAllowed;
    ReachedInv(job, acts);
    GateOf(job, Reached(job, acts));
  }

  lemma GateOf(job: Job, s: State)
    requires NotebookInv(job, s)
    ensures PublishAllowed(Load(s)) <==>
      Load(s).reviewComplete && forall id :: id in s.ledger.notes ==> s.ledger.notes[id].status != NeedsCheck
  {
    hide ReadingInv, Inv, CountOpen, StageInv, OrderInv, ItemsInv, SingleRounds;
    ReadingPart(job, s);
    CountsOpenNotes(s.ledger);
    if OpenNotes(s.ledger) != {} {
      var id :| id in OpenNotes(s.ledger);
    } else {
      assert forall id :: id in s.ledger.notes && s.ledger.notes[id].status == NeedsCheck ==> id in OpenNotes(s.ledger);
    }
  }
}
