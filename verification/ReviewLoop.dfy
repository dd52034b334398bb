/** The post-read review of the notebook, commit by commit, and the publication gate
    (app/document_read/notes.py, _run_review; app/document_read/service.py). */
module ReviewLoop {
  import opened Wrappers
  import opened Evidence
  import opened NoteLedger
  import opened Notebook
  import opened ReadingLoop

  datatype ReviewEvent =
    | Proceed
    | ReviewTool(ids: seq<int>)
    | BadDecision
    | Decision(action: ReviewAction, reason: string, fact: Option<Fact>, witnesses: seq<Witness>,
               relations: seq<RawRelation>, fence: Fence)

  /** Every note that is not yet rejected, in rowid order. */
  function OpenOrder(l: Ledger, n: nat): seq<NoteId>
    requires n <= |l.order|
  {
    if n == 0 then []
    else
      OpenOrder(l, n - 1) +
      if l.order[n-1] in l.notes && l.notes[l.order[n-1]].status != Rejected then [l.order[n-1]] else []
  }

  predicate GrantsUnchanged(job: Job, p: Progress) {
    |p.records| <= |job.doc| && forall i :: 0 <= i < |p.records| && p.records[i].grant.Some? ==>
      p.records[i].grant.value == job.Grant(i)
  }

  function ReviewOf(p: Progress): Review {
    if p.review.None? then FRESH_REVIEW else p.review.value
  }

  function ItemOf(rv: Review, id: NoteId): Item {
    if id in rv.items then rv.items[id] else FRESH_ITEM
  }

  function SetItem(p: Progress, id: NoteId, item: Item): Progress {
    p.(review := Some(ReviewOf(p).(items := ReviewOf(p).items[id := item])))
  }

  function SetCursor(p: Progress, n: nat): Progress {
    p.(review := Some(ReviewOf(p).(cursor := n)))
  }

  /** A completed review is not entered again; a new one freezes its order first. */
  function Begin(job: Job, s: State): State {
    var p := Load(s);
    if ReviewOf(p).complete then s.(phase := Gate)
    else if !GrantsUnchanged(job, p) then Stop(s)
    else if ReviewOf(p).order != [] then s.(phase := ReviewTop)
    else Save(s, p.(review := Some(ReviewOf(p).(order := OpenOrder(s.ledger, |s.ledger.order|)))), ReviewTop)
  }

  /** The saved revisits of an item: only numbers are looked up, stored ids are refused. */
  function SavedRevisits(job: Job, p: Progress, item: Item): Option<seq<Shown>> {
    if item.revisits == [] then Some([])
    else if exists i :: 0 <= i < |item.revisits| && item.revisits[i].Text? then None
    else
      var shown := RevisitAll(job, p, seq(|item.revisits|, i requires 0 <= i < |item.revisits| => item.revisits[i].n));
      if shown.None? || shown.value != item.views then None else shown
  }

  /** From the review loop's head to the first turn or commit for the note at the cursor. */
  function EnterItem(job: Job, s: State): State
    requires s.disk.Some? && ReviewOf(Load(s)).cursor < |ReviewOf(Load(s)).order|
  {
    var p := Load(s);
    var rv := ReviewOf(p);
    var id := rv.order[rv.cursor];
    var item := ItemOf(rv, id);
    var rounds := Reviews(s.ledger, id);
    if item.blocked then Stop(s)
    else if rounds != [] then
      var last := rounds[|rounds|-1];
      Save(s, SetCursor(SetItem(p, id, item.(round := Some(last.round),
                                             receipt := if item.receipt.None? then Some(last.receipt) else item.receipt)),
                        rv.cursor + 1), ReviewTop)
    else if id !in s.ledger.notes || Revisit(job, p, s.ledger.notes[id].window).None? then Stop(s)
    else
      match SavedRevisits(job, p, item)
      case None => Stop(s)
      case Some(shown) => s.(phase := Reviewing(1, shown))
  }

  /** The end of the review: every note is decided, and the open ones are counted again. */
  function Complete(s: State): State {
    var p := Load(s);
    Save(s, p.(review := Some(ReviewOf(p).(complete := true)), reviewComplete := true,
               openNotes := Some(CountOpen(s.ledger, |s.ledger.order|))), Gate)
  }

  /** The note under review and its item. */
  function CurrentId(s: State): NoteId
    requires s.disk.Some? && ReviewOf(Load(s)).cursor < |ReviewOf(Load(s)).order|
  {
    ReviewOf(Load(s)).order[ReviewOf(Load(s)).cursor]
  }

  function CurrentItem(s: State): Item
    requires s.disk.Some? && ReviewOf(Load(s)).cursor < |ReviewOf(Load(s)).order|
  {
    ItemOf(ReviewOf(Load(s)), CurrentId(s))
  }

  function SaveItem(s: State, item: Item, phase: Phase): State
    requires s.disk.Some? && ReviewOf(Load(s)).cursor < |ReviewOf(Load(s)).order|
  {
    Save(s, SetItem(Load(s), CurrentId(s), item), phase)
  }

  /** The requested windows other than the origin that the list of revisits does not contain. */
  function UnseenRefs(owned: seq<Ref>, origin: int, ids: seq<int>): (r: seq<int>)
    ensures |r| <= |ids|
    ensures forall i :: 0 <= i < |r| ==> r[i] in ids
  {
    if ids == [] then []
    else
      var before := UnseenRefs(owned, origin, ids[..|ids|-1]);
      var n := ids[|ids|-1];
      if n == origin || Number(n) in owned then before else before + [n]
  }

  function TextRefs(shown: seq<Shown>): seq<Ref> {
    seq(|shown|, i requires 0 <= i < |shown| => Text(shown[i].id))
  }

  function RefuseTool(s: State): State
    requires s.phase.Reviewing? && s.disk.Some? && ReviewOf(Load(s)).cursor < |ReviewOf(Load(s)).order|
  {
    var item := CurrentItem(s);
    var refused := item.(toolRejections := item.toolRejections + 1, round := Some(s.phase.round));
    SaveItem(s, refused, if refused.toolRejections >= 2 then ReviewBlocking else s.phase)
  }

  function ReviewContext(job: Job, s: State, ids: seq<int>): State
    requires s.phase.Reviewing? && s.disk.Some? && ReviewOf(Load(s)).cursor < |ReviewOf(Load(s)).order|
    requires CurrentId(s) in s.ledger.notes
  {
    var p := Load(s);
    var item := CurrentItem(s);
    var origin := s.ledger.notes[CurrentId(s)].window;
    var unseen := UnseenRefs(item.revisits, origin, ids);
    if !(1 <= |ids| <= 2) || !NoDuplicates(ids) || (exists i :: 0 <= i < |ids| && !(0 <= ids[i] < |p.records|)) then RefuseTool(s)
    else if unseen == [] then
      var stalled := item.(stalls := item.stalls + 1, round := Some(s.phase.round));
      SaveItem(s, stalled, if stalled.stalls >= 2 then ReviewBlocking else s.phase)
    else if |item.revisits| + |unseen| > 2 then RefuseTool(s)
    else
      var granted, first := RevisitAll(job, p, unseen), Revisit(job, p, origin);
      if granted.None? || first.None? then RefuseTool(s)
      else if !Bounded(job, Dedup([first.value] + s.phase.shown + granted.value)) then RefuseTool(s)
      else
        var shown := s.phase.shown + granted.value;
        SaveItem(s, item.(revisits := TextRefs(shown), views := shown, stalls := 0, round := Some(s.phase.round)),
                 Reviewing(s.phase.round, shown))
  }

  function RefuseDecision(s: State): State
    requires s.phase.Reviewing? && s.disk.Some? && ReviewOf(Load(s)).cursor < |ReviewOf(Load(s)).order|
  {
    var item := CurrentItem(s);
    SaveItem(s, item.(attempts := item.attempts + 1, round := Some(s.phase.round)), s.phase)
  }

  function DecisionRequest(job: Job, id: NoteId, round: int, grants: Grants, e: ReviewEvent): ReviewRequest
    requires e.Decision?
  {
    ReviewRequest(id, Some(e.action), e.reason, round, job.reviewKey(id, round), grants, e.fact, e.witnesses, e.relations)
  }

  function SubmitDecision(job: Job, s: State, e: ReviewEvent): State
    requires e.Decision? && s.phase.Reviewing? && s.disk.Some? && ReviewOf(Load(s)).cursor < |ReviewOf(Load(s)).order|
    requires CurrentId(s) in s.ledger.notes
  {
    var n := s.ledger.notes[CurrentId(s)];
    var origin := Revisit(job, Load(s), n.window);
    if origin.None? then Stop(s)
    else if e.action == ReviseFact && n.payload.primary.grantId != n.window then RefuseDecision(s)
    else
      var q := DecisionRequest(job, CurrentId(s), s.phase.round, GrantMap([origin.value] + s.phase.shown), e);
      match ReviewSpec(job.host, s.ledger, q, e.fence)
      case Ok(done) => State(s.disk, done.0, ReviewApplied(done.1))
      case Err(refusal) => if refusal == NoteRejected then RefuseDecision(s) else Stop(s)
  }

  /** Two refused decisions block the note before its next turn. */
  function Turn(job: Job, s: State, e: ReviewEvent): State
    requires s.phase.Reviewing? && s.disk.Some? && ReviewOf(Load(s)).cursor < |ReviewOf(Load(s)).order|
    requires CurrentId(s) in s.ledger.notes
  {
    if CurrentItem(s).attempts >= 2 then SaveItem(s, CurrentItem(s).(blocked := true, round := Some(s.phase.round)), Idle)
    else
      match e
      case Proceed => s
      case ReviewTool(ids) => ReviewContext(job, s, ids)
      case BadDecision => RefuseDecision(s)
      case Decision(_, _, _, _, _, _) => SubmitDecision(job, s, e)
  }

  /** The review cursor stands on a note that the worker is reviewing. */
  predicate ReviewReady(s: State) {
    && (s.phase.ReviewTop? || s.phase.Reviewing? || s.phase.ReviewBlocking? || s.phase.ReviewApplied? ==> s.disk.Some?)
    && (s.phase.Reviewing? || s.phase.ReviewBlocking? || s.phase.ReviewApplied? ==>
          ReviewOf(Load(s)).cursor < |ReviewOf(Load(s)).order| && CurrentId(s) in s.ledger.notes)
  }

  /** Review steps. */
  function ReviewStep(job: Job, s: State, e: ReviewEvent): State
    requires ReviewReady(s)
  {
    match s.phase
    case ReviewStart => if e.Proceed? then Begin(job, s) else s
    case ReviewTop =>
      if !e.Proceed? then s
      else if ReviewOf(Load(s)).cursor < |ReviewOf(Load(s)).order| then EnterItem(job, s)
      else Complete(s)
    case Reviewing(_, _) => Turn(job, s, e)
    case ReviewBlocking => if e.Proceed? then SaveItem(s, CurrentItem(s).(blocked := true), Idle) else s
    case ReviewApplied(receipt) =>
      if !e.Proceed? then s
      else
        var item := CurrentItem(s).(receipt := Some(receipt), round := Some(receipt.round));
        Save(s, SetCursor(SetItem(Load(s), CurrentId(s), item), ReviewOf(Load(s)).cursor + 1), ReviewTop)
    case _ => s
  }

  // ---- Explicit retry -----------------------------------------------------

  function Reopened(item: Item): Item {
    if item.blocked then item.(attempts := 0, toolRejections := 0, stalls := 0, blocked := false) else item
  }

  function ReopenedItems(items: map<NoteId, Item>, order: seq<NoteId>): map<NoteId, Item> {
    map id | id in items :: if id in order then Reopened(items[id]) else items[id]
  }

  /** The first blocked note of the order, or its length. */
  function FirstBlocked(rv: Review, n: nat): (r: nat)
    requires n <= |rv.order|
    ensures r <= n
    ensures r < n ==> ItemOf(rv, rv.order[r]).blocked
    ensures forall i :: 0 <= i < r ==> !ItemOf(rv, rv.order[i]).blocked
  {
    if n == 0 then 0
    else
      var r := FirstBlocked(rv, n - 1);
      if r < n - 1 then r else if ItemOf(rv, rv.order[n-1]).blocked then n - 1 else n
  }

  function RetryReview(p: Progress): Progress {
    if p.review.None? || p.review.value.complete then p
    else
      var rv := p.review.value;
      var n := FirstBlocked(rv, |rv.order|);
      if n == |rv.order| then p
      else
        p.(review := Some(rv.(items := ReopenedItems(rv.items, rv.order), cursor := n)), reviewComplete := false)
  }

  /** An explicit retry is one commit over both stages. */
  function Retry(s: State): State {
    if !s.phase.Idle? || s.disk.None? then s else Save(s, RetryReview(RetryReading(s.disk.value)), Idle)
  }

  // ---- The publication gate -----------------------------------------------

  /** _maybe_run_publish: the review is complete and no open note was counted. */
  predicate PublishAllowed(p: Progress) {
    p.reviewComplete && p.openNotes == Some(0)
  }
}
