/** What an explicit retry of a stopped job clears, and what it never touches
    (app/document_read/service.py, the resume_unresolved block). */
module ExplicitRetries {
  import opened Wrappers
  import opened Evidence
  import opened NoteLedger
  import opened NoteRules
  import opened Notebook
  import opened ReadingLoop
  import opened ReadingResume
  import opened ReviewLoop
  import opened NotebookSafety
  import opened ReadingTurns

  /** A record without its stop marks: exhausted attempts are given back, and so are the stalls of a
      blocked window; everything that was read or answered stays. */
  function Cleared(r: Record): Record {
    r.(formatBlocked := false, toolBlocked := false, extractBlocked := false,
       formatAttempts := if r.formatBlocked then 0 else r.formatAttempts,
       stalls := if r.toolBlocked || r.extractBlocked then 0 else r.stalls)
  }

  /** A blocked item with fresh counters; any other as it is. */
  function ClearedItem(item: Item): Item {
    if item.blocked then item.(blocked := false, attempts := 0, toolRejections := 0, stalls := 0) else item
  }

  /** The checkpoint after an explicit retry: cleared records and items, and everything else as it was. */
  ghost predicate RetriedFrom(p: Progress, q: Progress) {
    && |q.records| == |p.records| && (forall i :: 0 <= i < |p.records| ==> q.records[i] == Cleared(p.records[i]))
    && (p.review.None? ==> q.review.None?)
    && (p.review.Some? ==>
          && q.review.Some?
          && q.review.value == p.review.value.(items := q.review.value.items)
          && q.review.value.items.Keys == p.review.value.items.Keys
          && (p.review.value.complete ==> q.review == p.review)
          && (!p.review.value.complete ==>
                forall id :: id in p.review.value.items ==>
                  q.review.value.items[id] == ClearedItem(p.review.value.items[id])))
    && q == p.(records := q.records, review := q.review)
  }

  lemma UnblockExactly(r: Record)
    ensures Unblock(r) == Cleared(r)
  {
  }

  lemma RecordsRetried(job: Job, l: Ledger, p: Progress)
    requires ReadInv(job, l, p)
    ensures
      var q := RetryReading(p);
      && |q.records| == |p.records| && (forall i :: 0 <= i < |p.records| ==> q.records[i] == Cleared(p.records[i]))
      && q == p.(records := q.records)
  {
    RetryRecords(job, l, p);
    RetryCompleted(job, l, p);
    hide ReadInv, FirstReopened;
    forall i | 0 <= i < |p.records| ensures RetryReading(p).records[i] == Cleared(p.records[i]) {
      UnblockExactly(p.records[i]);
    }
    hide Unblock;
  }

  lemma ItemsRetried(l: Ledger, p: Progress)
    requires p.review.Some? && !p.review.value.complete && !p.reviewComplete
    requires OrderInv(l, p.review.value) && ItemsInv(l, p.review.value)
    ensures
      var q := RetryReview(p);
      && q.review.Some? && q == p.(review := q.review)
      && q.review.value == p.review.value.(items := q.review.value.items)
      && q.review.value.items.Keys == p.review.value.items.Keys
      && forall id :: id in p.review.value.items ==> q.review.value.items[id] == ClearedItem(p.review.value.items[id])
  {
    var rv := p.review.value;
    var n := FirstBlocked(rv, |rv.order|);
    RetryReviewKeeps(l, rv);
    forall id | id in rv.items ensures id in rv.order {
    }
    hide OrderInv, ItemsInv;
    if n == |rv.order| {
      forall id | id in rv.items ensures !rv.items[id].blocked {
        var i :| 0 <= i < |rv.order| && rv.order[i] == id;
        assert !ItemOf(rv, rv.order[i]).blocked;
      }
    }
    hide FirstBlocked;
  }

  /** An explicit retry of a stopped job keeps both cursors, every answer, receipt and displayed window;
      it clears the stop marks and counters of the blocked windows and notes, and nothing else. */
  lemma RetryExactly(job: Job, s: State)
    requires NotebookInv(job, s) && s.phase == Idle && s.disk.Some?
    ensures Retry(s).phase == Idle && Retry(s).ledger == s.ledger && Retry(s).disk.Some?
    ensures RetriedFrom(Load(s), Load(Retry(s)))
  {
    var p := s.disk.value;
    ReadingOf(job, s);
    RecordsRetried(job, s.ledger, p);
    var q := RetryReading(p);
    ReviewOfRetry(s);
    hide NotebookInv, ReadInv, RetryReading;
    if p.review.Some? && !p.review.value.complete {
      ItemsRetried(s.ledger, q);
    }
    hide OrderInv, ItemsInv, RetryReview;
    CombineRetry(p, q, RetryReview(q));
  }

  lemma ReadingOf(job: Job, s: State)
    requires NotebookInv(job, s)
    ensures ReadInv(job, s.ledger, Load(s))
  {
    hide ReviewInv, Inv;
  }

  lemma ReviewOfRetry(s: State)
    requires ReviewInv(s)
    ensures
      var p := Load(s);
      p.review.Some? ==>
        && OrderInv(s.ledger, p.review.value) && ItemsInv(s.ledger, p.review.value)
        && (p.reviewComplete <==> p.review.value.complete)
  {
    hide OrderInv, ItemsInv;
  }

  lemma CombineRetry(p: Progress, q: Progress, r: Progress)
    requires |q.records| == |p.records| && (forall i :: 0 <= i < |p.records| ==> q.records[i] == Cleared(p.records[i]))
    requires q == p.(records := q.records)
    requires p.review.None? || p.review.value.complete ==> r == q
    requires p.review.Some? && !p.review.value.complete ==>
      && r.review.Some? && r == q.(review := r.review)
      && r.review.value == q.review.value.(items := r.review.value.items)
      && r.review.value.items.Keys == q.review.value.items.Keys
      && forall id :: id in q.review.value.items ==> r.review.value.items[id] == ClearedItem(q.review.value.items[id])
    ensures RetriedFrom(p, r)
  {
  }

  /** After an explicit retry no stop mark is left, so the next run opens the window at the cursor again
      unless its context breaks the byte bound. */
  lemma RetryReopens(job: Job, s: State)
    requires NotebookInv(job, s) && s.phase == Idle && s.disk.Some?
    requires Load(s).cursor < |job.doc| && !job.doc[Load(s).cursor].unavailable && Met(Load(s)).status == ReadPending
    ensures
      var u := Retry(s).(phase := Top);
      && ReadingInv(job, u) && Ready(job, u) && HeadContext(job, Load(u)).Some?
      && (job.fits(HeadContext(job, Load(u)).value) ==> Step(job, u, Advance).phase == Reading)
  {
    RetryExactly(job, s);
    RetryAllKeeps(job, s);
    var u := Retry(s).(phase := Top);
    hide Retry, ReviewInv, ReadInv, Inv;
    ReadyAtTop(job, Retry(s));
    hide ReadingInv;
    EntersExactly(job, u);
    hide Step, HeadContext;
  }

  lemma ReadyAtTop(job: Job, s: State)
    requires ReadingInv(job, s)
    ensures ReadingInv(job, s.(phase := Top)) && Ready(job, s.(phase := Top))
  {
    hide Inv;
  }
}
