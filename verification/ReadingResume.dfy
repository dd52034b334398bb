/** What every checkpoint of the reading loop satisfies: resuming from it passes all checks, and
    checkpoint and note ledger agree however the run was interrupted (app/document_read/notes.py). */
module ReadingResume {
  import opened Wrappers
  import opened Evidence
  import opened NoteLedger
  import opened NoteRules
  import opened Notebook
  import opened ReadingLoop

  // ---- The invariant ------------------------------------------------------

  /** One record against the document and the note ledger: a read window ends with exactly one of
      a ledger receipt, recorded as the ledger holds it, and a technical rejection. */
  ghost predicate RecordInv(job: Job, l: Ledger, r: Record, i: int)
    requires 0 <= i < |job.doc|
  {
    && r.window == i
    && (r.grant.Some? ==> r.grant.value == job.Grant(i) && !job.doc[i].unavailable)
    && (r.status == ReadPending ==> r.receipt.None? && !r.technical && r.chosen.None? && !job.doc[i].unavailable)
    && (r.status != ReadPending ==> !r.toolBlocked && !r.extractBlocked && !r.formatBlocked)
    && (r.status != ReadPending && !job.doc[i].unavailable ==>
          r.grant.Some? && r.chosen.Some? && (r.receipt.Some? <==> !r.technical))
    && (job.doc[i].unavailable ==> r.receipt.None? && !r.technical)
    && (r.receipt.Some? ==> i in l.windows && l.windows[i].receipt == r.receipt.value)
    && (r.technical ==> i !in l.windows)
    && (r.formatBlocked ==> r.formatAttempts >= 2)
  }

  /** The record at the cursor: its revisits can be rebuilt, and once it is finished it extends
      the completed prefix. */
  ghost predicate HeadInv(job: Job, p: Progress, r: Record)
    requires p.cursor <= |p.records|
  {
    && |r.revisits| <= 2
    && RevisitAll(job, p, r.revisits).Some?
    && (if r.views.Some? then r.views == RevisitAll(job, p, r.revisits) else r.revisits == [])
    && (r.status != ReadPending ==>
          var c := Replay(job, p.records[..p.cursor], p.cursor);
          c.Some? && ReplayOne(job, c.value, r, p.cursor + 1).Some?)
  }

  /** Ledger receipts stand for recorded windows, under the key of their window. */
  ghost predicate ReceiptsInv(job: Job, l: Ledger, p: Progress) {
    forall w :: w in l.windows ==>
      && 0 <= w < |p.records| && l.windows[w].sha == job.key(w)
      && (p.records[w].status == ReadPending || p.records[w].receipt.Some?)
  }

  ghost predicate PrefixInv(job: Job, l: Ledger, p: Progress) {
    && p.cursor <= |job.doc| && p.cursor <= |p.records| <= p.cursor + 1 && |p.records| <= |job.doc|
    && (forall i :: 0 <= i < |p.records| ==> RecordInv(job, l, p.records[i], i))
    && (forall i :: 0 <= i < p.cursor ==> p.records[i].status != ReadPending)
    && Replay(job, p.records[..p.cursor], p.cursor).Some?
  }

  ghost predicate ReadInv(job: Job, l: Ledger, p: Progress) {
    && PrefixInv(job, l, p)
    && (|p.records| > p.cursor ==> HeadInv(job, p, p.records[p.cursor]))
    && ReceiptsInv(job, l, p)
    && (p.complete ==> p.cursor == |job.doc|)
  }

  /** The window at the cursor is being read. */
  ghost predicate Open(job: Job, p: Progress) {
    && p.cursor < |job.doc| && p.cursor < |p.records|
    && p.records[p.cursor].status == ReadPending && p.records[p.cursor].grant.Some?
    && p.cursor <= |p.records| && HeadContext(job, p).Some? && p.records[p.cursor].rolling == HeadContext(job, p)
  }

  /** Not blocked: the employee may still answer. */
  ghost predicate Answerable(r: Record) {
    !r.toolBlocked && !r.extractBlocked && r.formatAttempts < 2
  }

  ghost predicate PhaseInv(job: Job, s: State) {
    var p := Load(s);
    match s.phase
    case Reading => s.disk.Some? && Open(job, p) && !p.records[p.cursor].toolBlocked && !p.records[p.cursor].extractBlocked
    case Blocking => s.disk.Some? && Open(job, p)
    case Applied(result, outcome, chosen, retained) =>
      && s.disk.Some? && Open(job, p) && Answerable(p.records[p.cursor])
      && Retained(chosen, job.Grant(p.cursor), HeadContext(job, p).value) == Some(retained)
      && (match result
          case Ok(receipt) => p.cursor in s.ledger.windows && s.ledger.windows[p.cursor].receipt == receipt
          case Err(_) => p.cursor !in s.ledger.windows)
    case Recorded => s.disk.Some? && p.cursor < |p.records| && p.records[p.cursor].status != ReadPending
    case _ => true
  }

  ghost predicate ReadingInv(job: Job, s: State) {
    && job.Valid() && Inv(s.ledger) && ReadInv(job, s.ledger, Load(s)) && PhaseInv(job, s)
  }

  // ---- Replaying the prefix -----------------------------------------------

  lemma {:induction false} ReplayLimit(job: Job, rs: seq<Record>, a: nat, b: nat)
    requires a <= b <= |job.doc| && Replay(job, rs, a).Some?
    ensures Replay(job, rs, b) == Replay(job, rs, a)
  {
    if rs != [] {
      ReplayLimit(job, rs[..|rs|-1], a, b);
    }
  }

  lemma {:induction false} RetainedBound(job: Job, rs: seq<Record>, limit: nat)
    requires Replay(job, rs, limit).Some?
    ensures |Replay(job, rs, limit).value.retained| <= 2
  {
    if rs != [] {
      RetainedBound(job, rs[..|rs|-1], limit);
    }
  }

  /** The rolling context never exceeds four grants. */
  lemma ContextBound(job: Job, p: Progress)
    requires p.cursor <= |p.records| && HeadContext(job, p).Some?
    ensures |HeadContext(job, p).value| <= 4
  {
    RetainedBound(job, p.records[..p.cursor], p.cursor);
  }

  lemma HeadContextFrame(job: Job, p: Progress, q: Progress)
    requires p.cursor <= |p.records| && q.cursor == p.cursor && p.cursor <= |q.records|
    requires q.records[..p.cursor] == p.records[..p.cursor]
    ensures HeadContext(job, q) == HeadContext(job, p)
    ensures forall ids :: RevisitAll(job, q, ids) == RevisitAll(job, p, ids)
  {
    forall n ensures Revisit(job, q, n) == Revisit(job, p, n) {
      if 0 <= n < p.cursor {
        assert q.records[n] == q.records[..p.cursor][n] == p.records[..p.cursor][n] == p.records[n];
      }
    }
    forall ids ensures RevisitAll(job, q, ids) == RevisitAll(job, p, ids) {
      if RevisitAll(job, q, ids).Some? && RevisitAll(job, p, ids).Some? {
        assert RevisitAll(job, q, ids).value == RevisitAll(job, p, ids).value;
      }
    }
  }

  // ---- Updating the record at the cursor ----------------------------------

  /** A new record at the cursor that satisfies the record and head conditions keeps the invariant. */
  lemma HeadKeeps(job: Job, l: Ledger, p: Progress, r: Record)
    requires ReadInv(job, l, p) && p.cursor < |job.doc|
    requires RecordInv(job, l, r, p.cursor) && HeadInv(job, p, r)
    requires p.cursor in l.windows ==> |p.records| > p.cursor && (r.status == ReadPending || r.receipt.Some?)
    ensures ReadInv(job, l, SetHead(p, r))
    ensures SetHead(p, r).records[..p.cursor] == p.records[..p.cursor]
    ensures forall q :: q == SetHead(p, r) ==>
      HeadContext(job, q) == HeadContext(job, p) && forall ids :: RevisitAll(job, q, ids) == RevisitAll(job, p, ids)
  {
    hide RecordInv, Revisit, RevisitAll, Replay, ReplayOne, HeadContext, Displayed;
    var q := SetHead(p, r);
    assert q.records[..p.cursor] == p.records[..p.cursor];
    HeadContextFrame(job, p, q);
  }

  /** Moving the cursor past a finished record keeps the invariant. */
  lemma MoveKeeps(job: Job, l: Ledger, p: Progress)
    requires ReadInv(job, l, p) && p.cursor < |p.records| && p.records[p.cursor].status != ReadPending
    ensures ReadInv(job, l, p.(cursor := p.cursor + 1))
  {
    hide RecordInv, RevisitAll;
    var longer := p.records[..p.cursor+1];
    assert longer[..|longer|-1] == p.records[..p.cursor];
    ReplayLimit(job, p.records[..p.cursor], p.cursor, p.cursor + 1);
  }

  /** A finished record that carries the displayed context extends the prefix. */
  lemma FinishedExtends(job: Job, p: Progress, r: Record)
    requires p.cursor <= |p.records| && p.cursor < |job.doc| && HeadContext(job, p).Some?
    requires r.window == p.cursor && (r.grant.Some? ==> r.grant.value == job.Grant(p.cursor))
    requires r.grant.Some? ==> r.rolling == HeadContext(job, p)
    requires r.grant.Some? && r.chosen.Some? ==>
      r.retained.Some? && r.retained == Retained(r.chosen.value, job.Grant(p.cursor), HeadContext(job, p).value)
    ensures
      var c := Replay(job, p.records[..p.cursor], p.cursor);
      c.Some? && ReplayOne(job, c.value, r, p.cursor + 1).Some?
  {
  }

  // ---- Resume self-consistency --------------------------------------------

  /** The loop head never meets a checkpoint that differs: on any checkpoint of the loop, the next
      window is entered unless its rolling context breaks the byte bound or it is blocked. */
  lemma ResumeAccepts(job: Job, s: State)
    requires ReadingInv(job, s) && Load(s).cursor < |job.doc| && !job.doc[Load(s).cursor].unavailable
    ensures HeadContext(job, Load(s)).Some? && |HeadContext(job, Load(s)).value| <= 4
    ensures
      var p := Load(s);
      var r := Head(p);
      Enter(job, s).phase == Idle <==>
        || !job.fits(HeadContext(job, p).value)
        || (r.status == ReadPending && (r.toolBlocked || r.extractBlocked))
  {
    var p := Load(s);
    hide RecordInv, Replay, Revisit, Inv;
    ContextBound(job, p);
    if |p.records| == p.cursor {
      assert RevisitAll(job, p, []) == Some([]);
    }
  }

  /** The context tool never meets the limit of six grants: four rolling and retained grants and
      two revisits are all it can display. */
  lemma SixNeverExceeded(job: Job, p: Progress, shown: seq<Shown>, granted: seq<Shown>)
    requires p.cursor <= |p.records| && HeadContext(job, p).Some? && |shown| + |granted| <= 2
    ensures |Dedup(HeadContext(job, p).value + shown + granted)| <= 6
  {
    ContextBound(job, p);
  }

  // ---- Every step keeps the invariant -------------------------------------

  lemma EnterKeeps(job: Job, s: State)
    requires ReadingInv(job, s) && s.phase == Top && Load(s).cursor < |job.doc|
    ensures ReadingInv(job, Enter(job, s))
  {
    hide Inv, Replay, ReplayOne, Revisit, Retained, Displayed;
    var p := Load(s);
    var r := Head(p);
    assert |p.records| == p.cursor ==> RevisitAll(job, p, []) == Some([]);
    if job.doc[p.cursor].unavailable {
      UnavailableKeeps(job, s.ledger, p);
    } else if Enter(job, s).phase == Reading {
      var contexts := HeadContext(job, p).value;
      assert RecordInv(job, s.ledger, r, p.cursor);
      HeadKeeps(job, s.ledger, p, r.(rolling := Some(contexts), grant := Some(job.Grant(p.cursor))));
    } else if Enter(job, s).phase == Top {
      FinishedKeeps(job, s.ledger, p);
    }
  }

  lemma UnavailableKeeps(job: Job, l: Ledger, p: Progress)
    requires ReadInv(job, l, p) && p.cursor < |job.doc| && job.doc[p.cursor].unavailable
    ensures ReadInv(job, l, SetHead(p, Head(p).(status := AsUnresolved)).(cursor := p.cursor + 1))
  {
    hide Replay, Revisit, Retained;
    var r := Head(p).(status := AsUnresolved);
    assert |p.records| == p.cursor ==> RevisitAll(job, p, []) == Some([]);
    FinishedExtends(job, p, r);
    HeadKeeps(job, l, p, r);
    MoveKeeps(job, l, SetHead(p, r));
  }

  /** A finished record met again at the cursor: its context is recomputed, and agrees. */
  lemma FinishedKeeps(job: Job, l: Ledger, p: Progress)
    requires ReadInv(job, l, p) && p.cursor < |p.records| && p.records[p.cursor].status != ReadPending
    requires !job.doc[p.cursor].unavailable && HeadContext(job, p).Some?
    ensures ReadInv(job, l, SetHead(p, p.records[p.cursor].(rolling := HeadContext(job, p))).(cursor := p.cursor + 1))
  {
    var r := p.records[p.cursor];
    assert RecordInv(job, l, r, p.cursor) && HeadInv(job, p, r);
    hide Replay, RevisitAll, Retained, Displayed, ReadInv;
    assert r.rolling == HeadContext(job, p);
    assert SetHead(p, r.(rolling := HeadContext(job, p))) == p;
    MoveKeeps(job, l, p);
  }

  /** The context tool at most records a stall, or revisits that can be rebuilt. */
  lemma ToolKeeps(job: Job, s: State, ids: seq<GrantId>)
    requires ReadingInv(job, s) && s.phase == Reading
    ensures ReadingInv(job, RequestContext(job, s, ids))
  {
    hide Inv, Replay, ReplayOne, Revisit, Retained, Displayed, Dedup;
    var p := Load(s);
    var r := p.records[p.cursor];
    var u := RequestContext(job, s, ids);
    if u != s {
      var unseen := Unseen(r.revisits, ids);
      if unseen != [] {
        RevisitConcat(job, p, r.revisits, unseen);
      }
      HeadKeeps(job, s.ledger, p, Load(u).records[p.cursor]);
    }
  }

  lemma RevisitConcat(job: Job, p: Progress, a: seq<int>, b: seq<int>)
    ensures RevisitAll(job, p, a + b).Some? <==> RevisitAll(job, p, a).Some? && RevisitAll(job, p, b).Some?
    ensures RevisitAll(job, p, a + b).Some? ==>
      RevisitAll(job, p, a + b).value == RevisitAll(job, p, a).value + RevisitAll(job, p, b).value
  {
    hide Revisit;
    assert forall i :: 0 <= i < |a| ==> (a + b)[i] == a[i];
    assert forall i :: 0 <= i < |b| ==> (a + b)[|a| + i] == b[i];
  }

  /** Marking the open record, whatever the mark, keeps the invariant. */
  lemma MarkKeeps(job: Job, s: State, r: Record, phase: Phase)
    requires ReadingInv(job, s) && (s.phase == Reading || s.phase == Blocking) && (phase == Reading || phase == Idle)
    requires
      var h := Load(s).records[Load(s).cursor];
      && r == h.(extractBlocked := r.extractBlocked, toolBlocked := r.toolBlocked, formatAttempts := r.formatAttempts,
                 formatBlocked := r.formatBlocked)
      && (r.formatBlocked ==> r.formatAttempts >= 2)
      && (phase == Reading ==> !r.toolBlocked && !r.extractBlocked)
    ensures ReadingInv(job, Save(s, SetHead(Load(s), r), phase))
  {
    hide Inv, Replay, ReplayOne, Revisit, Retained, Displayed;
    HeadKeeps(job, s.ledger, Load(s), r);
  }

  /** A repeated submission of a window whose receipt the ledger already holds is never refused as
      a rejected note, and changes nothing; a first one that succeeds stores exactly its receipt. */
  lemma WindowStored(h: Host, l: Ledger, q: WindowRequest, fence: Fence)
    requires Inv(l) && q.outcome.Some? && q.sha != ""
    ensures q.window in l.windows && l.windows[q.window].sha == q.sha ==>
      WindowSpec(h, l, q, fence) == Ok((l, l.windows[q.window].receipt))
    ensures q.window !in l.windows && WindowSpec(h, l, q, fence).Ok? ==>
      var (m, receipt) := WindowSpec(h, l, q, fence).value;
      m.windows == l.windows[q.window := StoredWindow(q.sha, receipt)]
  {
    if q.window !in l.windows && WindowSpec(h, l, q, fence).Ok? {
      hide Inv, WindowRows, WindowSpec;
      WindowOutcome(h, l, q, fence);
    }
  }

  /** Records of other windows do not notice a new receipt for the window being read. */
  lemma ReceiptKeeps(job: Job, l: Ledger, m: Ledger, p: Progress, stored: StoredWindow)
    requires ReadInv(job, l, p) && Open(job, p) && p.cursor !in l.windows
    requires m.windows == l.windows[p.cursor := stored] && stored.sha == job.key(p.cursor)
    ensures ReadInv(job, m, p)
  {
    hide Replay, ReplayOne, Revisit, RevisitAll, Retained, Displayed;
    forall i | 0 <= i < |p.records| ensures RecordInv(job, m, p.records[i], i) {
      assert RecordInv(job, l, p.records[i], i);
    }
  }

  lemma SubmitKeeps(job: Job, s: State, e: Event)
    requires ReadingInv(job, s) && s.phase == Reading && e.Receipt?
    ensures ReadingInv(job, Submit(job, s, e))
  {
    hide Inv, Replay, ReplayOne, Revisit, RevisitAll, Retained, Displayed, WindowSpec, ReadInv, HeadContext, Find;
    var p := Load(s);
    var r := p.records[p.cursor];
    var u := Submit(job, s, e);
    if r.formatAttempts >= 2 || !ReceiptShapeOk(e) {
      MalformedKeeps(job, s);
    } else if u.phase.Applied? {
      var shown := RevisitAll(job, p, r.revisits).value;
      var grants := GrantMap([job.Grant(p.cursor)] + Dedup(HeadContext(job, p).value + shown));
      var q := RequestOf(job, p, e, grants);
      KeyOf(job, s.ledger, p);
      WindowStored(job.host, s.ledger, q, e.fence);
      if u.phase.result.Ok? {
        WindowKeeps(job.host, s.ledger, q, e.fence);
        if p.cursor !in s.ledger.windows {
          ReceiptKeeps(job, s.ledger, u.ledger, p, StoredWindow(q.sha, u.phase.result.value));
        }
      }
    }
  }

  lemma KeyOf(job: Job, l: Ledger, p: Progress)
    requires ReadInv(job, l, p) && p.cursor < |job.doc| && job.Valid()
    ensures job.key(p.cursor) != "" && (p.cursor in l.windows ==> l.windows[p.cursor].sha == job.key(p.cursor))
  {
  }

  lemma MalformedKeeps(job: Job, s: State)
    requires ReadingInv(job, s) && s.phase == Reading
    ensures ReadingInv(job, Malformed(s))
  {
    hide Inv, ReadInv, HeadContext;
    var r := Load(s).records[Load(s).cursor];
    if r.formatAttempts >= 2 {
      MarkKeeps(job, s, r.(formatBlocked := true), Idle);
    } else {
      NotFormatBlocked(job, s.ledger, Load(s));
      MarkKeeps(job, s, r.(formatAttempts := r.formatAttempts + 1), Reading);
    }
  }

  lemma NotFormatBlocked(job: Job, l: Ledger, p: Progress)
    requires ReadInv(job, l, p) && p.cursor < |p.records| && p.records[p.cursor].formatAttempts < 2
    ensures !p.records[p.cursor].formatBlocked
  {
    assert RecordInv(job, l, p.records[p.cursor], p.cursor);
  }

  /** The ledger's answer is recorded: the window ends with its receipt or as a technical rejection. */
  lemma CommitKeeps(job: Job, s: State)
    requires ReadingInv(job, s) && s.phase.Applied?
    ensures ReadingInv(job, Commit(s))
  {
    hide Inv, Replay, ReplayOne, Revisit, RevisitAll, Retained, Displayed;
    var p := Load(s);
    NotFormatBlocked(job, s.ledger, p);
    var r := p.records[p.cursor].(chosen := Some(s.phase.chosen), retained := Some(s.phase.retained));
    var finished := match s.phase.result
      case Ok(receipt) => r.(receipt := Some(receipt), status := StatusFor(s.phase.outcome))
      case Err(_) => r.(technical := true, status := AsUnresolved);
    FinishedExtends(job, p, finished);
    HeadKeeps(job, s.ledger, p, finished);
    if s.phase.result.Err? {
      MoveKeeps(job, s.ledger, SetHead(p, finished));
    }
  }

  /** Only the window at the cursor can be blocked or pending: an explicit retry never moves the
      reading cursor. */
  lemma RetryStays(job: Job, l: Ledger, p: Progress)
    requires ReadInv(job, l, p)
    ensures FirstReopened(p.records) == |p.records| || FirstReopened(p.records) == p.cursor
    ensures RetryReading(p).cursor == p.cursor
  {
    hide Replay, ReplayOne, HeadInv;
    forall i | 0 <= i < p.cursor ensures !Reopens(p.records[i]) {
      assert RecordInv(job, l, p.records[i], i);
    }
  }

  /** Clearing stop marks keeps a record's invariant, and leaves a finished record alone. */
  lemma UnblockKeeps(job: Job, l: Ledger, r: Record, i: int)
    requires 0 <= i < |job.doc| && RecordInv(job, l, r, i)
    ensures RecordInv(job, l, Unblock(r), i)
    ensures r.status != ReadPending ==> Unblock(r) == r
  {
  }

  lemma RetryRecords(job: Job, l: Ledger, p: Progress)
    requires ReadInv(job, l, p)
    ensures |RetryReading(p).records| == |p.records| && RetryReading(p).cursor == p.cursor
    ensures forall i :: 0 <= i < |p.records| ==> RecordInv(job, l, RetryReading(p).records[i], i)
    ensures forall i :: 0 <= i < |p.records| ==> RetryReading(p).records[i] == Unblock(p.records[i])
    ensures RetryReading(p).records[..p.cursor] == p.records[..p.cursor]
  {
    RetryStays(job, l, p);
    hide RecordInv, HeadInv, Replay;
    forall i | 0 <= i < |p.records| ensures RecordInv(job, l, Unblock(p.records[i]), i) {
      UnblockKeeps(job, l, p.records[i], i);
    }
    forall i | 0 <= i < p.cursor ensures Unblock(p.records[i]) == p.records[i] {
      UnblockKeeps(job, l, p.records[i], i);
    }
  }

  lemma RetryKeeps(job: Job, l: Ledger, p: Progress)
    requires ReadInv(job, l, p)
    ensures ReadInv(job, l, RetryReading(p))
  {
    hide Replay, RevisitAll, HeadContext, Revisit, Retained, Displayed, ReplayOne, RecordInv, FirstReopened;
    RetryRecords(job, l, p);
    var q := RetryReading(p);
    HeadContextFrame(job, p, q);
    if |p.records| > p.cursor {
      var r := p.records[p.cursor];
      assert q.records[p.cursor] == Unblock(r) && HeadInv(job, p, r);
      assert RecordInv(job, l, r, p.cursor);
      UnblockKeeps(job, l, r, p.cursor);
      assert HeadInv(job, q, Unblock(r));
    }
    assert ReceiptsInv(job, l, q);
    assert PrefixInv(job, l, q);
  }

  lemma FinishKeeps(job: Job, s: State)
    requires ReadingInv(job, s) && s.phase == Top && Load(s).cursor == |job.doc|
    ensures ReadingInv(job, Finish(job, s)) && Finish(job, s).phase == ReviewStart && Load(Finish(job, s)).complete
  {
    hide Inv, Replay, ReplayOne, HeadInv;
  }

  /** No step of a reading run, and no crash, leaves the invariant. */
  lemma StepKeeps(job: Job, s: State, e: Event)
    requires ReadingInv(job, s) && Ready(job, s)
    ensures ReadingInv(job, Step(job, s, e))
  {
    hide ReadInv, Inv, HeadContext, Enter, Finish, RequestContext, Malformed, Submit, Commit;
    match e
    case Crash =>
    case Start =>
    case Tool(ids) => if s.phase.Reading? { ToolKeeps(job, s, ids); }
    case ExtractStalled =>
      if s.phase.Reading? { MarkOpen(job, s, Head(Load(s)).(extractBlocked := true)); }
    case BadReceipt => if s.phase.Reading? { MalformedKeeps(job, s); }
    case Receipt(_, _, _, _, _, _) => if s.phase.Reading? && OwnCandidates(s, e) { SubmitKeeps(job, s, e); }
    case Advance =>
      match s.phase
      case Top => if Load(s).cursor < |job.doc| { EnterKeeps(job, s); } else { FinishKeeps(job, s); }
      case Blocking => MarkOpen(job, s, Head(Load(s)).(toolBlocked := true));
      case Applied(_, _, _, _) => CommitKeeps(job, s);
      case Recorded => MoveKeeps(job, s.ledger, Load(s));
      case _ =>
  }

  lemma AlwaysReady(job: Job, s: State)
    requires ReadingInv(job, s)
    ensures Ready(job, s) && |Load(s).records| <= |job.doc|
  {
  }

  lemma MarkOpen(job: Job, s: State, r: Record)
    requires ReadingInv(job, s) && (s.phase == Reading || s.phase == Blocking)
    requires Load(s).cursor <= |Load(s).records|
    requires r == Head(Load(s)).(extractBlocked := true) || r == Head(Load(s)).(toolBlocked := true)
    ensures ReadingInv(job, Save(s, SetHead(Load(s), r), Idle))
  {
    FormatBlockedCounts(job, s.ledger, Load(s));
    hide ReadInv, Inv, HeadContext;
    MarkKeeps(job, s, r, Idle);
  }

  lemma FormatBlockedCounts(job: Job, l: Ledger, p: Progress)
    requires ReadInv(job, l, p) && p.cursor < |p.records|
    ensures p.records[p.cursor].formatBlocked ==> p.records[p.cursor].formatAttempts >= 2
  {
    assert RecordInv(job, l, p.records[p.cursor], p.cursor);
  }
}
