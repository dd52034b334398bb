/** What one turn of the reading loop does in every state a run can reach: what is displayed, what the
    ledger decides on, and what is saved (app/document_read/notes.py, run). */
module ReadingTurns {
  import opened Wrappers
  import opened Evidence
  import opened NoteLedger
  import opened NoteRules
  import opened NoteOutcomes
  import opened Notebook
  import opened ReadingLoop
  import opened ReadingResume

  // ---- Displayed grants are the document's --------------------------------

  /** Every grant is the document's own window of that number. */
  ghost predicate FromDocument(job: Job, shown: seq<Shown>) {
    forall i :: 0 <= i < |shown| ==> 0 <= shown[i].id < |job.doc| && shown[i] == job.Grant(shown[i].id)
  }

  function ShownIds(shown: seq<Shown>): set<int> {
    set i | 0 <= i < |shown| :: shown[i].id
  }

  /** The windows of the document with these numbers. */
  function DocumentGrants(job: Job, ids: set<int>): Grants {
    map n | n in ids && 0 <= n < |job.doc| :: job.doc[n].grant
  }

  lemma {:induction false} GrantMapExactly(job: Job, shown: seq<Shown>)
    requires FromDocument(job, shown)
    ensures GrantMap(shown) == DocumentGrants(job, ShownIds(shown))
  {
    if shown != [] {
      var before, last := shown[..|shown|-1], shown[|shown|-1];
      GrantMapExactly(job, before);
      ShownIdsSplit(before, last);
      assert shown == before + [last];
    }
  }

  lemma ShownIdsSplit(shown: seq<Shown>, last: Shown)
    ensures ShownIds(shown + [last]) == ShownIds(shown) + {last.id}
  {
    var longer := shown + [last];
    assert longer[|shown|] == last;
    forall i | 0 <= i < |shown| ensures longer[i] == shown[i] {
    }
    forall n | n in ShownIds(shown) ensures n in ShownIds(longer) {
      var i :| 0 <= i < |shown| && shown[i].id == n;
      assert longer[i].id == n;
    }
  }

  lemma ShownIdsConcat(a: seq<Shown>, b: seq<Shown>)
    ensures ShownIds(a + b) == ShownIds(a) + ShownIds(b)
  {
    forall n | n in ShownIds(a) ensures n in ShownIds(a + b) {
      var i :| 0 <= i < |a| && a[i].id == n;
      assert (a + b)[i].id == n;
    }
    forall n | n in ShownIds(b) ensures n in ShownIds(a + b) {
      var i :| 0 <= i < |b| && b[i].id == n;
      assert (a + b)[|a| + i].id == n;
    }
  }

  lemma {:induction false} FindExactly(job: Job, shown: seq<Shown>, id: GrantId)
    ensures Find(shown, id).Some? <==> id in ShownIds(shown)
    ensures FromDocument(job, shown) && id in ShownIds(shown) ==> 0 <= id < |job.doc| && Find(shown, id) == Some(job.Grant(id))
  {
    if shown != [] {
      var before, last := shown[..|shown|-1], shown[|shown|-1];
      FindExactly(job, before, id);
      ShownIdsSplit(before, last);
      assert shown == before + [last];
    }
  }

  ghost predicate DistinctIds(shown: seq<Shown>) {
    forall i, j :: 0 <= i < j < |shown| ==> shown[i].id != shown[j].id
  }

  /** Removing repeated grants keeps each displayed number once. */
  lemma {:induction false} DedupExactly(job: Job, shown: seq<Shown>)
    ensures ShownIds(Dedup(shown)) == ShownIds(shown) && DistinctIds(Dedup(shown))
    ensures FromDocument(job, shown) ==> FromDocument(job, Dedup(shown))
  {
    if shown != [] {
      var before, last := shown[..|shown|-1], shown[|shown|-1];
      DedupExactly(job, before);
      FindExactly(job, Dedup(before), last.id);
      ShownIdsSplit(before, last);
      ShownIdsSplit(Dedup(before), last);
      assert shown == before + [last];
    }
  }

  lemma RetainedExactly(job: Job, ids: seq<GrantId>, current: Shown, displayed: seq<Shown>)
    requires FromDocument(job, displayed) && FromDocument(job, [current])
    ensures Retained(ids, current, displayed).Some? <==>
      && |ids| <= 2 && NoDuplicates(ids)
      && forall i :: 0 <= i < |ids| ==> ids[i] == current.id || ids[i] in ShownIds(displayed)
    ensures Retained(ids, current, displayed).Some? ==>
      && FromDocument(job, Retained(ids, current, displayed).value)
      && forall i :: 0 <= i < |ids| ==> Retained(ids, current, displayed).value[i].id == ids[i]
  {
    var all := displayed + [current];
    ShownIdsSplit(displayed, current);
    assert FromDocument(job, all) by {
      assert [current][0] == current;
    }
    forall i | 0 <= i < |ids|
      ensures Find(all, ids[i]).Some? <==> ids[i] == current.id || ids[i] in ShownIds(displayed)
      ensures Find(all, ids[i]).Some? ==> 0 <= ids[i] < |job.doc| && Find(all, ids[i]) == Some(job.Grant(ids[i]))
    {
      FindExactly(job, all, ids[i]);
    }
    hide Find;
  }

  /** Whatever a checkpoint holds, sound or tampered with, the context rebuilt from it shows windows of the
      document only. */
  lemma {:induction false} ReplayFromDocument(job: Job, rs: seq<Record>, limit: nat)
    requires Replay(job, rs, limit).Some?
    ensures FromDocument(job, Replay(job, rs, limit).value.history)
    ensures FromDocument(job, Replay(job, rs, limit).value.retained)
  {
    hide Displayed, Retained;
    if rs != [] {
      ReplayFromDocument(job, rs[..|rs|-1], limit);
      var c := Replay(job, rs[..|rs|-1], limit).value;
      var r := rs[|rs|-1];
      if r.grant.Some? {
        DisplayedFromDocument(job, c.history, c.retained);
        assert FromDocument(job, [r.grant.value]);
        if r.chosen.Some? {
          RetainedExactly(job, r.chosen.value, r.grant.value, Displayed(c.history, c.retained));
        }
      }
    }
  }

  lemma DisplayedFromDocument(job: Job, history: seq<Shown>, retained: seq<Shown>)
    requires FromDocument(job, history) && FromDocument(job, retained)
    ensures FromDocument(job, Displayed(history, retained))
  {
    assert FromDocument(job, LastTwo(history) + retained);
    DedupExactly(job, LastTwo(history) + retained);
    hide Dedup;
  }

  lemma ContextFromDocument(job: Job, p: Progress)
    requires p.cursor <= |p.records| && HeadContext(job, p).Some?
    ensures FromDocument(job, HeadContext(job, p).value)
  {
    ReplayFromDocument(job, p.records[..p.cursor], p.cursor);
    var c := Replay(job, p.records[..p.cursor], p.cursor).value;
    DisplayedFromDocument(job, c.history, c.retained);
    hide Displayed, Replay;
  }

  /** Whatever the checkpoint holds, a revisit shows the document's window, and only of an earlier record
      that was read. */
  lemma RevisitFromDocument(job: Job, p: Progress, n: int)
    ensures Revisit(job, p, n).Some? ==>
      && 0 <= n < p.cursor && n < |p.records| && n < |job.doc|
      && p.records[n].grant == Some(job.Grant(n)) && p.records[n].status != ReadPending
      && Revisit(job, p, n) == Some(job.Grant(n))
  {
  }

  lemma RevisitsFromDocument(job: Job, p: Progress, ids: seq<int>)
    requires RevisitAll(job, p, ids).Some?
    ensures FromDocument(job, RevisitAll(job, p, ids).value)
    ensures |RevisitAll(job, p, ids).value| == |ids|
    ensures forall i :: 0 <= i < |ids| ==> RevisitAll(job, p, ids).value[i].id == ids[i]
    ensures ShownIds(RevisitAll(job, p, ids).value) == set i | 0 <= i < |ids| :: ids[i]
  {
    var shown := RevisitAll(job, p, ids).value;
    forall i | 0 <= i < |ids| ensures 0 <= shown[i].id < |job.doc| && shown[i] == job.Grant(ids[i]) {
      RevisitFromDocument(job, p, ids[i]);
    }
    hide Revisit, RevisitAll;
    assert forall i :: 0 <= i < |ids| ==> shown[i].id == ids[i];
  }

  // ---- The rolling context ------------------------------------------------

  /** The windows below n that can be read, in order. */
  function ReadableBelow(job: Job, n: nat): seq<int>
    requires n <= |job.doc|
  {
    if n == 0 then []
    else ReadableBelow(job, n - 1) + if job.doc[n-1].unavailable then [] else [n - 1]
  }

  /** What the last readable window below n chose to retain. */
  function ChosenBelow(job: Job, p: Progress, n: nat): seq<GrantId>
    requires n <= |job.doc| && n <= |p.records|
  {
    if n == 0 then []
    else if job.doc[n-1].unavailable then ChosenBelow(job, p, n - 1)
    else if p.records[n-1].chosen.Some? then p.records[n-1].chosen.value
    else []
  }

  ghost predicate Numbered(shown: seq<Shown>, ids: seq<int>) {
    |shown| == |ids| && forall i :: 0 <= i < |ids| ==> shown[i].id == ids[i]
  }

  /** One finished record of the prefix. */
  lemma ReplayedExactly(job: Job, l: Ledger, c: Context, r: Record, n: nat, limit: nat)
    requires n < |job.doc| && RecordInv(job, l, r, n) && r.status != ReadPending
    requires FromDocument(job, c.history) && FromDocument(job, c.retained) && ReplayOne(job, c, r, limit).Some?
    ensures
      var d := ReplayOne(job, c, r, limit).value;
      if job.doc[n].unavailable then d == c
      else
        && d.history == c.history + [job.Grant(n)]
        && r.chosen.Some? && Numbered(d.retained, r.chosen.value)
  {
    hide Displayed, Retained;
    if r.grant.Some? {
      DisplayedFromDocument(job, c.history, c.retained);
      assert FromDocument(job, [r.grant.value]);
      RetainedExactly(job, r.chosen.value, r.grant.value, Displayed(c.history, c.retained));
    }
  }

  lemma FinishedRecord(job: Job, l: Ledger, p: Progress, n: nat)
    requires ReadInv(job, l, p) && n < p.cursor
    ensures n < |p.records| && n < |job.doc| && RecordInv(job, l, p.records[n], n) && p.records[n].status != ReadPending
  {
    hide RecordInv, HeadInv, ReceiptsInv, Replay;
  }

  lemma {:induction false} HistoryExactly(job: Job, l: Ledger, p: Progress, n: nat)
    requires ReadInv(job, l, p) && n <= p.cursor <= |p.records| && p.cursor <= |job.doc|
    requires Replay(job, p.records[..n], p.cursor).Some?
    ensures Numbered(Replay(job, p.records[..n], p.cursor).value.history, ReadableBelow(job, n))
    ensures Numbered(Replay(job, p.records[..n], p.cursor).value.retained, ChosenBelow(job, p, n))
  {
    hide ReplayOne, ReadInv, RecordInv;
    if n > 0 {
      var rs := p.records[..n];
      assert rs[..n-1] == p.records[..n-1] && rs[n-1] == p.records[n-1];
      HistoryExactly(job, l, p, n - 1);
      ReplayFromDocument(job, p.records[..n-1], p.cursor);
      FinishedRecord(job, l, p, n - 1);
      ReplayedExactly(job, l, Replay(job, p.records[..n-1], p.cursor).value, p.records[n-1], n - 1, p.cursor);
      hide FromDocument;
    }
  }

  /** The context displayed at the cursor: exactly the last two windows read and what the last of them
      chose to retain, each once and as the document has it. */
  lemma ContextExactly(job: Job, l: Ledger, p: Progress)
    requires ReadInv(job, l, p)
    ensures p.cursor <= |p.records| && p.cursor <= |job.doc| && HeadContext(job, p).Some?
    ensures
      var shown, read, chosen := HeadContext(job, p).value, ReadableBelow(job, p.cursor), ChosenBelow(job, p, p.cursor);
      && FromDocument(job, shown) && DistinctIds(shown)
      && forall n :: n in ShownIds(shown) <==> (exists i :: |read| - 2 <= i < |read| && 0 <= i && read[i] == n) || n in chosen
  {
    HistoryExactly(job, l, p, p.cursor);
    ContextFromDocument(job, p);
    var c := Replay(job, p.records[..p.cursor], p.cursor).value;
    hide ReadInv, Replay, FromDocument;
    DedupExactly(job, LastTwo(c.history) + c.retained);
    hide Dedup;
    var read, chosen := ReadableBelow(job, p.cursor), ChosenBelow(job, p, p.cursor);
    ShownIdsConcat(LastTwo(c.history), c.retained);
    LastTwoIds(c.history, read);
    NumberedIds(c.retained, chosen);
  }

  lemma NumberedIds(shown: seq<Shown>, ids: seq<int>)
    requires Numbered(shown, ids)
    ensures forall n :: n in ShownIds(shown) <==> n in ids
  {
    forall n ensures n in ShownIds(shown) <==> n in ids {
      if n in ids {
        var i :| 0 <= i < |ids| && ids[i] == n;
        assert shown[i].id == n;
      }
    }
  }

  lemma LastTwoIds(history: seq<Shown>, read: seq<int>)
    requires Numbered(history, read)
    ensures forall n :: n in ShownIds(LastTwo(history)) <==> exists i :: |read| - 2 <= i < |read| && 0 <= i && read[i] == n
  {
    var last := LastTwo(history);
    var cut := |history| - |last|;
    forall i | 0 <= i < |last| ensures last[i].id == read[cut + i] {
    }
    forall n | exists i :: |read| - 2 <= i < |read| && 0 <= i && read[i] == n ensures n in ShownIds(last) {
      var i :| |read| - 2 <= i < |read| && 0 <= i && read[i] == n;
      assert last[i - cut].id == n;
    }
  }

  // ---- Entering a window --------------------------------------------------

  /** The records with this one at the cursor. */
  function AtCursor(p: Progress, r: Record): seq<Record>
    requires p.cursor <= |p.records|
  {
    p.records[..p.cursor] + [r] + if |p.records| > p.cursor then p.records[p.cursor+1..] else []
  }

  /** The record that the loop finds or opens at the cursor. */
  function Met(p: Progress): Record
    requires p.cursor <= |p.records|
  {
    if |p.records| > p.cursor then p.records[p.cursor]
    else Record(p.cursor, ReadPending, None, None, None, None, [], None, 0, false, false, 0, false, None, false)
  }

  lemma AtCursorExactly(p: Progress, r: Record)
    requires p.cursor <= |p.records|
    ensures Head(p) == Met(p) && SetHead(p, r) == p.(records := AtCursor(p, r))
  {
    assert WithHead(p)[p.cursor := r] == AtCursor(p, r);
  }

  /** From the head of the loop: an unavailable window is passed as unresolved, a finished one is passed
      as it is, a blocked one or one whose context breaks the byte bound stops the run, and any other is
      opened with its grant and the context it is shown. */
  lemma EntersExactly(job: Job, s: State)
    requires ReadingInv(job, s) && s.phase == Top && Load(s).cursor < |job.doc|
    ensures Ready(job, s) && HeadContext(job, Load(s)).Some?
    ensures
      var p := Load(s);
      var r, shown := Met(p), HeadContext(job, p).value;
      Step(job, s, Advance) ==
        if job.doc[p.cursor].unavailable then
          s.(disk := Some(p.(records := AtCursor(p, r.(status := AsUnresolved)), cursor := p.cursor + 1)))
        else if !job.fits(shown) || (r.status == ReadPending && (r.toolBlocked || r.extractBlocked)) then s.(phase := Idle)
        else if r.status != ReadPending then s.(disk := Some(p.(cursor := p.cursor + 1)))
        else
          var entered := r.(grant := Some(job.Grant(p.cursor)), rolling := Some(shown));
          State(Some(p.(records := AtCursor(p, entered))), s.ledger, Reading)
  {
    var p := Load(s);
    hide RecordInv, Replay, Inv;
    ContextBound(job, p);
    if |p.records| == p.cursor {
      assert RevisitAll(job, p, []) == Some([]);
    }
    AtCursorExactly(p, Met(p));
    if job.doc[p.cursor].unavailable {
      AtCursorExactly(p, Met(p).(status := AsUnresolved));
    } else if Met(p).status != ReadPending {
      FinishedStays(job, s.ledger, p);
    } else {
      AtCursorExactly(p, Met(p).(grant := Some(job.Grant(p.cursor)), rolling := HeadContext(job, p)));
    }
    hide AtCursor, Head, SetHead, HeadContext, RevisitAll;
  }

  /** The context of a finished record is the recomputed one. */
  lemma FinishedStays(job: Job, l: Ledger, p: Progress)
    requires ReadInv(job, l, p) && p.cursor < |p.records| && p.records[p.cursor].status != ReadPending
    requires !job.doc[p.cursor].unavailable && HeadContext(job, p).Some?
    ensures SetHead(p, p.records[p.cursor].(rolling := HeadContext(job, p))) == p
  {
    var r := p.records[p.cursor];
    assert RecordInv(job, l, r, p.cursor) && HeadInv(job, p, r);
    hide Replay, RevisitAll, Retained, Displayed, ReadInv;
    assert r.rolling == HeadContext(job, p);
  }

  // ---- The context tool ---------------------------------------------------

  /** Those of the ids that are not displayed yet, in order. */
  function Fresh(displayed: seq<GrantId>, ids: seq<GrantId>): seq<GrantId> {
    if ids == [] then []
    else if ids[0] in displayed then Fresh(displayed, ids[1..])
    else [ids[0]] + Fresh(displayed, ids[1..])
  }

  lemma {:induction false} FreshSplit(displayed: seq<GrantId>, ids: seq<GrantId>, id: GrantId)
    ensures Fresh(displayed, ids + [id]) == Fresh(displayed, ids) + if id in displayed then [] else [id]
  {
    if ids == [] {
      assert [id][1..] == [];
    } else {
      assert (ids + [id])[1..] == ids[1..] + [id];
      FreshSplit(displayed, ids[1..], id);
    }
  }

  lemma {:induction false} UnseenIsFresh(displayed: seq<GrantId>, ids: seq<GrantId>)
    ensures Unseen(displayed, ids) == Fresh(displayed, ids)
  {
    if ids != [] {
      UnseenIsFresh(displayed, ids[..|ids|-1]);
      FreshSplit(displayed, ids[..|ids|-1], ids[|ids|-1]);
      assert ids[..|ids|-1] + [ids[|ids|-1]] == ids;
    }
  }

  /** The grants of these windows of the document. */
  function GrantsOf(job: Job, ids: seq<int>): seq<Shown>
    requires forall i :: 0 <= i < |ids| ==> 0 <= ids[i] < |job.doc|
  {
    seq(|ids|, i requires 0 <= i < |ids| => job.Grant(ids[i]))
  }

  /** An earlier window of the document that could be read. */
  predicate ReadEarlier(job: Job, p: Progress, n: int) {
    0 <= n < p.cursor && n < |job.doc| && !job.doc[n].unavailable
  }

  /** Every earlier readable window can be displayed again, and no other. */
  lemma RevisitExactly(job: Job, l: Ledger, p: Progress, n: int)
    requires ReadInv(job, l, p)
    ensures Revisit(job, p, n) == if ReadEarlier(job, p, n) then Some(job.Grant(n)) else None
  {
    hide HeadInv, ReceiptsInv, Replay;
    if 0 <= n < p.cursor {
      assert RecordInv(job, l, p.records[n], n);
    }
  }

  lemma RevisitsExactly(job: Job, l: Ledger, p: Progress, ids: seq<int>)
    requires ReadInv(job, l, p)
    ensures RevisitAll(job, p, ids).Some? <==> forall i :: 0 <= i < |ids| ==> ReadEarlier(job, p, ids[i])
    ensures RevisitAll(job, p, ids).Some? ==>
      && (forall i :: 0 <= i < |ids| ==> 0 <= ids[i] < |job.doc|)
      && RevisitAll(job, p, ids) == Some(GrantsOf(job, ids))
  {
    forall n ensures Revisit(job, p, n) == if ReadEarlier(job, p, n) then Some(job.Grant(n)) else None {
      RevisitExactly(job, l, p, n);
    }
    hide ReadInv, Revisit;
    if RevisitAll(job, p, ids).Some? {
      assert RevisitAll(job, p, ids).value == GrantsOf(job, ids);
    }
  }

  /** What a request of earlier windows leads to, for the record at the cursor and the context shown. */
  function ToolResult(job: Job, s: State, r: Record, shown: seq<Shown>, ids: seq<GrantId>): State
    requires Load(s).cursor <= |Load(s).records|
    requires forall i :: 0 <= i < |r.revisits| ==> 0 <= r.revisits[i] < |job.doc|
  {
    var p := Load(s);
    var asked := Fresh(r.revisits, ids);
    if !(1 <= |ids| <= 2) || !NoDuplicates(ids) then s
    else if asked == [] then
      State(Some(p.(records := AtCursor(p, r.(stalls := r.stalls + 1)))), s.ledger, if r.stalls == 0 then Reading else Blocking)
    else if |r.revisits| + |asked| > 2 || exists i :: 0 <= i < |asked| && !ReadEarlier(job, p, asked[i]) then s
    else if !job.fits(Dedup(shown + GrantsOf(job, r.revisits) + GrantsOf(job, asked))) then s
    else
      var granted := r.(revisits := r.revisits + asked, views := Some(GrantsOf(job, r.revisits + asked)), stalls := 0);
      State(Some(p.(records := AtCursor(p, granted))), s.ledger, Reading)
  }

  /** While a window is being read: a malformed request, one beyond two revisits, one of a window that was
      not read, and one over the byte bound change nothing; a repetition counts as a stall and the second
      stall blocks the window; otherwise the new windows are displayed beside those before them, and the
      stalls are forgotten. */
  lemma ToolExactly(job: Job, s: State, ids: seq<GrantId>)
    requires ReadingInv(job, s) && s.phase == Reading
    ensures Ready(job, s) && HeadContext(job, Load(s)).Some?
    ensures
      var r := Load(s).records[Load(s).cursor];
      && (forall i :: 0 <= i < |r.revisits| ==> 0 <= r.revisits[i] < |job.doc|)
      && Step(job, s, Tool(ids)) == ToolResult(job, s, r, HeadContext(job, Load(s)).value, ids)
  {
    OpenHead(job, s);
    var p := Load(s);
    var r := p.records[p.cursor];
    RevisitsExactly(job, s.ledger, p, r.revisits);
    RevisitsExactly(job, s.ledger, p, Fresh(r.revisits, ids));
    hide ReadingInv, ReadInv, HeadContext, RevisitAll;
    ToolCases(job, s, HeadContext(job, p).value, ids);
    hide RequestContext, ToolResult;
  }

  lemma ToolCases(job: Job, s: State, shown: seq<Shown>, ids: seq<GrantId>)
    requires Load(s).cursor < |Load(s).records| && s.phase == Reading && s.disk.Some?
    requires HeadContext(job, Load(s)) == Some(shown) && |shown| <= 4
    requires
      var p := Load(s);
      var r := p.records[p.cursor];
      var asked := Fresh(r.revisits, ids);
      && (forall i :: 0 <= i < |r.revisits| ==> 0 <= r.revisits[i] < |job.doc|)
      && RevisitAll(job, p, r.revisits) == Some(GrantsOf(job, r.revisits))
      && (RevisitAll(job, p, asked).Some? <==> forall i :: 0 <= i < |asked| ==> ReadEarlier(job, p, asked[i]))
      && (RevisitAll(job, p, asked).Some? ==> RevisitAll(job, p, asked) == Some(GrantsOf(job, asked)))
    ensures RequestContext(job, s, ids) == ToolResult(job, s, Load(s).records[Load(s).cursor], shown, ids)
  {
    hide HeadContext, RevisitAll, Dedup, Fresh, AtCursor, SetHead, GrantsOf, Unseen, NoDuplicates;
    var p := Load(s);
    var r := p.records[p.cursor];
    var asked := Fresh(r.revisits, ids);
    UnseenIsFresh(r.revisits, ids);
    if asked == [] {
      AtCursorExactly(p, r.(stalls := r.stalls + 1));
    } else if |r.revisits| + |asked| <= 2 && RevisitAll(job, p, asked).Some? {
      GrantsTogether(job, r.revisits, asked);
      assert |shown + GrantsOf(job, r.revisits) + GrantsOf(job, asked)| <= 6;
      AtCursorExactly(p, r.(revisits := r.revisits + asked, views := Some(GrantsOf(job, r.revisits + asked)), stalls := 0));
    }
  }

  lemma GrantsTogether(job: Job, a: seq<int>, b: seq<int>)
    requires forall i :: 0 <= i < |a| ==> 0 <= a[i] < |job.doc|
    requires forall i :: 0 <= i < |b| ==> 0 <= b[i] < |job.doc|
    ensures GrantsOf(job, a) + GrantsOf(job, b) == GrantsOf(job, a + b)
    ensures |GrantsOf(job, a)| == |a| && |GrantsOf(job, b)| == |b|
  {
  }

  lemma OpenHead(job: Job, s: State)
    requires ReadingInv(job, s) && s.phase == Reading
    ensures Ready(job, s) && s.disk.Some? && HeadContext(job, Load(s)).Some? && ReadInv(job, s.ledger, Load(s))
    ensures
      var p := Load(s);
      && p.cursor < |p.records| && RevisitAll(job, p, p.records[p.cursor].revisits).Some?
      && p.records[p.cursor].status == ReadPending && |HeadContext(job, p).value| <= 4
  {
    hide Inv, Replay, RecordInv, ReceiptsInv;
    ContextBound(job, Load(s));
  }

  // ---- The receipt --------------------------------------------------------

  /** The employee may retain at most two windows, each either current or displayed. */
  ghost predicate RetentionFits(p: Progress, shown: seq<Shown>, chosen: seq<GrantId>) {
    && |chosen| <= 2 && NoDuplicates(chosen)
    && forall i :: 0 <= i < |chosen| ==> chosen[i] == p.cursor || chosen[i] in ShownIds(shown)
  }

  /** The windows in front of the employee: the current one, the displayed context, the revisits. */
  function InFront(p: Progress, r: Record, shown: seq<Shown>): set<int> {
    {p.cursor} + ShownIds(shown) + set i | 0 <= i < |r.revisits| :: r.revisits[i]
  }

  /** What the ledger decides on: the receipt as answered, over exactly the windows in front of the
      employee with the document's content, under the window's own key. */
  function ReceiptFor(job: Job, p: Progress, r: Record, shown: seq<Shown>, e: Event): WindowRequest
    requires e.Receipt?
  {
    WindowRequest(p.cursor, Some(e.outcome), Some(e.creates), Some(e.revisions), DocumentGrants(job, InFront(p, r, shown)),
                  e.candidates, job.key(p.cursor))
  }

  predicate AnswerShaped(e: Event)
    requires e.Receipt?
  {
    && |e.chosen| <= 2 && NoDuplicates(e.chosen)
    && match e.outcome
       case NoContent => e.creates == [] && e.revisions == []
       case Noted => e.creates != [] || e.revisions != []
       case Unresolved => true
  }

  lemma ConcatFromDocument(job: Job, a: seq<Shown>, b: seq<Shown>)
    requires FromDocument(job, a) && FromDocument(job, b)
    ensures FromDocument(job, a + b)
  {
  }

  lemma OneFromDocument(job: Job, n: int)
    requires 0 <= n < |job.doc|
    ensures FromDocument(job, [job.Grant(n)]) && ShownIds([job.Grant(n)]) == {n}
  {
    assert [job.Grant(n)][0].id == n;
  }

  lemma GrantsTogetherShown(job: Job, n: int, shown: seq<Shown>, again: seq<Shown>)
    requires 0 <= n < |job.doc| && FromDocument(job, shown) && FromDocument(job, again)
    ensures GrantMap([job.Grant(n)] + Dedup(shown + again)) == DocumentGrants(job, {n} + ShownIds(shown) + ShownIds(again))
  {
    ConcatFromDocument(job, shown, again);
    DedupExactly(job, shown + again);
    ShownIdsConcat(shown, again);
    OneFromDocument(job, n);
    ConcatFromDocument(job, [job.Grant(n)], Dedup(shown + again));
    ShownIdsConcat([job.Grant(n)], Dedup(shown + again));
    hide FromDocument, Dedup, ShownIds, DocumentGrants;
    GrantMapExactly(job, [job.Grant(n)] + Dedup(shown + again));
    assert {n} + (ShownIds(shown) + ShownIds(again)) == {n} + ShownIds(shown) + ShownIds(again);
  }

  lemma GrantsInFront(job: Job, p: Progress, r: Record)
    requires 0 <= p.cursor < |job.doc| && p.cursor <= |p.records|
    requires HeadContext(job, p).Some? && RevisitAll(job, p, r.revisits).Some?
    ensures GrantMap([job.Grant(p.cursor)] + Dedup(HeadContext(job, p).value + RevisitAll(job, p, r.revisits).value))
      == DocumentGrants(job, InFront(p, r, HeadContext(job, p).value))
  {
    ContextFromDocument(job, p);
    RevisitsFromDocument(job, p, r.revisits);
    hide HeadContext, RevisitAll, FromDocument, GrantMap, Dedup, DocumentGrants;
    GrantsTogetherShown(job, p.cursor, HeadContext(job, p).value, RevisitAll(job, p, r.revisits).value);
  }

  /** What the ledger's answer to a request leads to. */
  function Answered(job: Job, s: State, q: WindowRequest, e: Event, kept: seq<Shown>): State
    requires e.Receipt?
  {
    match WindowSpec(job.host, s.ledger, q, e.fence)
    case Ok(done) => State(s.disk, done.0, Applied(Ok(done.1), e.outcome, e.chosen, kept))
    case Err(NoteRejected) => s.(phase := Applied(Err(NoteRejected), e.outcome, e.chosen, kept))
    case Err(_) => s.(phase := Idle)
  }

  /** A well-formed answer of an employee with attempts left: a retention of anything not displayed, or
      over the byte bound, stops the run; otherwise the ledger decides on exactly what was in front of the
      employee, and its answer is carried to the next save. */
  lemma SubmitsExactly(job: Job, s: State, e: Event)
    requires ReadingInv(job, s) && s.phase == Reading && e.Receipt? && OwnCandidates(s, e)
    requires AnswerShaped(e) && Load(s).records[Load(s).cursor].formatAttempts < 2
    ensures Ready(job, s) && HeadContext(job, Load(s)).Some?
    ensures RetentionFits(Load(s), HeadContext(job, Load(s)).value, e.chosen) ==>
      forall i :: 0 <= i < |e.chosen| ==> 0 <= e.chosen[i] < |job.doc|
    ensures
      var p, shown := Load(s), HeadContext(job, Load(s)).value;
      Step(job, s, e) ==
        if !RetentionFits(p, shown, e.chosen) || !job.fits(GrantsOf(job, e.chosen)) then s.(phase := Idle)
        else Answered(job, s, ReceiptFor(job, p, p.records[p.cursor], shown, e), e, GrantsOf(job, e.chosen))
  {
    OpenHead(job, s);
    var p := Load(s);
    var shown := HeadContext(job, p).value;
    GrantsInFront(job, p, p.records[p.cursor]);
    ContextFromDocument(job, p);
    RetentionExactly(job, p, shown, e.chosen);
    hide ReadingInv, ReadInv, HeadContext, RevisitAll;
    SubmitCases(job, s, e, shown);
    hide Submit, Answered, RetentionFits, GrantsOf, ReceiptFor, AnswerShaped;
    SubmitStep(job, s, e);
    hide Step, OwnCandidates;
  }

  lemma SubmitStep(job: Job, s: State, e: Event)
    requires Ready(job, s) && s.phase == Reading && e.Receipt? && OwnCandidates(s, e)
    ensures Step(job, s, e) == Submit(job, s, e)
  {
    hide Submit, OwnCandidates;
  }

  lemma SubmitCases(job: Job, s: State, e: Event, shown: seq<Shown>)
    requires e.Receipt? && AnswerShaped(e) && s.disk.Some?
    requires Load(s).cursor < |Load(s).records| && Load(s).cursor < |job.doc|
    requires Load(s).records[Load(s).cursor].formatAttempts < 2
    requires HeadContext(job, Load(s)) == Some(shown) && RevisitAll(job, Load(s), Load(s).records[Load(s).cursor].revisits).Some?
    requires
      var p := Load(s);
      && GrantMap([job.Grant(p.cursor)] + Dedup(shown + RevisitAll(job, p, p.records[p.cursor].revisits).value))
           == DocumentGrants(job, InFront(p, p.records[p.cursor], shown))
      && (RetentionFits(p, shown, e.chosen) ==> forall i :: 0 <= i < |e.chosen| ==> 0 <= e.chosen[i] < |job.doc|)
      && Retained(e.chosen, job.Grant(p.cursor), shown) ==
           if RetentionFits(p, shown, e.chosen) then Some(GrantsOf(job, e.chosen)) else None
    ensures
      var p := Load(s);
      Submit(job, s, e) ==
        if !RetentionFits(p, shown, e.chosen) || !job.fits(GrantsOf(job, e.chosen)) then s.(phase := Idle)
        else Answered(job, s, ReceiptFor(job, p, p.records[p.cursor], shown, e), e, GrantsOf(job, e.chosen))
  {
    hide HeadContext, RevisitAll, Retained, WindowSpec, RetentionFits, GrantMap, Dedup, DocumentGrants, InFront;
    assert |e.chosen| <= 2;
  }

  lemma RetentionExactly(job: Job, p: Progress, shown: seq<Shown>, chosen: seq<GrantId>)
    requires p.cursor < |job.doc| && FromDocument(job, shown)
    ensures RetentionFits(p, shown, chosen) ==> forall i :: 0 <= i < |chosen| ==> 0 <= chosen[i] < |job.doc|
    ensures Retained(chosen, job.Grant(p.cursor), shown) ==
      if RetentionFits(p, shown, chosen) then Some(GrantsOf(job, chosen)) else None
  {
    assert FromDocument(job, [job.Grant(p.cursor)]) by { assert [job.Grant(p.cursor)][0].id == p.cursor; }
    RetainedExactly(job, chosen, job.Grant(p.cursor), shown);
    forall n | n in ShownIds(shown) ensures 0 <= n < |job.doc| {
    }
    hide ShownIds;
    if RetentionFits(p, shown, chosen) {
      var kept := Retained(chosen, job.Grant(p.cursor), shown).value;
      hide Retained;
      assert kept == GrantsOf(job, chosen);
    }
  }

  /** What a malformed answer leads to: one more attempt, and after two the window is format-blocked. */
  lemma MalformedExactly(job: Job, s: State, e: Event)
    requires ReadingInv(job, s) && s.phase == Reading
    requires e.BadReceipt? || (e.Receipt? && OwnCandidates(s, e)
                               && (!AnswerShaped(e) || Load(s).records[Load(s).cursor].formatAttempts >= 2))
    ensures Ready(job, s)
    ensures
      var p := Load(s);
      var r := p.records[p.cursor];
      Step(job, s, e) ==
        if r.formatAttempts >= 2 then State(Some(p.(records := AtCursor(p, r.(formatBlocked := true)))), s.ledger, Idle)
        else State(Some(p.(records := AtCursor(p, r.(formatAttempts := r.formatAttempts + 1)))), s.ledger, Reading)
  {
    OpenHead(job, s);
    var p := Load(s);
    var r := p.records[p.cursor];
    AtCursorExactly(p, r.(formatBlocked := true));
    AtCursorExactly(p, r.(formatAttempts := r.formatAttempts + 1));
    hide ReadingInv, ReadInv, HeadContext, RevisitAll, AtCursor, SetHead, OwnCandidates;
  }

  /** The save after the ledger's answer: a receipt closes the window with the status of its outcome and is
      recorded before the cursor moves; a refusal closes it as an unresolved technical rejection. */
  lemma RecordsExactly(job: Job, s: State)
    requires ReadingInv(job, s) && s.phase.Applied?
    ensures Ready(job, s)
    ensures
      var p := Load(s);
      var r := p.records[p.cursor].(chosen := Some(s.phase.chosen), retained := Some(s.phase.retained));
      Step(job, s, Advance) ==
        match s.phase.result
        case Ok(receipt) =>
          var status := match s.phase.outcome
            case Noted => AsNoted
            case NoContent => AsNoContent
            case Unresolved => AsUnresolved;
          State(Some(p.(records := AtCursor(p, r.(receipt := Some(receipt), status := status)))), s.ledger, Recorded)
        case Err(_) =>
          State(Some(p.(records := AtCursor(p, r.(technical := true, status := AsUnresolved)), cursor := p.cursor + 1)),
                s.ledger, Top)
  {
    var p := Load(s);
    var r := p.records[p.cursor].(chosen := Some(s.phase.chosen), retained := Some(s.phase.retained));
    AtCursorExactly(p, r.(technical := true, status := AsUnresolved));
    if s.phase.result.Ok? {
      AtCursorExactly(p, r.(receipt := Some(s.phase.result.value), status := StatusFor(s.phase.outcome)));
    }
    hide Inv, ReadInv, HeadContext, AtCursor, SetHead, Retained;
  }

  /** A window with nothing to note can always be closed: as long as the lease holds, an empty answer is
      accepted, and the next two saves move the cursor past the window. */
  lemma EmptyAnswerCloses(job: Job, s: State, fence: Fence)
    requires ReadingInv(job, s) && s.phase == Reading && Load(s).records[Load(s).cursor].formatAttempts < 2
    requires job.fits([]) && fence == Fence(true, true)
    ensures Ready(job, s)
    ensures
      var answered := Step(job, s, Receipt(NoContent, [], [], [], [], fence));
      && answered.phase.Applied? && answered.phase.result.Ok? && Ready(job, answered)
      && Load(answered).cursor == Load(s).cursor && Load(s).cursor in answered.ledger.windows
  {
    var e := Receipt(NoContent, [], [], [], [], fence);
    SubmitsExactly(job, s, e);
    OpenHead(job, s);
    var p, shown := Load(s), HeadContext(job, Load(s)).value;
    assert GrantsOf(job, e.chosen) == [];
    StepKeeps(job, s, e);
    EmptyReceiptFits(job, s.ledger, p, p.records[p.cursor], shown, fence);
    hide ReadInv, Inv, HeadContext, WindowSpec, Step, ReceiptFor, GrantsOf;
  }

  lemma EmptyReceiptFits(job: Job, l: Ledger, p: Progress, r: Record, shown: seq<Shown>, fence: Fence)
    requires job.Valid() && Inv(l) && ReadInv(job, l, p) && p.cursor < |job.doc| && fence == Fence(true, true)
    ensures WindowSpec(job.host, l, ReceiptFor(job, p, r, shown, Receipt(NoContent, [], [], [], [], fence)), fence).Ok?
  {
    var q := ReceiptFor(job, p, r, shown, Receipt(NoContent, [], [], [], [], fence));
    KeyOf(job, l, p);
    WindowAccepted(job.host, l, q, fence);
    assert DisplayedInScope(job.host, q.grants);
    assert RowsFit(job.host, l, q);
    hide Inv, ReadInv, WindowSpec, RowsFit, DocumentGrants;
  }

  /** The steps that only mark or move: a crash keeps what was saved; a start resumes at the stage that was
      saved; a stalled extraction and the second stall of the context tool mark their window and stop;
      a recorded window is passed. */
  lemma MarksExactly(job: Job, s: State)
    requires ReadingInv(job, s)
    ensures Ready(job, s) && Step(job, s, Crash) == s.(phase := Idle)
    ensures s.phase == Idle ==> Step(job, s, Start) == s.(phase := if Load(s).complete then ReviewStart else Top)
    ensures s.phase == Reading ==>
      Step(job, s, ExtractStalled) ==
        State(Some(Load(s).(records := AtCursor(Load(s), Met(Load(s)).(extractBlocked := true)))), s.ledger, Idle)
    ensures s.phase == Blocking ==>
      Step(job, s, Advance) ==
        State(Some(Load(s).(records := AtCursor(Load(s), Met(Load(s)).(toolBlocked := true)))), s.ledger, Idle)
    ensures s.phase == Recorded ==>
      Step(job, s, Advance) == State(Some(Load(s).(cursor := Load(s).cursor + 1)), s.ledger, Top)
  {
    AlwaysReady(job, s);
    hide ReadingInv, HeadContext, RevisitAll, AtCursor, Head, SetHead, RequestContext, Submit;
    var p := Load(s);
    AtCursorExactly(p, Met(p).(extractBlocked := true));
    AtCursorExactly(p, Met(p).(toolBlocked := true));
  }
}
