/** Locating an accepted candidate's quote in the attributed lines of its window
    (app/document_read/service.py, _prepare_notes_window). */
module QuoteLocator {
  import opened Wrappers
  import opened Text
  import opened Evidence
  import opened NoteLedger

  /** An attributed range of absolute lines. */
  datatype Range = Range(entity: string, start: int, end: int)

  predicate Attributed(lines: map<int, string>, r: Range) {
    RangeGranted(lines, r.start, r.end)
  }

  // ---- The text of a range without white space ----------------------------

  /** ''.join of the squeezed lines from start up to, and not including, stop. */
  function Dense(lines: map<int, string>, start: int, stop: int): string
    requires start <= stop && forall i :: start <= i < stop ==> i in lines
    decreases stop - start
  {
    if start == stop then [] else Dense(lines, start, stop - 1) + Squeeze(lines[stop-1])
  }

  lemma {:induction false} DenseSplit(lines: map<int, string>, start: int, mid: int, stop: int)
    requires start <= mid <= stop && forall i :: start <= i < stop ==> i in lines
    ensures Dense(lines, start, stop) == Dense(lines, start, mid) + Dense(lines, mid, stop)
    decreases stop - mid
  {
    if mid < stop {
      DenseSplit(lines, start, mid, stop - 1);
    }
  }

  /** The guard of the note store sees exactly this text. */
  lemma {:induction false} DenseIsSqueezed(lines: map<int, string>, start: int, end: int)
    requires start <= end && forall i :: start <= i <= end ==> i in lines
    ensures Dense(lines, start, end + 1) == Squeeze(Joined(lines, start, end))
    decreases end - start
  {
    if start == end {
      assert Dense(lines, start, start) == [];
      assert Dense(lines, start, start + 1) == Squeeze(lines[start]);
    } else {
      DenseIsSqueezed(lines, start, end - 1);
      SqueezeConcat(Joined(lines, start, end - 1), "\n");
      SqueezeConcat(Joined(lines, start, end - 1) + "\n", lines[end]);
      SqueezeNewline();
    }
  }

  lemma SqueezeNewline()
    ensures Squeeze("\n") == []
  {
    assert "\n"[..0] == "";
  }

  // ---- Occurrences --------------------------------------------------------

  /** str.find: the first occurrence. */
  ghost predicate FirstAt(text: string, q: string, k: int) {
    OccursAt(text, q, k) && forall j :: 0 <= j < k ==> !OccursAt(text, q, j)
  }

  method Find(text: string, q: string) returns (k: int)
    ensures k == -1 <==> !Contains(text, q)
    ensures k != -1 ==> FirstAt(text, q, k)
  {
    k := 0;
    while k + |q| <= |text|
      invariant 0 <= k
      invariant forall j :: 0 <= j < k ==> !OccursAt(text, q, j)
    {
      if text[k..k+|q|] == q {
        assert OccursAt(text, q, k);
        return;
      }
      k := k + 1;
    }
    return -1;
  }

  /** Line i overlaps the occurrence of length n at offset k of the dense text that begins at start. */
  predicate Overlaps(lines: map<int, string>, start: int, i: int, k: int, n: int)
    requires start <= i && forall j :: start <= j <= i ==> j in lines
  {
    |Dense(lines, start, i)| < k + n && |Dense(lines, start, i + 1)| > k
  }

  /** What a located range is: inside the attributed range, spelling the quote, and bounded by
      lines that both take part in the first occurrence. */
  ghost predicate Located(lines: map<int, string>, r: Range, q: string, s: int, e: int) {
    && Attributed(lines, r) && r.start <= s <= e <= r.end
    && exists k :: FirstAt(Dense(lines, r.start, r.end + 1), q, k) && OverlapRange(lines, r, q, k, s, e)
  }

  /** Exactly the lines s..e overlap the occurrence at k. */
  ghost predicate OverlapRange(lines: map<int, string>, r: Range, q: string, k: int, s: int, e: int)
    requires Attributed(lines, r) && r.start <= s <= e <= r.end
  {
    && Overlaps(lines, r.start, s, k, |q|) && Overlaps(lines, r.start, e, k, |q|)
    && forall i :: r.start <= i <= r.end && Overlaps(lines, r.start, i, k, |q|) ==> s <= i <= e
  }

  // ---- The located lines spell the quote ----------------------------------

  lemma DenseGrows(lines: map<int, string>, start: int, i: int, j: int)
    requires start <= i <= j && forall l :: start <= l < j ==> l in lines
    ensures |Dense(lines, start, i)| <= |Dense(lines, start, j)|
  {
    DenseSplit(lines, start, i, j);
  }

  /** The line that holds a given character of the dense text. */
  lemma {:induction false} LineOf(lines: map<int, string>, start: int, stop: int, c: int) returns (i: int)
    requires start <= stop && forall l :: start <= l < stop ==> l in lines
    requires 0 <= c < |Dense(lines, start, stop)|
    ensures start <= i < stop && |Dense(lines, start, i)| <= c < |Dense(lines, start, i + 1)|
    decreases stop - start
  {
    if c < |Dense(lines, start, stop - 1)| {
      i := LineOf(lines, start, stop - 1, c);
    } else {
      i := stop - 1;
    }
  }

  /** The dense text of the overlapping lines contains the whole occurrence. */
  lemma LocatedSpells(lines: map<int, string>, r: Range, q: string, s: int, e: int)
    requires q != [] && Located(lines, r, q, s, e)
    ensures Contains(Dense(lines, s, e + 1), q)
  {
    var k :| FirstAt(Dense(lines, r.start, r.end + 1), q, k) && OverlapRange(lines, r, q, k, s, e);
    FirstLine(lines, r, q, k, s, e);
    LastLine(lines, r, q, k, s, e);
    DenseSplit(lines, r.start, s, r.end + 1);
    DenseSplit(lines, s, e + 1, r.end + 1);
    DenseSplit(lines, r.start, s, e + 1);
    hide Located, OverlapRange, FirstAt, Attributed;
    OccursWithin(Dense(lines, r.start, s), Dense(lines, s, e + 1), Dense(lines, e + 1, r.end + 1), q, k);
  }

  lemma OccursWithin(head: string, mid: string, tail: string, q: string, k: int)
    requires OccursAt(head + (mid + tail), q, k) && |head| <= k && k + |q| <= |head + mid|
    ensures Contains(mid, q)
  {
    var at := k - |head|;
    assert mid[at..at+|q|] == (head + (mid + tail))[k..k+|q|];
    assert OccursAt(mid, q, at);
  }

  /** The occurrence does not begin before the first overlapping line. */
  lemma FirstLine(lines: map<int, string>, r: Range, q: string, k: int, s: int, e: int)
    requires Attributed(lines, r) && r.start <= s <= e <= r.end && q != []
    requires OccursAt(Dense(lines, r.start, r.end + 1), q, k) && OverlapRange(lines, r, q, k, s, e)
    ensures |Dense(lines, r.start, s)| <= k
  {
    var i := LineOf(lines, r.start, r.end + 1, k);
    assert Overlaps(lines, r.start, i, k, |q|);
    DenseGrows(lines, r.start, s, i);
  }

  /** Nor does it end after the last one. */
  lemma LastLine(lines: map<int, string>, r: Range, q: string, k: int, s: int, e: int)
    requires Attributed(lines, r) && r.start <= s <= e <= r.end && q != []
    requires OccursAt(Dense(lines, r.start, r.end + 1), q, k) && OverlapRange(lines, r, q, k, s, e)
    ensures k + |q| <= |Dense(lines, r.start, e + 1)|
  {
    var i := LineOf(lines, r.start, r.end + 1, k + |q| - 1);
    assert Overlaps(lines, r.start, i, k, |q|);
    DenseGrows(lines, r.start, i + 1, e + 1);
  }

  /** A located range passes the primary check of the note store on the granted lines. */
  lemma LocatedAccepted(g: Grant, id: GrantId, r: Range, quote: string, s: int, e: int)
    requires !IsBlank(quote) && Located(g.lines, r, Squeeze(quote), s, e)
    ensures PrimaryAccepted(Primary(id, g.fileHash, g.fingerprint, g.originalName, g.sourceLoc, s, e, quote), g)
  {
    SqueezeEmpty(quote);
    LocatedSpells(g.lines, r, Squeeze(quote), s, e);
    DenseIsSqueezed(g.lines, s, e);
  }

  // ---- The locator --------------------------------------------------------

  /** The inner loop: the lines of one range that overlap the occurrence at k. */
  method OverlappingLines(lines: map<int, string>, r: Range, q: string, k: int) returns (found: Option<(int, int)>)
    requires Attributed(lines, r) && FirstAt(Dense(lines, r.start, r.end + 1), q, k)
    ensures found.None? <==> q == []
    ensures found.Some? ==> r.start <= found.value.0 <= found.value.1 <= r.end
    ensures found.Some? ==> OverlapRange(lines, r, q, k, found.value.0, found.value.1)
  {
    if q == [] {
      assert OccursAt(Dense(lines, r.start, r.end + 1), q, 0);
      assert k == 0;
    }
    var cursor := 0;
    var indices: seq<int> := [];
    var i := r.start;
    while i <= r.end
      invariant r.start <= i <= r.end + 1
      invariant cursor == |Dense(lines, r.start, i)|
      invariant indices != [] ==> r.start <= indices[0] <= indices[|indices|-1] < i
      invariant indices != [] ==> Overlaps(lines, r.start, indices[0], k, |q|) && Overlaps(lines, r.start, indices[|indices|-1], k, |q|)
      invariant forall x :: r.start <= x < i && Overlaps(lines, r.start, x, k, |q|) ==>
        indices != [] && indices[0] <= x <= indices[|indices|-1]
    {
      var length := |Squeeze(lines[i])|;
      if cursor < k + |q| && cursor + length > k {
        indices := indices + [i];
      }
      cursor := cursor + length;
      i := i + 1;
    }
    if indices == [] {
      if q != [] {
        ghost var x := LineOf(lines, r.start, r.end + 1, k);
        assert Overlaps(lines, r.start, x, k, |q|);
      }
      return None;
    }
    return Some((indices[0], indices[|indices|-1]));
  }

  /** The dense text of an attributed range contains the quote. */
  ghost predicate Has(lines: map<int, string>, r: Range, q: string) {
    Attributed(lines, r) && Contains(Dense(lines, r.start, r.end + 1), q)
  }

  /** The loop over the candidate's ranges: the first one whose text contains the quote. */
  method Locate(lines: map<int, string>, ranges: seq<Range>, quote: string) returns (found: Option<(int, int)>)
    requires forall i :: 0 <= i < |ranges| ==> Attributed(lines, ranges[i])
    ensures found.Some? ==>
      exists i :: 0 <= i < |ranges|
        && Located(lines, ranges[i], Squeeze(quote), found.value.0, found.value.1)
        && forall j :: 0 <= j < i ==> !Has(lines, ranges[j], Squeeze(quote))
    ensures found.None? <==> IsBlank(quote) || forall j :: 0 <= j < |ranges| ==> !Has(lines, ranges[j], Squeeze(quote))
  {
    SqueezeEmpty(quote);
    var q := Squeeze(quote);
    var n := 0;
    while n < |ranges|
      invariant 0 <= n <= |ranges|
      invariant IsBlank(quote) || forall j :: 0 <= j < n ==> !Has(lines, ranges[j], q)
    {
      var r := ranges[n];
      var normalized := Normalized(lines, r);
      var offset := Find(normalized, q);
      if offset >= 0 {
        found := OverlappingLines(lines, r, q, offset);
        if found.Some? {
          assert Located(lines, ranges[n], q, found.value.0, found.value.1);
          return;
        }
      }
      n := n + 1;
    }
    return None;
  }

  method Normalized(lines: map<int, string>, r: Range) returns (text: string)
    requires Attributed(lines, r)
    ensures text == Dense(lines, r.start, r.end + 1)
  {
    text := [];
    var i := r.start;
    while i <= r.end
      invariant r.start <= i <= r.end + 1
      invariant text == Dense(lines, r.start, i)
    {
      text := text + Squeeze(lines[i]);
      i := i + 1;
    }
  }

  // ---- The note store accepts what extraction accepted --------------------

  /** A candidate as extraction builds it: located quote, verified witnesses, grant coordinates. */
  ghost predicate Extracted(c: Candidate, grants: Grants, shown: Grants, r: Range, ws: seq<Witness>, company: string) {
    && c.grantId in shown && c.sourceLoc == shown[c.grantId].sourceLoc
    && !IsBlank(c.quote) && Located(shown[c.grantId].lines, r, Squeeze(c.quote), c.start, c.end)
    && FieldEvidence(c.fact, c.quote, ws, shown[c.grantId], shown, company) == Some(c.proofs)
    && (forall k :: k in shown ==> k in grants && grants[k] == shown[k])
    && (forall k :: k in shown ==> shown[k].fileHash == shown[c.grantId].fileHash
                                   && shown[k].fingerprint == shown[c.grantId].fingerprint)
  }

  /** Every evidence check of the note store accepts an extracted candidate, also after the window
      has displayed further grants: only the create's own fields can still refuse it. */
  lemma ExtractedAccepted(h: Host, notes: map<NoteId, Note>, c: Create, candidates: seq<Candidate>, grants: Grants,
                          shown: Grants, r: Range, ws: seq<Witness>)
    requires c.index.Some? && 0 <= c.index.value < |candidates|
    requires Extracted(candidates[c.index.value], grants, shown, r, ws, h.company)
    ensures BuildPayload(h, notes, c, candidates, grants).Ok? <==>
      && !c.forbidden && h.isIdentifier(c.noteId) && c.noteId !in notes
      && !c.status.Unlisted? && c.status != Listed(Rejected)
      && (c.topicHint.Some? ==> BoundedReason(c.topicHint.value)) && QuestionsOk(c.questions)
  {
    var candidate := candidates[c.index.value];
    var g := shown[candidate.grantId];
    LocatedAccepted(g, candidate.grantId, r, candidate.quote, candidate.start, candidate.end);
    EvidenceStable(candidate.fact, candidate.quote, ws, g, shown, grants, h.company);
    hide FieldEvidence, PrimaryAccepted, Located, QuestionsOk, BoundedReason;
  }
}
