/** The store object over the note ledger (app/document_read/notes.py, NoteStore): each call
    writes its tables row by row inside one transaction and rolls back on every exception. */
module NoteStores {
  import opened Wrappers
  import opened Evidence
  import opened NoteLedger

  class NoteStore {
    const host: Host
    var ledger: Ledger

    constructor (host: Host)
      ensures this.host == host && ledger == EMPTY
    {
      this.host := host;
      ledger := EMPTY;
    }

    // ---- Rows -------------------------------------------------------------

    /** UPDATE md_read_notes, then INSERT INTO md_read_note_revisions. */
    method AmendRow(id: NoteId, e: Entry, p: Payload) returns (r: Result<(), Refusal>)
      requires id in ledger.notes
      modifies this
      ensures match Amend(old(ledger), id, e, p)
              case Ok(l) => r == Ok(()) && ledger == l
              case Err(f) => r == Err(f)
    {
      var next := ledger.notes[id].rev + 1;
      ledger := ledger.(notes := ledger.notes[id := ledger.notes[id].(status := p.status, rev := next, payload := p)]);
      if exists i :: 0 <= i < |Audit(ledger, id)| && Audit(ledger, id)[i].rev == next {
        return Err(IntegrityError);
      }
      ledger := ledger.(audit := ledger.audit[id := Audit(ledger, id) + [AuditRow(next, e)]]);
      return Ok(());
    }

    /** INSERT INTO md_read_notes, then INSERT INTO md_read_note_revisions. */
    method AdmitRow(window: WindowId, p: Payload) returns (r: Result<(), Refusal>)
      modifies this
      ensures match Admit(old(ledger), window, p)
              case Ok(l) => r == Ok(()) && ledger == l
              case Err(f) => r == Err(f)
    {
      if p.noteId in ledger.notes {
        return Err(IntegrityError);
      }
      ledger := ledger.(order := ledger.order + [p.noteId], notes := ledger.notes[p.noteId := Note(window, p.status, 1, p)]);
      if exists i :: 0 <= i < |Audit(ledger, p.noteId)| && Audit(ledger, p.noteId)[i].rev == 1 {
        return Err(IntegrityError);
      }
      ledger := ledger.(audit := ledger.audit[p.noteId := Audit(ledger, p.noteId) + [AuditRow(1, Created(p))]]);
      return Ok(());
    }

    /** _validate_relations: one pass with the set of edges already seen. */
    method CheckRelations(rs: seq<RawRelation>, available: set<NoteId>) returns (r: Result<seq<Relation>, Refusal>)
      ensures r == ValidateRelations(host, rs, available)
    {
      if |rs| > 32 {
        return Err(NoteRejected);
      }
      var seen: set<(Kind, NoteId)> := {};
      var result: seq<Relation> := [];
      var i := 0;
      while i < |rs|
        invariant 0 <= i <= |rs|
        invariant forall j :: 0 <= j < i ==> RelationOk(host, rs[j], available)
        invariant forall j, k :: 0 <= j < k < i ==> !SameEdge(rs[j], rs[k])
        invariant Named(rs[..i]) && result == KeptAll(rs[..i])
        invariant forall x :: x in seen <==> exists j :: 0 <= j < i && rs[j].rel == Some(x.0) && rs[j].to == x.1
      {
        if !RelationOk(host, rs[i], available) {
          return Err(NoteRejected);
        }
        var edge := (rs[i].rel.value, rs[i].to);
        if edge in seen {
          assert exists j :: 0 <= j < i && SameEdge(rs[j], rs[i]);
          return Err(NoteRejected);
        }
        assert forall j :: 0 <= j < i ==> !SameEdge(rs[j], rs[i]) by {
          forall j | 0 <= j < i ensures !SameEdge(rs[j], rs[i]) {
            assert rs[j].rel.Some? && (rs[j].rel == rs[i].rel && rs[j].to == rs[i].to ==> edge in seen);
          }
        }
        seen := seen + {edge};
        result := result + [Kept(rs[i])];
        i := i + 1;
      }
      assert rs[..i] == rs;
      return Ok(result);
    }

    // ---- Window receipts --------------------------------------------------

    method ReviseRow(q: Revision, available: set<NoteId>, created: seq<NoteId>) returns (r: Result<(), Refusal>)
      modifies this
      ensures match ReviseOne(host, old(ledger), q, available, created)
              case Ok(l) => r == Ok(()) && ledger == l
              case Err(f) => r == Err(f)
    {
      if !host.isIdentifier(q.noteId) || q.action.None? || q.noteId in created || q.noteId !in ledger.notes {
        return Err(NoteRejected);
      }
      if ledger.notes[q.noteId].status == Rejected || !BoundedReason(q.reason) {
        return Err(NoteRejected);
      }
      var p := ledger.notes[q.noteId].payload;
      match q.action.value
      case UpdateStatus =>
        if q.status.None? {
          return Err(NoteRejected);
        }
        r := AmendRow(q.noteId, StatusSet(q.status.value, q.reason), p.(status := q.status.value));
      case Relate =>
        var added := CheckRelations(q.relations, available);
        if added.Err? {
          return Err(added.error);
        }
        r := AmendRow(q.noteId, EdgesAdded(q.relations, q.reason), p.(relations := p.relations + added.value));
      case Question =>
        if !QuestionsOk(q.questions) {
          return Err(NoteRejected);
        }
        r := AmendRow(q.noteId, Asked(q.questions, q.reason), p.(questions := p.questions + q.questions));
    }

    method InsertRow(window: WindowId, outcome: Outcome, p: Payload, rs: seq<RawRelation>, available: set<NoteId>)
      returns (r: Result<(), Refusal>)
      modifies this
      ensures match InsertOne(host, old(ledger), window, outcome, p, rs, available)
              case Ok(l) => r == Ok(()) && ledger == l
              case Err(f) => r == Err(f)
    {
      var status := p.status;
      if outcome == Unresolved {
        status := NeedsCheck;
      }
      var relations := CheckRelations(rs, available - {p.noteId});
      if relations.Err? {
        return Err(relations.error);
      }
      r := AdmitRow(window, p.(status := status, relations := relations.value));
    }

    method StageCreates(q: WindowRequest) returns (r: Result<seq<Payload>, Refusal>)
      requires q.creates.Some?
      ensures r == Stage(host, ledger.notes, q.creates.value, q.candidates, q.grants)
    {
      var cs := q.creates.value;
      var staged: seq<Payload> := [];
      var i := 0;
      while i < |cs|
        invariant 0 <= i <= |cs|
        invariant Stage(host, ledger.notes, cs[..i], q.candidates, q.grants) == Ok(staged)
      {
        assert cs[..i+1][..i] == cs[..i];
        var p := BuildPayload(host, ledger.notes, cs[i], q.candidates, q.grants);
        if p.Err? {
          StageFails(host, ledger.notes, cs, q.candidates, q.grants, i + 1);
          return Err(p.error);
        }
        staged := staged + [p.value];
        i := i + 1;
      }
      assert cs[..i] == cs;
      return Ok(staged);
    }

    method ReviseRows(rs: seq<Revision>, available: set<NoteId>, created: seq<NoteId>) returns (r: Result<(), Refusal>)
      modifies this
      ensures match ReviseAll(host, old(ledger), rs, available, created)
              case Ok(l) => r == Ok(()) && ledger == l
              case Err(f) => r == Err(f)
    {
      var i := 0;
      while i < |rs|
        invariant 0 <= i <= |rs|
        invariant ReviseAll(host, old(ledger), rs[..i], available, created) == Ok(ledger)
      {
        assert rs[..i+1][..i] == rs[..i];
        r := ReviseRow(rs[i], available, created);
        if r.Err? {
          ReviseFails(host, old(ledger), rs, available, created, i + 1);
          return;
        }
        i := i + 1;
      }
      assert rs[..i] == rs;
      return Ok(());
    }

    method InsertRows(q: WindowRequest, staged: seq<Payload>, available: set<NoteId>) returns (r: Result<(), Refusal>)
      requires q.outcome.Some? && q.creates.Some? && |staged| == |q.creates.value|
      modifies this
      ensures match InsertAll(host, old(ledger), q.window, q.outcome.value, staged, q.creates.value, available)
              case Ok(l) => r == Ok(()) && ledger == l
              case Err(f) => r == Err(f)
    {
      var cs := q.creates.value;
      var i := 0;
      while i < |staged|
        invariant 0 <= i <= |staged|
        invariant InsertAll(host, old(ledger), q.window, q.outcome.value, staged[..i], cs[..i], available) == Ok(ledger)
      {
        assert staged[..i+1][..i] == staged[..i] && cs[..i+1][..i] == cs[..i];
        r := InsertRow(q.window, q.outcome.value, staged[i], cs[i].relations, available);
        if r.Err? {
          InsertFails(host, old(ledger), q.window, q.outcome.value, staged, cs, available, i + 1);
          return;
        }
        i := i + 1;
      }
      assert staged[..i] == staged && cs[..i] == cs;
      return Ok(());
    }

    /** The body of the transaction. */
    method WriteWindow(q: WindowRequest) returns (r: Result<WindowReceipt, Refusal>)
      requires q.outcome.Some? && q.creates.Some? && q.revisions.Some?
      modifies this
      ensures match WindowRows(host, old(ledger), q)
              case Ok((l, receipt)) => r == Ok(receipt) && ledger == l
              case Err(f) => r == Err(f)
    {
      var staged := StageCreates(q);
      if staged.Err? {
        return Err(staged.error);
      }
      var created := Ids(staged.value);
      var available := Available(ledger, created);
      var revised := ReviseRows(q.revisions.value, available, created);
      if revised.Err? {
        return Err(revised.error);
      }
      var inserted := InsertRows(q, staged.value, available);
      if inserted.Err? {
        return Err(inserted.error);
      }
      var receipt := WindowReceipt(q.window, q.outcome.value, created, RevisedIds(q.revisions.value));
      ledger := ledger.(windows := ledger.windows[q.window := StoredWindow(q.sha, receipt)]);
      return Ok(receipt);
    }

    method ApplyWindow(q: WindowRequest, fence: Fence) returns (r: Result<WindowReceipt, Refusal>)
      modifies this
      ensures match WindowSpec(host, old(ledger), q, fence)
              case Ok((l, receipt)) => r == Ok(receipt) && ledger == l
              case Err(f) => r == Err(f) && ledger == old(ledger)
    {
      if q.outcome.None? || q.sha == "" {
        return Err(NoteRejected);
      }
      if q.window in ledger.windows {
        if ledger.windows[q.window].sha != q.sha {
          return Err(NoteRejected);
        }
        return Ok(ledger.windows[q.window].receipt);
      }
      if !WindowShapeOk(host, q) {
        return Err(NoteRejected);
      }
      var begun := ledger;
      if fence.atStart {
        r := WriteWindow(q);
        if r.Ok? && !fence.atEnd {
          r := Err(LeaseLost);
        }
      } else {
        r := Err(LeaseLost);
      }
      if r.Err? {
        ledger := begun;
      }
    }

    // ---- Review decisions -------------------------------------------------

    method WriteReview(q: ReviewRequest) returns (r: Result<ReviewReceipt, Refusal>)
      requires q.action.Some? && q.noteId in ledger.notes
      modifies this
      ensures match ReviewRows(host, old(ledger), q)
              case Ok((l, receipt)) => r == Ok(receipt) && ledger == l
              case Err(f) => r == Err(f)
    {
      var decision := Decide(host, ledger, q);
      if decision.Err? {
        return Err(decision.error);
      }
      if decision.value.Some? {
        var (e, p) := decision.value.value;
        var amended := AmendRow(q.noteId, e, p);
        if amended.Err? {
          return Err(amended.error);
        }
      }
      var n := ledger.notes[q.noteId];
      var receipt := ReviewReceipt(q.noteId, q.round, q.action.value, n.rev, n.status);
      if RoundTaken(ledger, q.noteId, q.round) {
        return Err(IntegrityError);
      }
      ledger := ledger.(reviews := ledger.reviews[q.noteId := Reviews(ledger, q.noteId) + [StoredReview(q.round, q.sha, receipt)]]);
      return Ok(receipt);
    }

    method ApplyReview(q: ReviewRequest, fence: Fence) returns (r: Result<ReviewReceipt, Refusal>)
      modifies this
      ensures match ReviewSpec(host, old(ledger), q, fence)
              case Ok((l, receipt)) => r == Ok(receipt) && ledger == l
              case Err(f) => r == Err(f) && ledger == old(ledger)
    {
      if !ReviewShapeOk(host, q) {
        return Err(NoteRejected);
      }
      if !fence.atStart {
        return Err(LeaseLost);
      }
      if q.noteId !in ledger.notes || ledger.notes[q.noteId].status == Rejected {
        return Err(NoteRejected);
      }
      var rounds := Reviews(ledger, q.noteId);
      var last := LastRound(ledger, q.noteId);
      if q.round != last + 1 {
        if rounds != [] && q.round == last && rounds[|rounds|-1].sha == q.sha {
          return Ok(rounds[|rounds|-1].receipt);
        }
        return Err(NoteRejected);
      }
      var begun := ledger;
      r := WriteReview(q);
      if r.Ok? && !fence.atEnd {
        r := Err(LeaseLost);
      }
      if r.Err? {
        ledger := begun;
      }
    }
  }

  // ---- A fault at a prefix is the fault of the whole loop -----------------

  lemma {:induction false} StageFails(h: Host, notes: map<NoteId, Note>, cs: seq<Create>, candidates: seq<Candidate>,
                                      grants: Grants, n: nat)
    requires n <= |cs| && Stage(h, notes, cs[..n], candidates, grants).Err?
    ensures Stage(h, notes, cs, candidates, grants) == Stage(h, notes, cs[..n], candidates, grants)
    decreases |cs|
  {
    if n < |cs| {
      assert cs[..|cs|-1][..n] == cs[..n];
      StageFails(h, notes, cs[..|cs|-1], candidates, grants, n);
    } else {
      assert cs[..n] == cs;
    }
  }

  lemma {:induction false} ReviseFails(h: Host, l: Ledger, rs: seq<Revision>, available: set<NoteId>,
                                       created: seq<NoteId>, n: nat)
    requires n <= |rs| && ReviseAll(h, l, rs[..n], available, created).Err?
    ensures ReviseAll(h, l, rs, available, created) == ReviseAll(h, l, rs[..n], available, created)
    decreases |rs|
  {
    if n < |rs| {
      assert rs[..|rs|-1][..n] == rs[..n];
      ReviseFails(h, l, rs[..|rs|-1], available, created, n);
    } else {
      assert rs[..n] == rs;
    }
  }

  lemma {:induction false} InsertFails(h: Host, l: Ledger, window: WindowId, outcome: Outcome, ps: seq<Payload>,
                                       cs: seq<Create>,
                                       available: set<NoteId>, n: nat)
    requires n <= |ps| == |cs| && InsertAll(h, l, window, outcome, ps[..n], cs[..n], available).Err?
    ensures InsertAll(h, l, window, outcome, ps, cs, available) == InsertAll(h, l, window, outcome, ps[..n], cs[..n], available)
    decreases |ps|
  {
    if n < |ps| {
      assert ps[..|ps|-1][..n] == ps[..n] && cs[..|cs|-1][..n] == cs[..n];
      InsertFails(h, l, window, outcome, ps[..|ps|-1], cs[..|cs|-1], available, n);
    } else {
      assert ps[..n] == ps && cs[..n] == cs;
    }
  }
}
