/** What window receipts and review decisions keep and promise, over single calls and whole
    runs (app/document_read/notes.py). */
module NoteRules {
  import opened Wrappers
  import opened Evidence
  import opened NoteLedger

  // ---- One note -----------------------------------------------------------

  function Amended(l: Ledger, id: NoteId, e: Entry, p: Payload): Ledger
    requires id in l.notes
  {
    var next := l.notes[id].rev + 1;
    l.(notes := l.notes[id := l.notes[id].(status := p.status, rev := next, payload := p)],
       audit := l.audit[id := Audit(l, id) + [AuditRow(next, e)]])
  }

  function Admitted(l: Ledger, window: WindowId, p: Payload): Ledger {
    l.(order := l.order + [p.noteId],
       notes := l.notes[p.noteId := Note(window, p.status, 1, p)],
       audit := l.audit[p.noteId := [AuditRow(1, Created(p))]])
  }

  ghost predicate Targets(p: Payload, known: set<NoteId>) {
    forall r :: r in p.relations ==> r.to in known
  }

  /** An entry that leads from the current payload of a note to p. */
  ghost predicate Leads(n: Note, e: Entry, p: Payload) {
    && !e.Created? && Apply(Some(n.payload), e) == Some(p)
    && (e.FactRevised? ==> e.before == n.payload)
  }

  /** A recorded effect extends the audit, and the audit still rebuilds the payload. */
  lemma AuditExtends(rows: seq<AuditRow>, n: Note, e: Entry, p: Payload)
    requires AuditInv(rows, n) && Leads(n, e, p)
    ensures AuditInv(rows + [AuditRow(n.rev + 1, e)], n.(status := p.status, rev := n.rev + 1, payload := p))
  {
    hide Apply;
    var longer := rows + [AuditRow(n.rev + 1, e)];
    assert longer[..|longer|-1] == rows;
    forall i | 0 <= i < |longer| && longer[i].entry.FactRevised?
      ensures Fold(longer[..i]) == Some(longer[i].entry.before)
    {
      assert longer[..i] == rows[..i];
      if i == |rows| { assert rows[..i] == rows; }
    }
  }

  lemma AmendKeeps(l: Ledger, id: NoteId, e: Entry, p: Payload, known: set<NoteId>)
    requires Consistent(l, known) && id in l.notes && l.notes[id].status != Rejected
    requires Leads(l.notes[id], e, p) && p.noteId == id && Targets(p, known)
    ensures Amend(l, id, e, p) == Ok(Amended(l, id, e, p))
    ensures Consistent(Amended(l, id, e, p), known) && Grows(l, Amended(l, id, e, p))
  {
    hide Fold, Leads, Consistent, NoDuplicates, RoundsInv, AuditInv, Targets, Grows, Amend, Amended;
    NoteOf(l, id, known);
    AmendSucceeds(l, id, e, p);
    AuditExtends(Audit(l, id), l.notes[id], e, p);
    AmendedConsistent(l, id, e, p, known);
    AmendedGrows(l, id, e, p);
  }

  lemma AmendedGrows(l: Ledger, id: NoteId, e: Entry, p: Payload)
    requires id in l.notes && l.notes[id].status != Rejected
    ensures Grows(l, Amended(l, id, e, p))
  {
  }

  lemma NoteOf(l: Ledger, id: NoteId, known: set<NoteId>)
    requires Consistent(l, known) && id in l.notes
    ensures id in l.audit && NoteInv(l, id, known)
  {
  }

  lemma AmendSucceeds(l: Ledger, id: NoteId, e: Entry, p: Payload)
    requires id in l.notes && AuditInv(Audit(l, id), l.notes[id])
    ensures Amend(l, id, e, p) == Ok(Amended(l, id, e, p))
  {
    hide Fold;
  }

  lemma AmendedConsistent(l: Ledger, id: NoteId, e: Entry, p: Payload, known: set<NoteId>)
    requires Consistent(l, known) && id in l.notes && p.noteId == id && Targets(p, known)
    requires AuditInv(Audit(l, id) + [AuditRow(l.notes[id].rev + 1, e)],
                      l.notes[id].(status := p.status, rev := l.notes[id].rev + 1, payload := p))
    ensures Consistent(Amended(l, id, e, p), known)
  {
    hide AuditInv, RoundsInv, NoDuplicates;
    var m := Amended(l, id, e, p);
    forall x | x in m.notes ensures NoteInv(m, x, known) {
      assert NoteInv(l, x, known);
      if x != id { assert Audit(m, x) == Audit(l, x); }
    }
  }

  lemma AdmitKeeps(l: Ledger, window: WindowId, p: Payload, known: set<NoteId>)
    requires Consistent(l, known) && Targets(p, known)
    requires Admit(l, window, p).Ok?
    ensures p.noteId !in l.notes && Admit(l, window, p) == Ok(Admitted(l, window, p))
    ensures Consistent(Admitted(l, window, p), known) && Grows(l, Admitted(l, window, p))
  {
    hide Consistent, AuditInv, Targets, Grows;
    NoReviewYet(l, p.noteId, known);
    assert Audit(l, p.noteId) + [AuditRow(1, Created(p))] == [AuditRow(1, Created(p))];
    AdmittedAudit(p, window);
    AdmittedConsistent(l, window, p, known);
    AdmittedGrows(l, window, p);
  }

  lemma AdmittedGrows(l: Ledger, window: WindowId, p: Payload)
    requires p.noteId !in l.notes && p.noteId !in l.audit
    ensures Grows(l, Admitted(l, window, p))
  {
  }

  lemma NoReviewYet(l: Ledger, id: NoteId, known: set<NoteId>)
    requires Consistent(l, known) && id !in l.notes
    ensures id !in l.reviews && id !in l.audit
  {
  }

  lemma AdmittedAudit(p: Payload, window: WindowId)
    ensures AuditInv([AuditRow(1, Created(p))], Note(window, p.status, 1, p))
  {
    assert [AuditRow(1, Created(p))][..0] == [];
  }

  lemma AdmittedConsistent(l: Ledger, window: WindowId, p: Payload, known: set<NoteId>)
    requires Consistent(l, known) && Targets(p, known) && p.noteId !in l.notes
    requires AuditInv([AuditRow(1, Created(p))], Note(window, p.status, 1, p))
    ensures Consistent(Admitted(l, window, p), known)
  {
    hide AuditInv, RoundsInv;
    var m := Admitted(l, window, p);
    forall x | x in m.notes ensures NoteInv(m, x, known) {
      if x != p.noteId {
        assert NoteInv(l, x, known);
        assert Audit(m, x) == Audit(l, x);
      }
    }
  }

  lemma GrowsTransitive(l: Ledger, m: Ledger, n: Ledger)
    requires Grows(l, m) && Grows(m, n)
    ensures Grows(l, n)
  {
  }

  lemma GrowsRefl(l: Ledger)
    ensures Grows(l, l)
  {
  }

  // ---- Revisions of a window receipt --------------------------------------

  /** Only existing notes were amended; no note, receipt or order changed otherwise. */
  ghost predicate OnlyAmends(l: Ledger, m: Ledger) {
    && m.order == l.order && m.notes.Keys == l.notes.Keys && m.windows == l.windows && m.reviews == l.reviews
    && forall id :: id in l.notes ==> m.notes[id].window == l.notes[id].window
  }

  lemma {:induction false} RelationsLead(h: Host, rs: seq<RawRelation>, available: set<NoteId>)
    requires RelationsOk(h, rs, available)
    ensures Named(rs) && ValidateRelations(h, rs, available) == Ok(KeptAll(rs))
    ensures forall r :: r in KeptAll(rs) ==> r.to in available
  {
    assert forall i :: 0 <= i < |rs| ==> RelationOk(h, rs[i], available);
  }

  lemma ReviseOneKeeps(h: Host, l: Ledger, r: Revision, available: set<NoteId>, created: seq<NoteId>)
    requires Consistent(l, available) && ReviseOne(h, l, r, available, created).Ok?
    ensures
      var m := ReviseOne(h, l, r, available, created).value;
      Consistent(m, available) && Grows(l, m) && OnlyAmends(l, m)
  {
    hide Consistent, Grows, AuditInv, BoundedReason, QuestionsOk, Amend, RelationsOk;
    var id := r.noteId;
    NoteOf(l, id, available);
    var p := l.notes[id].payload;
    match r.action.value
    case UpdateStatus =>
      AmendKeeps(l, id, StatusSet(r.status.value, r.reason), p.(status := r.status.value), available);
    case Relate =>
      RelationsLead(h, r.relations, available);
      AmendKeeps(l, id, EdgesAdded(r.relations, r.reason), p.(relations := p.relations + KeptAll(r.relations)), available);
    case Question =>
      AmendKeeps(l, id, Asked(r.questions, r.reason), p.(questions := p.questions + r.questions), available);
  }

  lemma {:induction false} ReviseAllKeeps(h: Host, l: Ledger, rs: seq<Revision>, available: set<NoteId>,
                                          created: seq<NoteId>)
    requires Consistent(l, available) && ReviseAll(h, l, rs, available, created).Ok?
    ensures
      var m := ReviseAll(h, l, rs, available, created).value;
      Consistent(m, available) && Grows(l, m) && OnlyAmends(l, m)
  {
    hide Consistent, Grows, ReviseOne;
    GrowsRefl(l);
    if rs != [] {
      var before := rs[..|rs|-1];
      ReviseAllKeeps(h, l, before, available, created);
      var mid := ReviseAll(h, l, before, available, created).value;
      ReviseOneKeeps(h, mid, rs[|rs|-1], available, created);
      GrowsTransitive(l, mid, ReviseAll(h, l, rs, available, created).value);
    }
  }

  predicate WellFormed(r: Revision) {
    r.action.Some? && (r.action.value == UpdateStatus ==> r.status.Some?)
  }

  /** What the audit records of an accepted revision: exactly what was submitted. */
  function EntryOf(r: Revision): Entry
    requires WellFormed(r)
  {
    match r.action.value
    case UpdateStatus => StatusSet(r.status.value, r.reason)
    case Relate => EdgesAdded(r.relations, r.reason)
    case Question => Asked(r.questions, r.reason)
  }

  /** The entries that a list of revisions leaves in the audit of one note, in order. */
  function EntriesFor(rs: seq<Revision>, id: NoteId): seq<Entry>
    requires forall i :: 0 <= i < |rs| ==> WellFormed(rs[i])
  {
    if rs == [] then []
    else EntriesFor(rs[..|rs|-1], id) + if rs[|rs|-1].noteId == id then [EntryOf(rs[|rs|-1])] else []
  }

  function Entries(rows: seq<AuditRow>): seq<Entry> {
    seq(|rows|, i requires 0 <= i < |rows| => rows[i].entry)
  }

  lemma ReviseOneAudits(h: Host, l: Ledger, r: Revision, available: set<NoteId>, created: seq<NoteId>, id: NoteId)
    requires ReviseOne(h, l, r, available, created).Ok?
    ensures WellFormed(r)
    ensures Entries(Audit(ReviseOne(h, l, r, available, created).value, id)) ==
      Entries(Audit(l, id)) + if r.noteId == id then [EntryOf(r)] else []
  {
    hide RelationsOk, BoundedReason, QuestionsOk;
  }

  /** Each note's audit grows by exactly the revisions submitted for it, in their order and with
      their own reasons, and by nothing else. */
  lemma {:induction false} ReviseAllAudits(h: Host, l: Ledger, rs: seq<Revision>, available: set<NoteId>,
                                           created: seq<NoteId>, id: NoteId)
    requires ReviseAll(h, l, rs, available, created).Ok?
    ensures forall i :: 0 <= i < |rs| ==> WellFormed(rs[i])
    ensures Entries(Audit(ReviseAll(h, l, rs, available, created).value, id)) == Entries(Audit(l, id)) + EntriesFor(rs, id)
  {
    hide ReviseOne, EntryOf, WellFormed, Entries;
    if rs != [] {
      ReviseAllAudits(h, l, rs[..|rs|-1], available, created, id);
      ReviseOneAudits(h, ReviseAll(h, l, rs[..|rs|-1], available, created).value, rs[|rs|-1], available, created, id);
    }
  }

  // ---- Creates of a window receipt ----------------------------------------

  /** The note that a staged create becomes. */
  function Final(outcome: Outcome, p: Payload, relations: seq<Relation>): Payload {
    p.(status := if outcome == Unresolved then NeedsCheck else p.status, relations := relations)
  }

  /** Exactly the staged notes were added, in order, all for this window; nothing else changed. */
  ghost predicate Inserted(l: Ledger, m: Ledger, window: WindowId, ids: seq<NoteId>) {
    && m.order == l.order + ids && m.windows == l.windows && m.reviews == l.reviews
    && (forall id :: id in m.notes <==> id in l.notes || id in ids)
    && (forall id :: id in ids ==> id !in l.notes && m.notes[id].window == window && m.notes[id].rev == 1)
    && (forall id :: id in l.notes ==> m.notes[id] == l.notes[id])
  }

  lemma InsertOneKeeps(h: Host, l: Ledger, window: WindowId, outcome: Outcome, p: Payload, rs: seq<RawRelation>,
                       available: set<NoteId>)
    requires Consistent(l, available)
    requires InsertOne(h, l, window, outcome, p, rs, available).Ok?
    ensures RelationsOk(h, rs, available - {p.noteId})
    ensures
      var m := InsertOne(h, l, window, outcome, p, rs, available).value;
      && Named(rs) && m == Admitted(l, window, Final(outcome, p, KeptAll(rs)))
      && Consistent(m, available) && Grows(l, m) && Inserted(l, m, window, [p.noteId])
  {
    hide Consistent, Grows, Admit, RelationsOk;
    RelationsLead(h, rs, available - {p.noteId});
    AdmitKeeps(l, window, Final(outcome, p, KeptAll(rs)), available);
  }

  lemma InsertedTransitive(l: Ledger, m: Ledger, n: Ledger, window: WindowId, ids: seq<NoteId>, id: NoteId)
    requires Inserted(l, m, window, ids) && Inserted(m, n, window, [id])
    ensures Inserted(l, n, window, ids + [id])
  {
  }

  lemma {:induction false} InsertAllKeeps(h: Host, l: Ledger, window: WindowId, outcome: Outcome, ps: seq<Payload>,
                                          cs: seq<Create>, available: set<NoteId>)
    requires |ps| == |cs| && Consistent(l, available)
    requires InsertAll(h, l, window, outcome, ps, cs, available).Ok?
    ensures
      var m := InsertAll(h, l, window, outcome, ps, cs, available).value;
      Consistent(m, available) && Grows(l, m) && Inserted(l, m, window, Ids(ps))
  {
    hide Consistent, Grows, InsertOne, Inserted;
    GrowsRefl(l);
    if ps == [] {
      InsertedNone(l, window);
      assert Ids(ps) == [];
    } else {
      var n := |ps| - 1;
      InsertAllKeeps(h, l, window, outcome, ps[..n], cs[..n], available);
      var mid := InsertAll(h, l, window, outcome, ps[..n], cs[..n], available).value;
      InsertOneKeeps(h, mid, window, outcome, ps[n], cs[n].relations, available);
      var m := InsertAll(h, l, window, outcome, ps, cs, available).value;
      GrowsTransitive(l, mid, m);
      InsertedTransitive(l, mid, m, window, Ids(ps[..n]), ps[n].noteId);
      assert Ids(ps) == Ids(ps[..n]) + [ps[n].noteId];
    }
  }

  lemma InsertedNone(l: Ledger, window: WindowId)
    ensures Inserted(l, l, window, [])
  {
    assert l.order + [] == l.order;
  }

  // ---- A whole window receipt ---------------------------------------------

  lemma ConsistentLarger(l: Ledger, known: set<NoteId>, more: set<NoteId>)
    requires Consistent(l, known) && known <= more
    ensures Consistent(l, more)
  {
    forall id | id in l.notes ensures NoteInv(l, id, more) {
      assert NoteInv(l, id, known);
    }
  }

  lemma ConsistentWindows(l: Ledger, known: set<NoteId>, windows: map<WindowId, StoredWindow>)
    requires Consistent(l, known)
    ensures Consistent(l.(windows := windows), known)
  {
    var m := l.(windows := windows);
    forall id | id in m.notes ensures NoteInv(m, id, known) {
      assert NoteInv(l, id, known) && Audit(m, id) == Audit(l, id);
    }
  }

  /** The middle states of a successful window transaction. */
  lemma WindowSteps(h: Host, l: Ledger, q: WindowRequest) returns (revised: Ledger, inserted: Ledger,
                    receipt: WindowReceipt)
    requires Inv(l) && q.outcome.Some? && q.creates.Some? && q.revisions.Some? && WindowRows(h, l, q).Ok?
    ensures OnlyAmends(l, revised) && Inserted(revised, inserted, q.window, receipt.created)
    ensures Grows(l, inserted) && Consistent(inserted, inserted.notes.Keys)
    ensures receipt == WindowReceipt(q.window, q.outcome.value, receipt.created, RevisedIds(q.revisions.value))
    ensures Stage(h, l.notes, q.creates.value, q.candidates, q.grants).Ok?
    ensures receipt.created == Ids(Stage(h, l.notes, q.creates.value, q.candidates, q.grants).value)
    ensures WindowRows(h, l, q) == Ok((inserted.(windows := l.windows[q.window := StoredWindow(q.sha, receipt)]), receipt))
  {
    hide Consistent, Grows, Accounted, ReviseAll, InsertAll, Stage;
    var staged := Stage(h, l.notes, q.creates.value, q.candidates, q.grants).value;
    var created := Ids(staged);
    var available := Available(l, created);
    ConsistentLarger(l, l.notes.Keys, available);
    revised := ReviseAll(h, l, q.revisions.value, available, created).value;
    ReviseAllKeeps(h, l, q.revisions.value, available, created);
    inserted := InsertAll(h, revised, q.window, q.outcome.value, staged, q.creates.value, available).value;
    InsertAllKeeps(h, revised, q.window, q.outcome.value, staged, q.creates.value, available);
    GrowsTransitive(l, revised, inserted);
    assert inserted.notes.Keys == available;
    receipt := WindowReceipt(q.window, q.outcome.value, created, RevisedIds(q.revisions.value));
  }

  /** A window receipt keeps the ledger invariant and only appends. */
  lemma WindowKeeps(h: Host, l: Ledger, q: WindowRequest, fence: Fence)
    requires Inv(l)
    ensures WindowSpec(h, l, q, fence).Ok? ==>
      Inv(WindowSpec(h, l, q, fence).value.0) && Grows(l, WindowSpec(h, l, q, fence).value.0)
  {
    hide Consistent, Grows, WindowRows, Accounted, OnlyAmends, Inserted, InScope;
    GrowsRefl(l);
    if q.window !in l.windows && WindowSpec(h, l, q, fence).Ok? {
      var revised, inserted, receipt := WindowSteps(h, l, q);
      SameReceipts(l, revised, inserted, q.window, receipt);
      ConsistentWindows(inserted, inserted.notes.Keys, l.windows[q.window := StoredWindow(q.sha, receipt)]);
      GrowsByReceipt(l, inserted, q.window, StoredWindow(q.sha, receipt));
      AccountedAfter(l, revised, inserted, StoredWindow(q.sha, receipt));
    }
  }

  lemma SameReceipts(l: Ledger, revised: Ledger, inserted: Ledger, window: WindowId, receipt: WindowReceipt)
    requires OnlyAmends(l, revised) && Inserted(revised, inserted, window, receipt.created)
    ensures inserted.windows == l.windows
  {
  }

  lemma AccountedAfter(l: Ledger, revised: Ledger, inserted: Ledger, stored: StoredWindow)
    requires Accounted(l) && OnlyAmends(l, revised)
    requires Inserted(revised, inserted, stored.receipt.window, stored.receipt.created)
    requires stored.receipt.window !in l.windows
    ensures Accounted(inserted.(windows := l.windows[stored.receipt.window := stored]))
  {
    var m := inserted.(windows := l.windows[stored.receipt.window := stored]);
    forall id | id in m.notes
      ensures m.notes[id].window in m.windows && id in m.windows[m.notes[id].window].receipt.created
    {
      assert id !in stored.receipt.created ==> id in l.notes;
    }
  }

  lemma GrowsByReceipt(l: Ledger, m: Ledger, window: WindowId, stored: StoredWindow)
    requires Grows(l, m) && m.windows == l.windows && window !in l.windows
    ensures Grows(l, m.(windows := m.windows[window := stored]))
  {
  }

  lemma {:induction false} StageMeaning(h: Host, notes: map<NoteId, Note>, cs: seq<Create>,
                                        candidates: seq<Candidate>, grants: Grants)
    requires Stage(h, notes, cs, candidates, grants).Ok?
    ensures
      var ps := Stage(h, notes, cs, candidates, grants).value;
      forall i :: 0 <= i < |cs| ==> Ok(ps[i]) == BuildPayload(h, notes, cs[i], candidates, grants)
  {
    hide BuildPayload;
    if cs != [] {
      StageMeaning(h, notes, cs[..|cs|-1], candidates, grants);
    }
  }

  /** A staged note carries the facts of its own candidate, and evidence that the guards
      accepted once more on the displayed grants. */
  predicate FromCandidate(h: Host, p: Payload, c: Create, candidates: seq<Candidate>, grants: Grants) {
    && p.noteId == c.noteId && CandidateIn(c, candidates, grants)
    && var candidate := candidates[c.index.value];
       && p.fact == candidate.fact && p.primary == PrimaryOf(candidate, grants[candidate.grantId])
       && PrimaryAccepted(p.primary, grants[candidate.grantId])
       && FieldEvidence(candidate.fact, candidate.quote, AsWitnesses(candidate.proofs), grants[candidate.grantId],
                        grants, h.company) == Some(p.proofs)
       && p.questions == c.questions && p.topicHint == c.topicHint && p.status != Rejected
  }

  lemma BuiltFromCandidate(h: Host, notes: map<NoteId, Note>, c: Create, candidates: seq<Candidate>, grants: Grants)
    requires BuildPayload(h, notes, c, candidates, grants).Ok?
    ensures FromCandidate(h, BuildPayload(h, notes, c, candidates, grants).value, c, candidates, grants)
  {
    hide FieldEvidence, PrimaryAccepted;
  }

  /** The finished notes of a receipt, by induction over the creates. */
  lemma {:induction false} InsertAllPayloads(h: Host, l: Ledger, window: WindowId, outcome: Outcome, ps: seq<Payload>,
                                             cs: seq<Create>, available: set<NoteId>)
    requires |ps| == |cs| && Consistent(l, available)
    requires InsertAll(h, l, window, outcome, ps, cs, available).Ok?
    ensures
      var m := InsertAll(h, l, window, outcome, ps, cs, available).value;
      forall i :: 0 <= i < |ps| ==>
        && ps[i].noteId in m.notes && RelationsOk(h, cs[i].relations, available - {ps[i].noteId})
        && Named(cs[i].relations)
        && m.notes[ps[i].noteId] == Note(window, Final(outcome, ps[i], []).status, 1,
                                         Final(outcome, ps[i], KeptAll(cs[i].relations)))
  {
    hide Consistent, Grows, InsertOne, RelationsOk;
    if ps != [] {
      var n := |ps| - 1;
      InsertAllPayloads(h, l, window, outcome, ps[..n], cs[..n], available);
      InsertAllKeeps(h, l, window, outcome, ps[..n], cs[..n], available);
      var mid := InsertAll(h, l, window, outcome, ps[..n], cs[..n], available).value;
      InsertOneKeeps(h, mid, window, outcome, ps[n], cs[n].relations, available);
      forall i | 0 <= i < n
        ensures ps[i].noteId in mid.notes && ps[i].noteId != ps[n].noteId && Named(cs[i].relations)
        ensures mid.notes[ps[i].noteId] == Note(window, Final(outcome, ps[i], []).status, 1,
                                                Final(outcome, ps[i], KeptAll(cs[i].relations)))
        ensures RelationsOk(h, cs[i].relations, available - {ps[i].noteId})
      {
        assert ps[..n][i] == ps[i] && cs[..n][i] == cs[i];
      }
      hide KeptAll, Final;
    }
  }

  /** What a fresh window receipt commits: one note per create, in order, at revision 1, with the
      facts and re-verified evidence of its candidate, open when the window is unresolved; the
      receipt under the request key; and no change to any note but those it revises. */
  lemma WindowOutcome(h: Host, l: Ledger, q: WindowRequest, fence: Fence)
    requires Inv(l) && q.window !in l.windows && WindowSpec(h, l, q, fence).Ok?
    ensures
      var (m, receipt) := WindowSpec(h, l, q, fence).value;
      && m.windows == l.windows[q.window := StoredWindow(q.sha, receipt)]
      && m.order == l.order + receipt.created && m.reviews == l.reviews
      && receipt.window == q.window && receipt.outcome == q.outcome.value
      && |receipt.created| == |q.creates.value| && receipt.revised == RevisedIds(q.revisions.value)
      && forall i :: 0 <= i < |receipt.created| ==>
           var c := q.creates.value[i];
           && receipt.created[i] == c.noteId && c.noteId in m.notes && c.noteId !in l.notes
           && m.notes[c.noteId].window == q.window && m.notes[c.noteId].rev == 1
           && FromCandidate(h, m.notes[c.noteId].payload, c, q.candidates, q.grants)
           && (q.outcome == Some(Unresolved) ==> m.notes[c.noteId].status == NeedsCheck)
  {
    var revised, inserted, receipt := WindowSteps(h, l, q);
    var staged := Stage(h, l.notes, q.creates.value, q.candidates, q.grants).value;
    var available := Available(l, Ids(staged));
    ConsistentLarger(l, l.notes.Keys, available);
    StageMeaning(h, l.notes, q.creates.value, q.candidates, q.grants);
    hide Consistent, Grows, Accounted, Stage, ReviseAll, InsertAll, BuildPayload, FromCandidate;
    ReviseAllKeeps(h, l, q.revisions.value, available, Ids(staged));
    var mid := ReviseAll(h, l, q.revisions.value, available, Ids(staged)).value;
    InsertAllPayloads(h, mid, q.window, q.outcome.value, staged, q.creates.value, available);
    forall i | 0 <= i < |receipt.created|
      ensures FromCandidate(h, staged[i], q.creates.value[i], q.candidates, q.grants)
    {
      BuiltFromCandidate(h, l.notes, q.creates.value[i], q.candidates, q.grants);
    }
    FinalFromCandidate(h, q, staged);
  }

  /** A committed receipt revises each existing note exactly as submitted: together with the audit
      invariant this fixes its new payload. */
  lemma WindowAudits(h: Host, l: Ledger, q: WindowRequest, fence: Fence, id: NoteId)
    requires Inv(l) && q.window !in l.windows && id in l.notes
    ensures WindowSpec(h, l, q, fence).Ok? ==>
      && (forall i :: 0 <= i < |q.revisions.value| ==> WellFormed(q.revisions.value[i]))
      && Entries(Audit(WindowSpec(h, l, q, fence).value.0, id)) == Entries(Audit(l, id)) + EntriesFor(q.revisions.value, id)
  {
    hide Consistent, Grows, Accounted, WindowRows, Entries, EntriesFor, WellFormed;
    if WindowSpec(h, l, q, fence).Ok? {
      CommittedAudits(h, l, q, id);
    }
  }

  lemma CommittedAudits(h: Host, l: Ledger, q: WindowRequest, id: NoteId)
    requires Inv(l) && q.outcome.Some? && q.creates.Some? && q.revisions.Some? && WindowRows(h, l, q).Ok?
             && id in l.notes
    ensures forall i :: 0 <= i < |q.revisions.value| ==> WellFormed(q.revisions.value[i])
    ensures Entries(Audit(WindowRows(h, l, q).value.0, id)) == Entries(Audit(l, id)) + EntriesFor(q.revisions.value, id)
  {
    var staged := Stage(h, l.notes, q.creates.value, q.candidates, q.grants).value;
    var available := Available(l, Ids(staged));
    ConsistentLarger(l, l.notes.Keys, available);
    hide Consistent, Grows, Accounted, Stage, ReviseAll, InsertAll, Entries, EntriesFor, WellFormed, OnlyAmends;
    ReviseAllKeeps(h, l, q.revisions.value, available, Ids(staged));
    ReviseAllAudits(h, l, q.revisions.value, available, Ids(staged), id);
    var mid := ReviseAll(h, l, q.revisions.value, available, Ids(staged)).value;
    InsertAllOthers(h, mid, q.window, q.outcome.value, staged, q.creates.value, available, id);
  }

  /** Inserting notes leaves every audit of an existing note alone. */
  lemma {:induction false} InsertAllOthers(h: Host, l: Ledger, window: WindowId, outcome: Outcome, ps: seq<Payload>,
                                           cs: seq<Create>, available: set<NoteId>, id: NoteId)
    requires |ps| == |cs| && InsertAll(h, l, window, outcome, ps, cs, available).Ok? && id in l.notes
    ensures id in InsertAll(h, l, window, outcome, ps, cs, available).value.notes
    ensures Audit(InsertAll(h, l, window, outcome, ps, cs, available).value, id) == Audit(l, id)
  {
    hide RelationsOk;
    if ps != [] {
      var n := |ps| - 1;
      InsertAllOthers(h, l, window, outcome, ps[..n], cs[..n], available, id);
    }
  }

  lemma FinalFromCandidate(h: Host, q: WindowRequest, staged: seq<Payload>)
    requires q.creates.Some? && |staged| == |q.creates.value|
    requires forall i :: 0 <= i < |staged| ==> FromCandidate(h, staged[i], q.creates.value[i], q.candidates, q.grants)
    ensures forall i, outcome, relations :: 0 <= i < |staged| ==>
      && staged[i].noteId == q.creates.value[i].noteId
      && FromCandidate(h, Final(outcome, staged[i], relations), q.creates.value[i], q.candidates, q.grants)
  {
    hide FieldEvidence, PrimaryAccepted;
  }

  // ---- Review decisions ---------------------------------------------------

  lemma RawRoundTrip(rs: seq<Relation>)
    ensures Named(AsRawAll(rs)) && KeptAll(AsRawAll(rs)) == rs
  {
  }

  /** A review edge is new, leads to another existing note, and is recorded as validated. */
  lemma ReviewRelationsLead(h: Host, l: Ledger, p: Payload, rs: seq<RawRelation>)
    requires ReviewRelations(h, l, p, rs).Ok?
    ensures
      var added := ReviewRelations(h, l, p, rs).value;
      && Named(rs) && added == KeptAll(rs)
      && forall r :: r in added ==> r.to in l.notes && r.to != p.noteId
  {
    RelationsLead(h, rs, l.notes.Keys - {p.noteId});
  }

  /** A decision that writes the note writes what its audit entry says. */
  lemma DecisionLeads(h: Host, l: Ledger, q: ReviewRequest)
    requires Consistent(l, l.notes.Keys) && q.action.Some? && q.noteId in l.notes
    requires Decide(h, l, q).Ok? && Decide(h, l, q).value.Some?
    ensures
      var (e, p) := Decide(h, l, q).value.value;
      Leads(l.notes[q.noteId], e, p) && p.noteId == q.noteId && Targets(p, l.notes.Keys)
  {
    hide Consistent, AuditInv, ReviewRelations, KeptAll, AsRawAll, FieldEvidence, PrimaryAccepted;
    NoteOf(l, q.noteId, l.notes.Keys);
    var p := l.notes[q.noteId].payload;
    match q.action.value
    case AddRelations =>
      ReviewRelationsLead(h, l, p, q.relations);
      RawRoundTrip(ReviewRelations(h, l, p, q.relations).value);
    case ReviseFact =>
      if q.relations != [] { ReviewRelationsLead(h, l, p, q.relations); }
    case _ =>
  }

  /** The ledger with one more review receipt. */
  function WithReview(l: Ledger, stored: StoredReview): Ledger {
    var id := stored.receipt.noteId;
    l.(reviews := l.reviews[id := Reviews(l, id) + [stored]])
  }

  lemma WithReviewKeeps(l: Ledger, known: set<NoteId>, stored: StoredReview)
    requires Consistent(l, known) && stored.receipt.noteId in l.notes
    requires stored.round == stored.receipt.round == |Reviews(l, stored.receipt.noteId)| + 1
    ensures Consistent(WithReview(l, stored), known)
  {
    hide AuditInv, NoDuplicates;
    var m := WithReview(l, stored);
    forall id | id in m.notes ensures NoteInv(m, id, known) {
      assert NoteInv(l, id, known) && Audit(m, id) == Audit(l, id);
    }
  }

  lemma RoundsCounted(l: Ledger, id: NoteId, known: set<NoteId>)
    requires Consistent(l, known)
    ensures LastRound(l, id) == |Reviews(l, id)|
    ensures forall i :: 0 <= i < |Reviews(l, id)| ==> Reviews(l, id)[i].round == i + 1
  {
    assert id in l.reviews ==> RoundsInv(l.reviews[id], id);
  }

  /** The ledger after a new review round: the note amended as decided, if at all, and its receipt. */
  function Decided(l: Ledger, q: ReviewRequest, decision: Option<(Entry, Payload)>): Ledger
    requires q.noteId in l.notes
  {
    if decision.None? then l else Amended(l, q.noteId, decision.value.0, decision.value.1)
  }

  lemma ReviewRowsOutcome(h: Host, l: Ledger, q: ReviewRequest)
    requires Inv(l) && q.action.Some? && q.noteId in l.notes && l.notes[q.noteId].status != Rejected
    requires q.round == |Reviews(l, q.noteId)| + 1
    ensures ReviewRows(h, l, q).Ok? <==> Decide(h, l, q).Ok?
    ensures Decide(h, l, q).Ok? ==>
      var m := Decided(l, q, Decide(h, l, q).value);
      var n := m.notes[q.noteId];
      var receipt := ReviewReceipt(q.noteId, q.round, q.action.value, n.rev, n.status);
      && ReviewRows(h, l, q) == Ok((WithReview(m, StoredReview(q.round, q.sha, receipt)), receipt))
      && Consistent(m, m.notes.Keys) && m.notes.Keys == l.notes.Keys && Grows(l, m)
      && Reviews(m, q.noteId) == Reviews(l, q.noteId) && m.windows == l.windows && m.order == l.order
  {
    hide Consistent, Decide, Accounted, Grows, Amend;
    RoundsCounted(l, q.noteId, l.notes.Keys);
    GrowsRefl(l);
    if Decide(h, l, q).Ok? && Decide(h, l, q).value.Some? {
      var (e, p) := Decide(h, l, q).value.value;
      DecisionLeads(h, l, q);
      AmendKeeps(l, q.noteId, e, p, l.notes.Keys);
      assert Amended(l, q.noteId, e, p).notes.Keys == l.notes.Keys;
    }
    NewRound(Decided(l, q, if Decide(h, l, q).Ok? then Decide(h, l, q).value else None), q);
  }

  lemma NewRound(m: Ledger, q: ReviewRequest)
    requires Consistent(m, m.notes.Keys) && q.round == |Reviews(m, q.noteId)| + 1
    ensures !RoundTaken(m, q.noteId, q.round)
  {
    RoundsCounted(m, q.noteId, m.notes.Keys);
  }

  lemma AccountedSame(l: Ledger, m: Ledger)
    requires Accounted(l) && m.windows == l.windows && m.notes.Keys == l.notes.Keys && Grows(l, m)
    ensures Accounted(m)
  {
  }

  /** A review decision keeps the ledger invariant and only appends. */
  lemma ReviewKeeps(h: Host, l: Ledger, q: ReviewRequest, fence: Fence)
    requires Inv(l)
    ensures ReviewSpec(h, l, q, fence).Ok? ==>
      Inv(ReviewSpec(h, l, q, fence).value.0) && Grows(l, ReviewSpec(h, l, q, fence).value.0)
  {
    hide Inv, Grows, ReviewRows, Decide, Decided, InScope, BoundedReason;
    RoundsOf(l, q.noteId);
    GrowsRefl(l);
    if ReviewSpec(h, l, q, fence).Ok? && q.round == LastRound(l, q.noteId) + 1 {
      NewRoundKeeps(h, l, q);
    }
  }

  lemma NewRoundKeeps(h: Host, l: Ledger, q: ReviewRequest)
    requires Inv(l) && q.action.Some? && q.noteId in l.notes && l.notes[q.noteId].status != Rejected
    requires q.round == |Reviews(l, q.noteId)| + 1 && ReviewRows(h, l, q).Ok?
    ensures Inv(ReviewRows(h, l, q).value.0) && Grows(l, ReviewRows(h, l, q).value.0)
  {
    hide Consistent, Accounted, Grows, ReviewRows, Decide;
    ReviewRowsOutcome(h, l, q);
    var m := Decided(l, q, Decide(h, l, q).value);
    var n := m.notes[q.noteId];
    var stored := StoredReview(q.round, q.sha, ReviewReceipt(q.noteId, q.round, q.action.value, n.rev, n.status));
    WithReviewKeeps(m, m.notes.Keys, stored);
    ReviewGrows(l, m, stored);
    AccountedSame(l, WithReview(m, stored));
  }

  lemma ReviewGrows(l: Ledger, m: Ledger, stored: StoredReview)
    requires Grows(l, m) && stored.receipt.noteId in l.notes && l.notes[stored.receipt.noteId].status != Rejected
    ensures Grows(l, WithReview(m, stored))
  {
  }

  /** The latest round of the note, under the key it was stored with. */
  predicate Replays(l: Ledger, q: ReviewRequest) {
    && Reviews(l, q.noteId) != [] && q.round == |Reviews(l, q.noteId)|
    && q.sha == Reviews(l, q.noteId)[|Reviews(l, q.noteId)|-1].sha
  }

  /** An exact replay of the latest round of a note that is not rejected changes nothing and
      returns the stored receipt, whatever the decision now says. */
  lemma ReviewReplays(h: Host, l: Ledger, q: ReviewRequest, fence: Fence)
    requires Inv(l) && q.noteId in l.notes
    ensures ReviewShapeOk(h, q) && fence.atStart && l.notes[q.noteId].status != Rejected && Replays(l, q) ==>
      ReviewSpec(h, l, q, fence) == Ok((l, Reviews(l, q.noteId)[|Reviews(l, q.noteId)|-1].receipt))
  {
    hide Inv, ReviewRows, InScope, BoundedReason, Reviews;
    RoundsOf(l, q.noteId);
  }

  /** A review accepts a round exactly when it is the next one, or the last one replayed under its
      own key; a rejected or missing note never gains another receipt. */
  lemma ReviewRounds(h: Host, l: Ledger, q: ReviewRequest, fence: Fence)
    requires Inv(l)
    ensures ReviewSpec(h, l, q, fence).Ok? <==>
      && ReviewShapeOk(h, q) && fence.atStart && q.noteId in l.notes && l.notes[q.noteId].status != Rejected
      && (Replays(l, q) || (q.round == |Reviews(l, q.noteId)| + 1 && Decide(h, l, q).Ok? && fence.atEnd))
  {
    hide Inv, ReviewRows, Decide, InScope, BoundedReason, Reviews;
    RoundsOf(l, q.noteId);
    if ReviewShapeOk(h, q) && q.noteId in l.notes && l.notes[q.noteId].status != Rejected
       && q.round == |Reviews(l, q.noteId)| + 1 {
      hide WithReview, Decided;
      ReviewRowsOutcome(h, l, q);
    }
  }

  /** A successful review either replays its receipt or decides one more round. */
  lemma ReviewResult(h: Host, l: Ledger, q: ReviewRequest, fence: Fence)
    requires Inv(l) && ReviewSpec(h, l, q, fence).Ok?
    ensures q.noteId in l.notes && q.action.Some? && l.notes[q.noteId].status != Rejected
    ensures
      var (m, receipt) := ReviewSpec(h, l, q, fence).value;
      || (m == l && Replays(l, q))
      || (q.round == |Reviews(l, q.noteId)| + 1 && Decide(h, l, q).Ok?
          && m == WithReview(Decided(l, q, Decide(h, l, q).value), StoredReview(q.round, q.sha, receipt))
          && receipt.noteId == q.noteId)
  {
    hide Consistent, Accounted, ReviewRows, Decide, Decided, WithReview, Grows, InScope;
    RoundsOf(l, q.noteId);
    if q.round == |Reviews(l, q.noteId)| + 1 {
      ReviewRowsOutcome(h, l, q);
    }
  }

  lemma RoundsOf(l: Ledger, id: NoteId)
    requires Inv(l)
    ensures LastRound(l, id) == |Reviews(l, id)|
  {
    RoundsCounted(l, id, l.notes.Keys);
  }

  function NoteAt(l: Ledger, id: NoteId): Option<Note> {
    if id in l.notes then Some(l.notes[id]) else None
  }

  function StatusAt(l: Ledger, id: NoteId): Option<Status> {
    if id in l.notes then Some(l.notes[id].status) else None
  }

  /** A review touches only its own note. */
  lemma ReviewIsolated(h: Host, l: Ledger, q: ReviewRequest, fence: Fence, id: NoteId)
    requires Inv(l) && id != q.noteId
    ensures ReviewSpec(h, l, q, fence).Ok? ==>
      var m := ReviewSpec(h, l, q, fence).value.0;
      && m.order == l.order && m.windows == l.windows && m.notes.Keys == l.notes.Keys
      && NoteAt(m, id) == NoteAt(l, id) && Audit(m, id) == Audit(l, id) && Reviews(m, id) == Reviews(l, id)
  {
    hide Inv, ReviewSpec, Decide, Decided, WithReview;
    if ReviewSpec(h, l, q, fence).Ok? && ReviewSpec(h, l, q, fence).value.0 != l {
      ReviewResult(h, l, q, fence);
      DecidedIsolated(l, q, Decide(h, l, q).value, StoredReview(q.round, q.sha, ReviewSpec(h, l, q, fence).value.1), id);
    }
  }

  lemma DecidedIsolated(l: Ledger, q: ReviewRequest, decision: Option<(Entry, Payload)>, stored: StoredReview,
                        id: NoteId)
    requires q.noteId in l.notes && id != q.noteId && stored.receipt.noteId == q.noteId
    ensures
      var m := WithReview(Decided(l, q, decision), stored);
      && m.order == l.order && m.windows == l.windows && m.notes.Keys == l.notes.Keys
      && NoteAt(m, id) == NoteAt(l, id) && Audit(m, id) == Audit(l, id) && Reviews(m, id) == Reviews(l, id)
  {
    hide Apply, Fold;
  }

  lemma DecidedFrame(l: Ledger, q: ReviewRequest, decision: Option<(Entry, Payload)>, stored: StoredReview)
    requires q.noteId in l.notes && stored.receipt.noteId == q.noteId
    ensures
      var m := WithReview(Decided(l, q, decision), stored);
      && m.windows == l.windows && m.notes.Keys == l.notes.Keys
      && Reviews(m, q.noteId) == Reviews(l, q.noteId) + [stored]
      && forall id :: id != q.noteId ==> Reviews(m, id) == Reviews(l, id)
  {
  }

  /** What a decision does to its own note. */
  lemma DecidedNote(l: Ledger, q: ReviewRequest, decision: Option<(Entry, Payload)>, stored: StoredReview)
    requires q.noteId in l.notes && stored.receipt.noteId == q.noteId
    ensures NoteAt(WithReview(Decided(l, q, decision), stored), q.noteId) ==
      Some(if decision.None? then l.notes[q.noteId]
           else l.notes[q.noteId].(status := decision.value.1.status, rev := l.notes[q.noteId].rev + 1,
                                   payload := decision.value.1))
  {
  }

  /** A revised fact has a known period, which occurs literally in the origin quote or in a
      witness quote of a displayed grant; the origin evidence itself is re-verified and kept. */
  lemma RevisedLiteral(h: Host, l: Ledger, p: Payload, q: ReviewRequest)
    requires Revised(h, l, p, q).Ok?
    ensures
      var r := Revised(h, l, p, q).value;
      && q.fact == Some(r.fact) && r.status == Verified && r.primary == p.primary
      && r.fact.period !in UNKNOWN_PERIODS
      && p.primary.grantId in q.grants && PrimaryAccepted(p.primary, q.grants[p.primary.grantId])
      && (Contains(Text.Squeeze(p.primary.quote), Text.Squeeze(r.fact.period))
          || exists i :: 0 <= i < |r.proofs| && r.proofs[i].field == Period && ProofSound(r.proofs[i], r.fact, q.grants))
  {
    hide FieldEvidence, PrimaryAccepted, ProofSound, ReviewRelations, Contains, FactComplete;
    EvidenceSound(q.fact.value, p.primary.quote, q.witnesses, q.grants[p.primary.grantId], q.grants, h.company, Period);
  }

  /** Within review an open note becomes verified only by a successful fact revision. */
  lemma ReviewUpgrade(h: Host, l: Ledger, q: ReviewRequest, fence: Fence)
    requires Inv(l) && q.noteId in l.notes && l.notes[q.noteId].status == NeedsCheck
    ensures ReviewSpec(h, l, q, fence).Ok?
            && StatusAt(ReviewSpec(h, l, q, fence).value.0, q.noteId) == Some(Verified) ==>
      && q.action == Some(ReviseFact) && Revised(h, l, l.notes[q.noteId].payload, q).Ok?
      && NoteAt(ReviewSpec(h, l, q, fence).value.0, q.noteId) ==
           Some(l.notes[q.noteId].(status := Verified, rev := l.notes[q.noteId].rev + 1,
                                   payload := Revised(h, l, l.notes[q.noteId].payload, q).value))
  {
    hide Inv, ReviewSpec, Revised, ReviewRelations, KeptAll, AsRawAll, WithReview, Decided;
    if ReviewSpec(h, l, q, fence).Ok? && ReviewSpec(h, l, q, fence).value.0 != l {
      ReviewResult(h, l, q, fence);
      StatusColumn(l, q.noteId);
      RevisedStatus(h, l, l.notes[q.noteId].payload, q);
      DecidedNote(l, q, Decide(h, l, q).value, StoredReview(q.round, q.sha, ReviewSpec(h, l, q, fence).value.1));
    }
  }

  /** What each accepted decision of a new round does to its note: a confirmation leaves it as it is;
      a doubt or a rejection changes its status alone; new relations are appended as submitted. */
  lemma ReviewMeaning(h: Host, l: Ledger, q: ReviewRequest, fence: Fence)
    requires Inv(l) && q.noteId in l.notes && q.action.Some? && q.round == |Reviews(l, q.noteId)| + 1
    ensures ReviewSpec(h, l, q, fence).Ok? ==>
      var n := l.notes[q.noteId];
      var m := NoteAt(ReviewSpec(h, l, q, fence).value.0, q.noteId);
      match q.action.value
      case Confirmed => n.status == Verified && m == Some(n)
      case MarkNeedsCheck => m == Some(n.(status := NeedsCheck, rev := n.rev + 1, payload := n.payload.(status := NeedsCheck)))
      case Reject => m == Some(n.(status := Rejected, rev := n.rev + 1, payload := n.payload.(status := Rejected)))
      case AddRelations =>
        && Named(q.relations) && q.relations != []
        && m == Some(n.(rev := n.rev + 1, payload := n.payload.(relations := n.payload.relations + KeptAll(q.relations))))
      case ReviseFact =>
        && Revised(h, l, n.payload, q).Ok?
        && m == Some(n.(status := Verified, rev := n.rev + 1, payload := Revised(h, l, n.payload, q).value))
  {
    hide Inv, ReviewSpec, Revised, ReviewRelations, KeptAll, AsRawAll, WithReview, Decided;
    if ReviewSpec(h, l, q, fence).Ok? {
      ReviewResult(h, l, q, fence);
      StatusColumn(l, q.noteId);
      DecidedNote(l, q, Decide(h, l, q).value, StoredReview(q.round, q.sha, ReviewSpec(h, l, q, fence).value.1));
      RevisedStatus(h, l, l.notes[q.noteId].payload, q);
      if q.action == Some(AddRelations) {
        ReviewRelationsLead(h, l, l.notes[q.noteId].payload, q.relations);
      }
    }
  }

  lemma RevisedStatus(h: Host, l: Ledger, p: Payload, q: ReviewRequest)
    ensures Revised(h, l, p, q).Ok? ==> Revised(h, l, p, q).value.status == Verified
  {
    hide FieldEvidence, PrimaryAccepted;
  }

  lemma StatusColumn(l: Ledger, id: NoteId)
    requires Inv(l) && id in l.notes
    ensures l.notes[id].status == l.notes[id].payload.status
  {
    NoteOf(l, id, l.notes.Keys);
  }

  // ---- Runs ---------------------------------------------------------------

  datatype Call = Window(window: WindowRequest) | Review(review: ReviewRequest)

  /** A committed call appends; a refused one is rolled back. */
  function After(h: Host, l: Ledger, c: Call, fence: Fence): Ledger {
    match c
    case Window(q) => if WindowSpec(h, l, q, fence).Ok? then WindowSpec(h, l, q, fence).value.0 else l
    case Review(q) => if ReviewSpec(h, l, q, fence).Ok? then ReviewSpec(h, l, q, fence).value.0 else l
  }

  function Run(h: Host, l: Ledger, calls: seq<(Call, Fence)>): Ledger {
    if calls == [] then l
    else
      var (c, fence) := calls[|calls|-1];
      After(h, Run(h, l, calls[..|calls|-1]), c, fence)
  }

  lemma EmptyInv()
    ensures Inv(EMPTY)
  {
  }

  lemma CallKeeps(h: Host, l: Ledger, c: Call, fence: Fence)
    requires Inv(l)
    ensures Inv(After(h, l, c, fence)) && Grows(l, After(h, l, c, fence))
  {
    hide Inv, Grows, WindowSpec, ReviewSpec;
    GrowsRefl(l);
    match c
    case Window(q) => if WindowSpec(h, l, q, fence).Ok? { WindowKeeps(h, l, q, fence); }
    case Review(q) => if ReviewSpec(h, l, q, fence).Ok? { ReviewKeeps(h, l, q, fence); }
  }

  /** The invariant holds after every run of calls by arbitrary employees, and what is recorded
      stays: audits, receipts and rejected notes are final. */
  lemma {:induction false} RunKeeps(h: Host, l: Ledger, calls: seq<(Call, Fence)>)
    requires Inv(l)
    ensures Inv(Run(h, l, calls)) && Grows(l, Run(h, l, calls))
  {
    hide Inv, Grows, After;
    GrowsRefl(l);
    if calls != [] {
      var before := Run(h, l, calls[..|calls|-1]);
      RunKeeps(h, l, calls[..|calls|-1]);
      CallKeeps(h, before, calls[|calls|-1].0, calls[|calls|-1].1);
      GrowsTransitive(l, before, Run(h, l, calls));
    }
  }

  /** In every reachable ledger, folding a note's audit rebuilds its payload exactly, the
      revisions are 1..rev, and each fact revision snapshots what the rows before it rebuild. */
  lemma AuditRebuilds(h: Host, calls: seq<(Call, Fence)>, id: NoteId)
    requires id in Run(h, EMPTY, calls).notes
    ensures
      var l := Run(h, EMPTY, calls);
      var rows := Audit(l, id);
      && Fold(rows) == Some(l.notes[id].payload)
      && l.notes[id].rev == |rows| && l.notes[id].status == l.notes[id].payload.status
      && (forall i :: 0 <= i < |rows| ==> rows[i].rev == i + 1 && (rows[i].entry.Created? <==> i == 0))
      && (forall i :: 0 <= i < |rows| && rows[i].entry.FactRevised? ==> Fold(rows[..i]) == Some(rows[i].entry.before))
      && (forall r :: r in l.notes[id].payload.relations ==> r.to in l.notes)
  {
    EmptyInv();
    RunKeeps(h, EMPTY, calls);
    var l := Run(h, EMPTY, calls);
    hide Run, Fold;
    NoteOf(l, id, l.notes.Keys);
  }
}
