/** Exactly which window receipts and review decisions the note store accepts, and the exact rows each
    leaves behind, in terms of what was submitted (app/document_read/notes.py). */
module NoteOutcomes {
  import opened Wrappers
  import opened Text
  import opened Evidence
  import opened NoteLedger
  import opened NoteRules

  // ---- Fields -------------------------------------------------------------

  predicate TextFits(s: string) {
    !IsBlank(s) && |s| <= 2000
  }

  predicate QuestionsFit(qs: seq<string>) {
    |qs| <= 32 && forall i :: 0 <= i < |qs| ==> TextFits(qs[i])
  }

  /** At most 32 distinct edges, each of a listed kind, with a reason, to one of the targets. */
  predicate RelationsFit(h: Host, rs: seq<RawRelation>, targets: set<NoteId>) {
    && |rs| <= 32
    && (forall i :: 0 <= i < |rs| ==>
          rs[i].rel.Some? && h.isIdentifier(rs[i].to) && rs[i].to in targets && TextFits(rs[i].reason))
    && (forall i, j :: 0 <= i < j < |rs| ==> rs[i].rel != rs[j].rel || rs[i].to != rs[j].to)
  }

  lemma RelationsExactly(h: Host, rs: seq<RawRelation>, targets: set<NoteId>)
    ensures RelationsOk(h, rs, targets) <==> RelationsFit(h, rs, targets)
    ensures RelationsFit(h, rs, targets) ==> Named(rs) && ValidateRelations(h, rs, targets) == Ok(KeptAll(rs))
    ensures !RelationsFit(h, rs, targets) ==> ValidateRelations(h, rs, targets) == Err(NoteRejected)
  {
    assert RelationsOk(h, rs, targets) ==> forall i :: 0 <= i < |rs| ==> RelationOk(h, rs[i], targets);
  }

  /** The stored edges are the submitted ones, in order. */
  predicate SameEdges(stored: seq<Relation>, rs: seq<RawRelation>) {
    |stored| == |rs| && forall i :: 0 <= i < |rs| ==>
      rs[i].rel == Some(stored[i].rel) && rs[i].to == stored[i].to && rs[i].reason == stored[i].reason
  }

  lemma KeptEdges(rs: seq<RawRelation>)
    requires Named(rs)
    ensures SameEdges(KeptAll(rs), rs)
  {
  }

  // ---- Creates ------------------------------------------------------------

  /** A create the host accepts: a new identifier, an allowed status, bounded texts, and a delivered
      candidate whose grant, coordinates, quote and witnesses all stand in what was displayed. */
  predicate CreateFits(h: Host, taken: set<NoteId>, c: Create, candidates: seq<Candidate>, grants: Grants) {
    && !c.forbidden && h.isIdentifier(c.noteId) && c.noteId !in taken
    && (c.status == Omitted || c.status == Listed(Verified) || c.status == Listed(NeedsCheck))
    && (c.topicHint.Some? ==> TextFits(c.topicHint.value)) && QuestionsFit(c.questions)
    && c.index.Some? && 0 <= c.index.value < |candidates|
    && var k := candidates[c.index.value];
       && k.grantId in grants
       && k.sourceLoc == grants[k.grantId].sourceLoc
       && Verbatim(grants[k.grantId].lines, k.start, k.end, k.quote)
       && |k.proofs| <= 3 && (forall i :: 0 <= i < |k.proofs| ==> k.proofs[i].grantId in grants)
       && FieldEvidence(k.fact, k.quote, AsWitnesses(k.proofs), grants[k.grantId], grants, h.company).Some?
  }

  /** The status of a new note: open in an unresolved window, otherwise as listed, and verified when
      the create names none. */
  function NewStatus(outcome: Outcome, s: CreateStatus): Status
    requires !s.Unlisted?
  {
    if outcome == Unresolved then NeedsCheck
    else if s.Omitted? then Verified
    else s.status
  }

  /** The note that an accepted create becomes. */
  ghost predicate CreatedAs(h: Host, n: Note, window: WindowId, outcome: Outcome, c: Create, candidates: seq<Candidate>,
                            grants: Grants)
    requires CreateFits(h, {}, c, candidates, grants)
  {
    var k := candidates[c.index.value];
    var g := grants[k.grantId];
    var p := n.payload;
    && n.window == window && n.rev == 1 && n.status == p.status == NewStatus(outcome, c.status)
    && p.noteId == c.noteId && p.fact == k.fact && p.questions == c.questions && p.topicHint == c.topicHint
    && p.primary == Primary(k.grantId, g.fileHash, g.fingerprint, g.originalName, k.sourceLoc, k.start, k.end, k.quote)
    && Some(p.proofs) == FieldEvidence(k.fact, k.quote, AsWitnesses(k.proofs), g, grants, h.company)
    && SameEdges(p.relations, c.relations)
  }

  /** The payload staged for a create, before the window's outcome and the relations are applied. */
  ghost predicate StagedAs(h: Host, p: Payload, c: Create, candidates: seq<Candidate>, grants: Grants)
    requires CreateFits(h, {}, c, candidates, grants)
  {
    var k := candidates[c.index.value];
    var g := grants[k.grantId];
    && p.status == NewStatus(Noted, c.status)
    && p.noteId == c.noteId && p.fact == k.fact && p.questions == c.questions && p.topicHint == c.topicHint
    && p.primary == Primary(k.grantId, g.fileHash, g.fingerprint, g.originalName, k.sourceLoc, k.start, k.end, k.quote)
    && Some(p.proofs) == FieldEvidence(k.fact, k.quote, AsWitnesses(k.proofs), g, grants, h.company)
  }

  lemma FitsAnywhere(h: Host, taken: set<NoteId>, c: Create, candidates: seq<Candidate>, grants: Grants)
    requires CreateFits(h, taken, c, candidates, grants)
    ensures CreateFits(h, {}, c, candidates, grants)
  {
  }

  lemma BuildExactly(h: Host, notes: map<NoteId, Note>, c: Create, candidates: seq<Candidate>, grants: Grants)
    ensures BuildPayload(h, notes, c, candidates, grants).Ok? <==> CreateFits(h, notes.Keys, c, candidates, grants)
    ensures BuildPayload(h, notes, c, candidates, grants).Ok? ==>
      && CreateFits(h, {}, c, candidates, grants)
      && StagedAs(h, BuildPayload(h, notes, c, candidates, grants).value, c, candidates, grants)
    ensures BuildPayload(h, notes, c, candidates, grants).Err? ==>
      BuildPayload(h, notes, c, candidates, grants) == Err(NoteRejected)
  {
    hide FieldEvidence, Verbatim;
    match c.status
    case Listed(Verified) =>
    case Listed(NeedsCheck) =>
    case Listed(Rejected) =>
    case Omitted =>
    case Unlisted =>
  }

  lemma {:induction false} StageExactly(h: Host, notes: map<NoteId, Note>, cs: seq<Create>, candidates: seq<Candidate>,
                                        grants: Grants)
    ensures Stage(h, notes, cs, candidates, grants).Ok? <==>
      forall i :: 0 <= i < |cs| ==> CreateFits(h, notes.Keys, cs[i], candidates, grants)
    ensures Stage(h, notes, cs, candidates, grants).Ok? ==>
      var ps := Stage(h, notes, cs, candidates, grants).value;
      forall i :: 0 <= i < |cs| ==>
        CreateFits(h, {}, cs[i], candidates, grants) && StagedAs(h, ps[i], cs[i], candidates, grants)
    ensures Stage(h, notes, cs, candidates, grants).Err? ==> Stage(h, notes, cs, candidates, grants) == Err(NoteRejected)
  {
    hide BuildPayload, CreateFits, StagedAs;
    if cs != [] {
      var n := |cs| - 1;
      StageExactly(h, notes, cs[..n], candidates, grants);
      BuildExactly(h, notes, cs[n], candidates, grants);
      forall i | 0 <= i < n ensures cs[..n][i] == cs[i] {
      }
    }
  }

  /** The ids of the creates. */
  function CreatedIds(cs: seq<Create>): seq<NoteId> {
    seq(|cs|, i requires 0 <= i < |cs| => cs[i].noteId)
  }

  ghost predicate InsertsFit(h: Host, l: Ledger, cs: seq<Create>, available: set<NoteId>) {
    && (forall i :: 0 <= i < |cs| ==> cs[i].noteId !in l.notes)
    && (forall i :: 0 <= i < |cs| ==> RelationsFit(h, cs[i].relations, available - {cs[i].noteId}))
    && (forall i, j :: 0 <= i < j < |cs| ==> cs[i].noteId != cs[j].noteId)
  }

  lemma InsertsFitSplit(h: Host, l: Ledger, cs: seq<Create>, available: set<NoteId>)
    requires cs != []
    ensures InsertsFit(h, l, cs, available) <==>
      var n := |cs| - 1;
      && InsertsFit(h, l, cs[..n], available)
      && cs[n].noteId !in l.notes && cs[n].noteId !in CreatedIds(cs[..n])
      && RelationsFit(h, cs[n].relations, available - {cs[n].noteId})
  {
    hide RelationsFit;
    var n := |cs| - 1;
    forall i | 0 <= i < n ensures cs[..n][i] == cs[i] == cs[..n][i] && CreatedIds(cs[..n])[i] == cs[i].noteId {
    }
    if InsertsFit(h, l, cs[..n], available) && cs[n].noteId !in CreatedIds(cs[..n]) && cs[n].noteId !in l.notes
       && RelationsFit(h, cs[n].relations, available - {cs[n].noteId}) {
      forall i, j | 0 <= i < j < |cs| ensures cs[i].noteId != cs[j].noteId {
        assert cs[i].noteId == CreatedIds(cs[..n])[i];
        if j < n { assert cs[i] == cs[..n][i] && cs[j] == cs[..n][j]; }
      }
    }
  }

  /** Inserting one staged note succeeds exactly when its id is free and its edges fit. */
  lemma InsertOneExactly(h: Host, l: Ledger, window: WindowId, outcome: Outcome, p: Payload, rs: seq<RawRelation>,
                         available: set<NoteId>)
    requires Consistent(l, available)
    ensures InsertOne(h, l, window, outcome, p, rs, available).Ok? <==>
      p.noteId !in l.notes && RelationsFit(h, rs, available - {p.noteId})
    ensures p.noteId !in l.notes && InsertOne(h, l, window, outcome, p, rs, available).Err? ==>
      InsertOne(h, l, window, outcome, p, rs, available) == Err(NoteRejected)
  {
    RelationsExactly(h, rs, available - {p.noteId});
    if p.noteId !in l.notes {
      NoReviewYet(l, p.noteId, available);
    }
    hide Consistent, RelationsFit;
  }

  lemma {:induction false} InsertAllExactly(h: Host, l: Ledger, window: WindowId, outcome: Outcome, ps: seq<Payload>,
                                            cs: seq<Create>, available: set<NoteId>)
    requires |ps| == |cs| && Consistent(l, available)
    requires forall i :: 0 <= i < |ps| ==> ps[i].noteId == cs[i].noteId
    ensures InsertAll(h, l, window, outcome, ps, cs, available).Ok? <==> InsertsFit(h, l, cs, available)
  {
    hide Consistent, InsertOne, RelationsFit, InsertsFit;
    if ps == [] {
      NoInserts(h, l, available);
    } else {
      var n := |ps| - 1;
      InsertAllExactly(h, l, window, outcome, ps[..n], cs[..n], available);
      InsertsFitSplit(h, l, cs, available);
      if InsertAll(h, l, window, outcome, ps[..n], cs[..n], available).Ok? {
        var mid := InsertAll(h, l, window, outcome, ps[..n], cs[..n], available).value;
        InsertAllKeeps(h, l, window, outcome, ps[..n], cs[..n], available);
        InsertOneExactly(h, mid, window, outcome, ps[n], cs[n].relations, available);
        assert Ids(ps[..n]) == CreatedIds(cs[..n]);
        assert cs[n].noteId in mid.notes <==> cs[n].noteId in l.notes || cs[n].noteId in CreatedIds(cs[..n]);
      }
    }
  }

  lemma NoInserts(h: Host, l: Ledger, available: set<NoteId>)
    ensures InsertsFit(h, l, [], available)
  {
  }

  // ---- Revisions ----------------------------------------------------------

  /** The status of a note after the first n revisions of a receipt. */
  function StatusAfter(before: Status, rs: seq<Revision>, n: nat, id: NoteId): Status
    requires n <= |rs|
  {
    if n == 0 then before
    else if rs[n-1].noteId == id && rs[n-1].action == Some(UpdateStatus) && rs[n-1].status.Some? then rs[n-1].status.value
    else StatusAfter(before, rs, n - 1, id)
  }

  /** How many of the first n revisions name the note. */
  function RevisionsOf(rs: seq<Revision>, n: nat, id: NoteId): nat
    requires n <= |rs|
  {
    if n == 0 then 0 else RevisionsOf(rs, n - 1, id) + if rs[n-1].noteId == id then 1 else 0
  }

  /** The questions that the first n revisions add to the note. */
  function QuestionsOf(rs: seq<Revision>, n: nat, id: NoteId): seq<string>
    requires n <= |rs|
  {
    if n == 0 then []
    else
      QuestionsOf(rs, n - 1, id) +
      if rs[n-1].noteId == id && rs[n-1].action == Some(Question) then rs[n-1].questions else []
  }

  /** The edges that the first n revisions add to the note. */
  function EdgesOf(rs: seq<Revision>, n: nat, id: NoteId): seq<RawRelation>
    requires n <= |rs|
  {
    if n == 0 then []
    else
      EdgesOf(rs, n - 1, id) +
      if rs[n-1].noteId == id && rs[n-1].action == Some(Relate) then rs[n-1].relations else []
  }

  /** A revision the host accepts for a note of this status. */
  predicate RevisionFits(h: Host, known: set<NoteId>, status: Status, r: Revision, targets: set<NoteId>, created: seq<NoteId>) {
    && h.isIdentifier(r.noteId) && r.noteId !in created && r.noteId in known && status != Rejected && TextFits(r.reason)
    && match r.action
       case None => false
       case Some(UpdateStatus) => r.status.Some?
       case Some(Relate) => RelationsFit(h, r.relations, targets)
       case Some(Question) => QuestionsFit(r.questions)
  }

  /** The note with one more list of stored edges. */
  ghost predicate RevisedAs(n: Note, m: Note, status: Status, revisions: nat, questions: seq<string>, edges: seq<RawRelation>) {
    && m.window == n.window && m.rev == n.rev + revisions && m.status == m.payload.status == status
    && m.payload == n.payload.(status := status, questions := n.payload.questions + questions,
                               relations := m.payload.relations)
    && n.payload.relations <= m.payload.relations
    && SameEdges(m.payload.relations[|n.payload.relations|..], edges)
  }

  /** The payload that one accepted revision leads to. */
  function Next(p: Payload, r: Revision): Payload
    requires WellFormed(r) && Named(if r.action == Some(Relate) then r.relations else [])
  {
    match r.action.value
    case UpdateStatus => p.(status := r.status.value)
    case Relate => p.(relations := p.relations + KeptAll(r.relations))
    case Question => p.(questions := p.questions + r.questions)
  }

  function CurrentStatus(l: Ledger, id: NoteId): Status {
    if id in l.notes then l.notes[id].status else Rejected
  }

  /** One revision is accepted exactly when it fits the note as it stands. */
  lemma ReviseOneExactly(h: Host, l: Ledger, r: Revision, targets: set<NoteId>, created: seq<NoteId>)
    requires Consistent(l, targets)
    ensures RevisionFits(h, l.notes.Keys, CurrentStatus(l, r.noteId), r, targets, created) ==>
      && WellFormed(r) && Named(if r.action == Some(Relate) then r.relations else [])
      && ReviseOne(h, l, r, targets, created) ==
           Ok(Amended(l, r.noteId, EntryOf(r), Next(l.notes[r.noteId].payload, r)))
    ensures !RevisionFits(h, l.notes.Keys, CurrentStatus(l, r.noteId), r, targets, created) ==>
      ReviseOne(h, l, r, targets, created) == Err(NoteRejected)
  {
    RelationsExactly(h, r.relations, targets);
    assert QuestionsOk(r.questions) <==> QuestionsFit(r.questions);
    if r.noteId in l.notes {
      NoteOf(l, r.noteId, targets);
      hide Consistent, AuditInv, RelationsFit, QuestionsOk, QuestionsFit, Amend, Amended;
      if RevisionFits(h, l.notes.Keys, CurrentStatus(l, r.noteId), r, targets, created) {
        AmendNamed(l, r.noteId, EntryOf(r), Next(l.notes[r.noteId].payload, r));
      }
    }
  }

  lemma AmendNamed(l: Ledger, id: NoteId, e: Entry, p: Payload)
    requires id in l.notes && AuditInv(Audit(l, id), l.notes[id])
    ensures Amend(l, id, e, p) == Ok(Amended(l, id, e, p))
  {
    AmendSucceeds(l, id, e, p);
  }

  /** An accepted revision changes its note as submitted, and no other. */
  lemma ReviseOneEffect(l: Ledger, r: Revision)
    requires r.noteId in l.notes && l.notes[r.noteId].status == l.notes[r.noteId].payload.status
    requires WellFormed(r) && Named(if r.action == Some(Relate) then r.relations else [])
    ensures
      var n := l.notes[r.noteId];
      var m := Amended(l, r.noteId, EntryOf(r), Next(n.payload, r));
      && m.notes.Keys == l.notes.Keys && (forall id :: id in l.notes && id != r.noteId ==> m.notes[id] == l.notes[id])
      && RevisedAs(n, m.notes[r.noteId], StatusAfter(n.status, [r], 1, r.noteId), 1,
                   QuestionsOf([r], 1, r.noteId), EdgesOf([r], 1, r.noteId))
  {
    var p := l.notes[r.noteId].payload;
    assert p.relations[|p.relations|..] == [] && p.questions + [] == p.questions;
    if r.action == Some(Relate) {
      KeptEdges(r.relations);
      assert (p.relations + KeptAll(r.relations))[|p.relations|..] == KeptAll(r.relations);
      assert EdgesOf([r], 1, r.noteId) == r.relations;
    }
    hide KeptAll;
  }

  lemma NothingRevised(n: Note)
    requires n.status == n.payload.status
    ensures RevisedAs(n, n, n.status, 0, [], [])
  {
    assert n.payload.questions + [] == n.payload.questions;
  }

  lemma RevisedTwice(n: Note, m: Note, o: Note, s1: Status, k1: nat, q1: seq<string>, e1: seq<RawRelation>,
                     s2: Status, k2: nat, q2: seq<string>, e2: seq<RawRelation>)
    requires RevisedAs(n, m, s1, k1, q1, e1) && RevisedAs(m, o, s2, k2, q2, e2)
    ensures RevisedAs(n, o, s2, k1 + k2, q1 + q2, e1 + e2)
  {
    var a, b, c := n.payload.relations, m.payload.relations, o.payload.relations;
    assert c[|a|..] == b[|a|..] + c[|b|..];
    assert n.payload.questions + (q1 + q2) == (n.payload.questions + q1) + q2;
  }

  /** Every revision fits its note as the revisions before it leave that note. */
  ghost predicate RevisionsFit(h: Host, l: Ledger, rs: seq<Revision>, n: nat, targets: set<NoteId>, created: seq<NoteId>)
    requires n <= |rs|
  {
    forall i :: 0 <= i < n ==>
      RevisionFits(h, l.notes.Keys, StatusAfter(CurrentStatus(l, rs[i].noteId), rs, i, rs[i].noteId), rs[i], targets, created)
  }

  /** One note's share of the revisions. */
  ghost predicate RevisedBy(n0: Note, n1: Note, rs: seq<Revision>, n: nat, id: NoteId)
    requires n <= |rs|
  {
    RevisedAs(n0, n1, StatusAfter(n0.status, rs, n, id), RevisionsOf(rs, n, id), QuestionsOf(rs, n, id), EdgesOf(rs, n, id))
  }

  /** What the first n revisions make of every note that was there before. */
  ghost predicate AllRevised(l: Ledger, m: Ledger, rs: seq<Revision>, n: nat)
    requires n <= |rs|
  {
    forall id :: id in l.notes ==> id in m.notes && RevisedBy(l.notes[id], m.notes[id], rs, n, id)
  }

  lemma NoneRevised(l: Ledger, rs: seq<Revision>, known: set<NoteId>)
    requires Consistent(l, known)
    ensures AllRevised(l, l, rs, 0)
  {
    forall id | id in l.notes ensures RevisedBy(l.notes[id], l.notes[id], rs, 0, id) {
      assert NoteInv(l, id, known);
      NothingRevised(l.notes[id]);
    }
  }

  /** What one more revision adds to the note it names, and to no other. */
  lemma OneStep(before: Status, rs: seq<Revision>, n: nat, id: NoteId)
    requires 0 < n <= |rs|
    ensures StatusAfter(before, rs, n, id) == StatusAfter(StatusAfter(before, rs, n - 1, id), [rs[n-1]], 1, id)
    ensures RevisionsOf(rs, n, id) == RevisionsOf(rs, n - 1, id) + if rs[n-1].noteId == id then 1 else 0
    ensures QuestionsOf(rs, n, id) == QuestionsOf(rs, n - 1, id) + QuestionsOf([rs[n-1]], 1, id)
    ensures EdgesOf(rs, n, id) == EdgesOf(rs, n - 1, id) + EdgesOf([rs[n-1]], 1, id)
    ensures rs[n-1].noteId != id ==>
      && StatusAfter(before, rs, n, id) == StatusAfter(before, rs, n - 1, id)
      && QuestionsOf(rs, n, id) == QuestionsOf(rs, n - 1, id) && EdgesOf(rs, n, id) == EdgesOf(rs, n - 1, id)
  {
    var one := [rs[n-1]];
    assert QuestionsOf(one, 0, id) == [] && EdgesOf(one, 0, id) == [];
  }

  lemma OneNoteRevised(n0: Note, n1: Note, n2: Note, rs: seq<Revision>, n: nat, id: NoteId)
    requires 0 < n <= |rs| && RevisedBy(n0, n1, rs, n - 1, id)
    requires if rs[n-1].noteId == id then RevisedBy(n1, n2, [rs[n-1]], 1, id) else n2 == n1
    ensures RevisedBy(n0, n2, rs, n, id)
  {
    OneStep(n0.status, rs, n, id);
    StatusRevised(n0, n1, rs, n - 1, id);
    var one := [rs[n-1]];
    if rs[n-1].noteId == id {
      assert RevisionsOf(one, 1, id) == 1;
      hide RevisedAs, StatusAfter, RevisionsOf, QuestionsOf, EdgesOf;
      RevisedTwice(n0, n1, n2, StatusAfter(n0.status, rs, n - 1, id), RevisionsOf(rs, n - 1, id),
                   QuestionsOf(rs, n - 1, id), EdgesOf(rs, n - 1, id),
                   StatusAfter(n1.status, one, 1, id), 1, QuestionsOf(one, 1, id), EdgesOf(one, 1, id));
    }
  }

  lemma OneMoreRevised(l: Ledger, m: Ledger, rs: seq<Revision>, n: nat)
    requires 0 < n <= |rs| && AllRevised(l, m, rs, n - 1) && m.notes.Keys == l.notes.Keys
    requires
      var r := rs[n-1];
      r.noteId in m.notes && WellFormed(r) && Named(if r.action == Some(Relate) then r.relations else [])
    ensures AllRevised(l, Amended(m, rs[n-1].noteId, EntryOf(rs[n-1]), Next(m.notes[rs[n-1].noteId].payload, rs[n-1])), rs, n)
  {
    var r := rs[n-1];
    var one := [r];
    assert RevisedBy(l.notes[r.noteId], m.notes[r.noteId], rs, n - 1, r.noteId);
    ColumnRevised(l.notes[r.noteId], m.notes[r.noteId], rs, n - 1, r.noteId);
    ReviseOneEffect(m, r);
    var o := Amended(m, r.noteId, EntryOf(r), Next(m.notes[r.noteId].payload, r));
    assert RevisedBy(m.notes[r.noteId], o.notes[r.noteId], one, 1, r.noteId) by {
      assert RevisionsOf(one, 1, r.noteId) == 1;
    }
    hide RevisedBy, RevisedAs, Amended, Next, EntryOf;
    forall id | id in l.notes ensures id in o.notes && RevisedBy(l.notes[id], o.notes[id], rs, n, id) {
      OneNoteRevised(l.notes[id], m.notes[id], o.notes[id], rs, n, id);
    }
  }

  lemma ColumnRevised(n0: Note, n1: Note, rs: seq<Revision>, n: nat, id: NoteId)
    requires n <= |rs| && RevisedBy(n0, n1, rs, n, id)
    ensures n1.status == n1.payload.status
  {
  }

  lemma StatusRevised(n0: Note, n1: Note, rs: seq<Revision>, n: nat, id: NoteId)
    requires n <= |rs|
    requires RevisedBy(n0, n1, rs, n, id)
    ensures n1.status == StatusAfter(n0.status, rs, n, id)
  {
  }

  /** The last of n revisions against the ones before it. */
  lemma LastRevision(h: Host, l: Ledger, m: Ledger, rs: seq<Revision>, n: nat, targets: set<NoteId>, created: seq<NoteId>)
    requires 0 < n <= |rs| && AllRevised(l, m, rs, n - 1) && m.notes.Keys == l.notes.Keys && Consistent(m, targets)
    ensures
      var fits := RevisionFits(h, l.notes.Keys, StatusAfter(CurrentStatus(l, rs[n-1].noteId), rs, n - 1, rs[n-1].noteId),
                               rs[n-1], targets, created);
      && (ReviseOne(h, m, rs[n-1], targets, created).Ok? <==> fits)
      && (!fits ==> ReviseOne(h, m, rs[n-1], targets, created) == Err(NoteRejected))
      && (fits ==> AllRevised(l, ReviseOne(h, m, rs[n-1], targets, created).value, rs, n))
  {
    hide Consistent, ReviseOne, AllRevised, Amended, EntryOf, Next;
    ReviseOneExactly(h, m, rs[n-1], targets, created);
    StatusNow(l, m, rs, n - 1, rs[n-1].noteId);
    SameFit(h, l, m, rs, n, targets, created);
    hide RevisionFits;
    if RevisionFits(h, m.notes.Keys, CurrentStatus(m, rs[n-1].noteId), rs[n-1], targets, created) {
      NamesNote(h, m.notes.Keys, CurrentStatus(m, rs[n-1].noteId), rs[n-1], targets, created);
      OneMoreRevised(l, m, rs, n);
    }
  }

  lemma SameFit(h: Host, l: Ledger, m: Ledger, rs: seq<Revision>, n: nat, targets: set<NoteId>, created: seq<NoteId>)
    requires 0 < n <= |rs| && m.notes.Keys == l.notes.Keys
    requires rs[n-1].noteId in l.notes ==>
      CurrentStatus(m, rs[n-1].noteId) == StatusAfter(CurrentStatus(l, rs[n-1].noteId), rs, n - 1, rs[n-1].noteId)
    ensures RevisionFits(h, m.notes.Keys, CurrentStatus(m, rs[n-1].noteId), rs[n-1], targets, created) <==>
      RevisionFits(h, l.notes.Keys, StatusAfter(CurrentStatus(l, rs[n-1].noteId), rs, n - 1, rs[n-1].noteId),
                   rs[n-1], targets, created)
  {
  }

  /** The revisions of a receipt are accepted exactly when each fits its note as the ones before it leave
      it, and then every note carries exactly the revisions that name it. */
  lemma {:induction false} ReviseAllExactly(h: Host, l: Ledger, rs: seq<Revision>, n: nat, targets: set<NoteId>,
                                            created: seq<NoteId>)
    requires n <= |rs| && Consistent(l, targets)
    ensures ReviseAll(h, l, rs[..n], targets, created).Ok? <==> RevisionsFit(h, l, rs, n, targets, created)
    ensures ReviseAll(h, l, rs[..n], targets, created).Err? ==>
      ReviseAll(h, l, rs[..n], targets, created) == Err(NoteRejected)
    ensures ReviseAll(h, l, rs[..n], targets, created).Ok? ==>
      AllRevised(l, ReviseAll(h, l, rs[..n], targets, created).value, rs, n)
  {
    hide Consistent, ReviseOne, RevisionFits, AllRevised, Grows, CurrentStatus, StatusAfter;
    if n == 0 {
      NoneRevised(l, rs, targets);
    } else {
      assert rs[..n][..n-1] == rs[..n-1];
      ReviseAllExactly(h, l, rs, n - 1, targets, created);
      if ReviseAll(h, l, rs[..n-1], targets, created).Ok? {
        ReviseAllKeeps(h, l, rs[..n-1], targets, created);
        LastRevision(h, l, ReviseAll(h, l, rs[..n-1], targets, created).value, rs, n, targets, created);
      }
    }
  }

  lemma NamesNote(h: Host, known: set<NoteId>, status: Status, r: Revision, targets: set<NoteId>, created: seq<NoteId>)
    requires RevisionFits(h, known, status, r, targets, created)
    ensures r.noteId in known
  {
  }

  lemma StatusNow(l: Ledger, m: Ledger, rs: seq<Revision>, n: nat, id: NoteId)
    requires n <= |rs| && AllRevised(l, m, rs, n) && m.notes.Keys == l.notes.Keys
    ensures id in l.notes ==> CurrentStatus(m, id) == StatusAfter(CurrentStatus(l, id), rs, n, id)
  {
    if id in l.notes {
      StatusRevised(l.notes[id], m.notes[id], rs, n, id);
    }
  }

  // ---- Window receipts ----------------------------------------------------

  /** The notes of the job once the receipt's own creates are in. */
  function Targets(l: Ledger, cs: seq<Create>): set<NoteId> {
    l.notes.Keys + set id | id in CreatedIds(cs)
  }

  ghost predicate DisplayedInScope(h: Host, grants: Grants) {
    forall k :: k in grants ==> grants[k].company == h.company && grants[k].fileHash == h.fileHash
  }

  /** The checks on a receipt before its transaction. */
  ghost predicate ReceiptFits(h: Host, q: WindowRequest) {
    && q.outcome.Some? && q.sha != "" && q.creates.Some? && q.revisions.Some? && DisplayedInScope(h, q.grants)
    && (q.outcome == Some(NoContent) ==> q.creates.value == [] && q.revisions.value == [])
    && (q.outcome == Some(Noted) ==> q.creates.value != [] || q.revisions.value != [])
  }

  /** Everything inside the transaction: distinct new notes that stand, edges to notes of the job, and
      revisions that fit the notes in turn. */
  ghost predicate RowsFit(h: Host, l: Ledger, q: WindowRequest)
    requires q.creates.Some? && q.revisions.Some?
  {
    var cs := q.creates.value;
    && (forall i :: 0 <= i < |cs| ==> CreateFits(h, l.notes.Keys, cs[i], q.candidates, q.grants))
    && (forall i, j :: 0 <= i < j < |cs| ==> cs[i].noteId != cs[j].noteId)
    && (forall i :: 0 <= i < |cs| ==> RelationsFit(h, cs[i].relations, Targets(l, cs) - {cs[i].noteId}))
    && RevisionsFit(h, l, q.revisions.value, |q.revisions.value|, Targets(l, cs), CreatedIds(cs))
  }

  lemma StagedIds(h: Host, ps: seq<Payload>, cs: seq<Create>, candidates: seq<Candidate>, grants: Grants)
    requires |ps| == |cs|
    requires forall i :: 0 <= i < |cs| ==>
      CreateFits(h, {}, cs[i], candidates, grants) && StagedAs(h, ps[i], cs[i], candidates, grants)
    ensures Ids(ps) == CreatedIds(cs)
    ensures forall i :: 0 <= i < |cs| ==> ps[i].noteId == cs[i].noteId
  {
    hide CreateFits, FieldEvidence;
    assert forall i :: 0 <= i < |cs| ==> ps[i].noteId == cs[i].noteId;
  }

  lemma FitsTaken(h: Host, l: Ledger, cs: seq<Create>, candidates: seq<Candidate>, grants: Grants)
    requires forall i :: 0 <= i < |cs| ==> CreateFits(h, l.notes.Keys, cs[i], candidates, grants)
    ensures forall i :: 0 <= i < |cs| ==> cs[i].noteId !in l.notes
  {
  }

  /** The transaction succeeds exactly when its rows fit, and fails as a rejected note unless two of its
      creates share an identifier. */
  lemma RowsExactly(h: Host, l: Ledger, q: WindowRequest)
    requires Inv(l) && q.outcome.Some? && q.creates.Some? && q.revisions.Some?
    ensures WindowRows(h, l, q).Ok? <==> RowsFit(h, l, q)
  {
    hide Consistent, Accounted, CreateFits, StagedAs, Stage, ReviseAll, InsertAll, RelationsFit, RevisionsFit, OnlyAmends, Grows,
      AllRevised;
    var cs, rs := q.creates.value, q.revisions.value;
    StageExactly(h, l.notes, cs, q.candidates, q.grants);
    var staged := Stage(h, l.notes, cs, q.candidates, q.grants);
    if staged.Ok? {
      StagedIds(h, staged.value, cs, q.candidates, q.grants);
      FitsTaken(h, l, cs, q.candidates, q.grants);
      var available := Available(l, Ids(staged.value));
      SameTargets(l, staged.value, cs);
      ConsistentLarger(l, l.notes.Keys, available);
      assert rs[..|rs|] == rs;
      ReviseAllExactly(h, l, rs, |rs|, available, CreatedIds(cs));
      var revised := ReviseAll(h, l, rs, available, CreatedIds(cs));
      if revised.Ok? {
        ReviseAllKeeps(h, l, rs, available, CreatedIds(cs));
        SameKeys(l, revised.value);
        InsertAllExactly(h, revised.value, q.window, q.outcome.value, staged.value, cs, available);
      }
    }
  }

  lemma SameKeys(l: Ledger, m: Ledger)
    requires OnlyAmends(l, m)
    ensures m.notes.Keys == l.notes.Keys
  {
  }

  lemma SameTargets(l: Ledger, ps: seq<Payload>, cs: seq<Create>)
    requires Ids(ps) == CreatedIds(cs)
    ensures Available(l, Ids(ps)) == Targets(l, cs)
  {
  }

  /** A window is recorded exactly once: a fresh receipt is accepted exactly when it and its rows fit and
      the lease holds throughout; a recorded window answers its own key only. */
  lemma WindowAccepted(h: Host, l: Ledger, q: WindowRequest, fence: Fence)
    requires Inv(l)
    ensures WindowSpec(h, l, q, fence).Ok? <==>
      if q.window in l.windows then q.outcome.Some? && q.sha != "" && l.windows[q.window].sha == q.sha
      else ReceiptFits(h, q) && RowsFit(h, l, q) && fence.atStart && fence.atEnd
    ensures q.window !in l.windows && ReceiptFits(h, q) && !fence.atStart ==> WindowSpec(h, l, q, fence) == Err(LeaseLost)
    ensures q.window !in l.windows && !ReceiptFits(h, q) ==> WindowSpec(h, l, q, fence) == Err(NoteRejected)
  {
    hide Inv, WindowRows, RowsFit;
    if q.outcome.Some? && q.creates.Some? && q.revisions.Some? {
      RowsExactly(h, l, q);
    }
  }

  /** The rows of the notes after a committed receipt. */
  ghost predicate NotesCommitted(h: Host, l: Ledger, m: Ledger, q: WindowRequest)
    requires q.outcome.Some? && q.creates.Some? && q.revisions.Some?
  {
    var cs, rs := q.creates.value, q.revisions.value;
    && m.reviews == l.reviews && m.order == l.order + CreatedIds(cs)
    && m.notes.Keys == Targets(l, cs)
    && (forall i :: 0 <= i < |cs| ==>
          && cs[i].noteId in m.notes && CreateFits(h, {}, cs[i], q.candidates, q.grants)
          && CreatedAs(h, m.notes[cs[i].noteId], q.window, q.outcome.value, cs[i], q.candidates, q.grants))
    && (forall id :: id in l.notes ==> id in m.notes && RevisedBy(l.notes[id], m.notes[id], rs, |rs|, id))
  }

  lemma FinalNote(h: Host, n: Note, p: Payload, window: WindowId, outcome: Outcome, c: Create, candidates: seq<Candidate>,
                  grants: Grants)
    requires CreateFits(h, {}, c, candidates, grants) && StagedAs(h, p, c, candidates, grants) && Named(c.relations)
    requires n == Note(window, Final(outcome, p, []).status, 1, Final(outcome, p, KeptAll(c.relations)))
    ensures CreatedAs(h, n, window, outcome, c, candidates, grants)
  {
    hide FieldEvidence, KeptAll;
    KeptEdges(c.relations);
  }

  lemma CreatedNotes(h: Host, l: Ledger, revised: Ledger, q: WindowRequest, staged: seq<Payload>, available: set<NoteId>)
    requires q.outcome.Some? && q.creates.Some? && |staged| == |q.creates.value| && Consistent(revised, available)
    requires forall i :: 0 <= i < |staged| ==>
      && CreateFits(h, {}, q.creates.value[i], q.candidates, q.grants)
      && StagedAs(h, staged[i], q.creates.value[i], q.candidates, q.grants)
    requires InsertAll(h, revised, q.window, q.outcome.value, staged, q.creates.value, available).Ok?
    ensures
      var m := InsertAll(h, revised, q.window, q.outcome.value, staged, q.creates.value, available).value;
      forall i :: 0 <= i < |staged| ==>
        && q.creates.value[i].noteId in m.notes
        && CreatedAs(h, m.notes[q.creates.value[i].noteId], q.window, q.outcome.value, q.creates.value[i], q.candidates,
                     q.grants)
  {
    var cs := q.creates.value;
    var m := InsertAll(h, revised, q.window, q.outcome.value, staged, cs, available).value;
    StagedIds(h, staged, cs, q.candidates, q.grants);
    InsertAllPayloads(h, revised, q.window, q.outcome.value, staged, cs, available);
    hide Consistent, CreateFits, StagedAs, CreatedAs, InsertAll, RelationsOk, Final, KeptAll;
    forall i | 0 <= i < |staged|
      ensures cs[i].noteId in m.notes
      ensures CreatedAs(h, m.notes[cs[i].noteId], q.window, q.outcome.value, cs[i], q.candidates, q.grants)
    {
      FinalNote(h, m.notes[cs[i].noteId], staged[i], q.window, q.outcome.value, cs[i], q.candidates, q.grants);
    }
  }

  lemma RowsCommitted(h: Host, l: Ledger, q: WindowRequest)
    requires Inv(l) && q.outcome.Some? && q.creates.Some? && q.revisions.Some? && WindowRows(h, l, q).Ok?
    ensures NotesCommitted(h, l, WindowRows(h, l, q).value.0, q)
    ensures
      var (m, receipt) := WindowRows(h, l, q).value;
      var cs, rs := q.creates.value, q.revisions.value;
      && receipt == WindowReceipt(q.window, q.outcome.value, CreatedIds(cs), seq(|rs|, i requires 0 <= i < |rs| => rs[i].noteId))
      && m.windows == l.windows[q.window := StoredWindow(q.sha, receipt)]
  {
    hide Consistent, Accounted, CreateFits, StagedAs, CreatedAs, Stage, ReviseAll, InsertAll, RelationsFit, RevisionsFit, Grows,
      AllRevised, RevisedBy;
    var cs, rs := q.creates.value, q.revisions.value;
    StageExactly(h, l.notes, cs, q.candidates, q.grants);
    var staged := Stage(h, l.notes, cs, q.candidates, q.grants).value;
    StagedIds(h, staged, cs, q.candidates, q.grants);
    var available := Available(l, Ids(staged));
    SameTargets(l, staged, cs);
    ConsistentLarger(l, l.notes.Keys, available);
    assert rs[..|rs|] == rs;
    ReviseAllExactly(h, l, rs, |rs|, available, CreatedIds(cs));
    ReviseAllKeeps(h, l, rs, available, CreatedIds(cs));
    var revised := ReviseAll(h, l, rs, available, CreatedIds(cs)).value;
    InsertAllKeeps(h, revised, q.window, q.outcome.value, staged, cs, available);
    CreatedNotes(h, l, revised, q, staged, available);
    var inserted := InsertAll(h, revised, q.window, q.outcome.value, staged, cs, available).value;
    RevisedStays(l, revised, inserted, rs, q.window, CreatedIds(cs));
    assert RevisedIds(rs) == seq(|rs|, i requires 0 <= i < |rs| => rs[i].noteId);
  }

  /** Inserting the creates leaves the revised notes alone. */
  lemma RevisedStays(l: Ledger, revised: Ledger, inserted: Ledger, rs: seq<Revision>, window: WindowId, ids: seq<NoteId>)
    requires AllRevised(l, revised, rs, |rs|) && OnlyAmends(l, revised) && Inserted(revised, inserted, window, ids)
    ensures forall id :: id in l.notes ==> id in inserted.notes && RevisedBy(l.notes[id], inserted.notes[id], rs, |rs|, id)
    ensures inserted.reviews == l.reviews && inserted.order == l.order + ids && inserted.windows == l.windows
    ensures forall id :: id in inserted.notes <==> id in l.notes || id in ids
  {
    hide RevisedBy;
  }

  ghost predicate NewAudits(m: Ledger, cs: seq<Create>) {
    forall i :: 0 <= i < |cs| ==>
      cs[i].noteId in m.notes && Audit(m, cs[i].noteId) == [AuditRow(1, Created(m.notes[cs[i].noteId].payload))]
  }

  /** The tables after a committed receipt, and the receipt. */
  ghost predicate Committed(h: Host, l: Ledger, q: WindowRequest, m: Ledger, receipt: WindowReceipt) {
    && q.outcome.Some? && q.creates.Some? && q.revisions.Some?
    && var rs := q.revisions.value;
       && receipt == WindowReceipt(q.window, q.outcome.value, CreatedIds(q.creates.value),
                                   seq(|rs|, i requires 0 <= i < |rs| => rs[i].noteId))
       && m.windows == l.windows[q.window := StoredWindow(q.sha, receipt)]
       && NotesCommitted(h, l, m, q) && NewAudits(m, q.creates.value)
  }

  /** What a fresh receipt commits. Every create becomes one new note, in order, open when the window is
      unresolved and otherwise with the status it listed (verified when it listed none), with the fact,
      the quote and the re-verified witnesses of its candidate, its own edges, questions and hint, and one
      create row. Every note that was there carries exactly the revisions that name it. The receipt is
      stored under the request key, and nothing else changes. */
  lemma WindowCommitted(h: Host, l: Ledger, q: WindowRequest, fence: Fence)
    requires Inv(l) && q.window !in l.windows
    ensures WindowSpec(h, l, q, fence).Ok? ==>
      Committed(h, l, q, WindowSpec(h, l, q, fence).value.0, WindowSpec(h, l, q, fence).value.1)
  {
    hide Inv, WindowRows, NotesCommitted, NewAudits, InScope;
    if WindowSpec(h, l, q, fence).Ok? {
      RowsCommitted(h, l, q);
      WindowKeeps(h, l, q, fence);
      CommittedAreNew(h, l, q, WindowSpec(h, l, q, fence).value.0);
    }
  }

  lemma CommittedAreNew(h: Host, l: Ledger, q: WindowRequest, m: Ledger)
    requires q.outcome.Some? && q.creates.Some? && q.revisions.Some? && Inv(m) && NotesCommitted(h, l, m, q)
    ensures NewAudits(m, q.creates.value)
  {
    hide Inv, CreateFits, RevisedBy, FieldEvidence;
    var cs := q.creates.value;
    forall i | 0 <= i < |cs|
      ensures cs[i].noteId in m.notes
      ensures Audit(m, cs[i].noteId) == [AuditRow(1, Created(m.notes[cs[i].noteId].payload))]
    {
      assert m.notes[cs[i].noteId].rev == 1;
      NewAudit(m, cs[i].noteId);
    }
  }

  /** A note at revision 1 has its create row and no other. */
  lemma NewAudit(m: Ledger, id: NoteId)
    requires Inv(m) && id in m.notes && m.notes[id].rev == 1
    ensures Audit(m, id) == [AuditRow(1, Created(m.notes[id].payload))]
  {
    NoteOf(m, id, m.notes.Keys);
    var rows := Audit(m, id);
    assert rows[..0] == [];
  }

  // ---- Review decisions ---------------------------------------------------

  /** New edges of a review: they fit, lead to other notes of the job, and are not stored yet. */
  ghost predicate NewEdgesFit(h: Host, l: Ledger, p: Payload, rs: seq<RawRelation>) {
    && RelationsFit(h, rs, l.notes.Keys - {p.noteId})
    && forall i, j :: 0 <= i < |rs| && 0 <= j < |p.relations| ==>
         rs[i].rel != Some(p.relations[j].rel) || rs[i].to != p.relations[j].to
  }

  lemma NewEdgesExactly(h: Host, l: Ledger, p: Payload, rs: seq<RawRelation>)
    ensures NewEdgesFit(h, l, p, rs) ==> Named(rs) && ReviewRelations(h, l, p, rs) == Ok(KeptAll(rs))
    ensures !NewEdgesFit(h, l, p, rs) ==> ReviewRelations(h, l, p, rs) == Err(NoteRejected)
  {
    RelationsExactly(h, rs, l.notes.Keys - {p.noteId});
    hide RelationsFit, ValidateRelations;
    if RelationsFit(h, rs, l.notes.Keys - {p.noteId}) {
      var added := KeptAll(rs);
      assert forall i :: 0 <= i < |rs| ==> added[i].rel == rs[i].rel.value && added[i].to == rs[i].to;
      if i, j :| 0 <= i < |rs| && 0 <= j < |p.relations|
                 && !(rs[i].rel != Some(p.relations[j].rel) || rs[i].to != p.relations[j].to) {
        assert added[i].rel == p.relations[j].rel && added[i].to == p.relations[j].to;
      }
    }
  }

  /** A replacement fact the review accepts: every required field present, a known period, and the note's
      own quote and the submitted witnesses standing in what was displayed. */
  ghost predicate FactStands(h: Host, p: Payload, q: ReviewRequest) {
    && q.fact.Some?
    && var f := q.fact.value;
       && !IsBlank(f.entity) && !IsBlank(f.attribute) && !IsBlank(f.period) && !IsBlank(f.value) && !IsBlank(f.valueType)
       && f.period !in {"", "unknown", "unspecified", "未知"}
       && p.primary.grantId in q.grants
       && var g := q.grants[p.primary.grantId];
          && p.primary.fileHash == g.fileHash && p.primary.fingerprint == g.fingerprint
          && p.primary.sourceLoc == g.sourceLoc && p.primary.originalName == g.originalName
          && Verbatim(g.lines, p.primary.start, p.primary.end, p.primary.quote)
          && FieldEvidence(f, p.primary.quote, q.witnesses, g, q.grants, h.company).Some?
  }

  /** A decision that fits the note as it stands. */
  ghost predicate DecisionFits(h: Host, l: Ledger, q: ReviewRequest)
    requires q.action.Some? && q.noteId in l.notes
  {
    var n := l.notes[q.noteId];
    match q.action.value
    case Confirmed => n.status == Verified
    case AddRelations => q.relations != [] && NewEdgesFit(h, l, n.payload, q.relations)
    case MarkNeedsCheck => true
    case Reject => true
    case ReviseFact => FactStands(h, n.payload, q) && (q.relations != [] ==> NewEdgesFit(h, l, n.payload, q.relations))
  }

  lemma RevisedExactly(h: Host, l: Ledger, p: Payload, q: ReviewRequest)
    ensures Revised(h, l, p, q).Ok? <==> FactStands(h, p, q) && (q.relations != [] ==> NewEdgesFit(h, l, p, q.relations))
    ensures Revised(h, l, p, q).Err? ==> Revised(h, l, p, q) == Err(NoteRejected)
    ensures Revised(h, l, p, q).Ok? ==>
      var r := Revised(h, l, p, q).value;
      && r == p.(status := Verified, fact := q.fact.value, proofs := r.proofs, relations := r.relations)
      && Some(r.proofs) == FieldEvidence(q.fact.value, p.primary.quote, q.witnesses, q.grants[p.primary.grantId], q.grants,
                                         h.company)
      && p.relations <= r.relations && SameEdges(r.relations[|p.relations|..], q.relations)
  {
    NewEdgesExactly(h, l, p, q.relations);
    if NewEdgesFit(h, l, p, q.relations) {
      RelationsExactly(h, q.relations, l.notes.Keys - {p.noteId});
      KeptEdges(q.relations);
      assert (p.relations + KeptAll(q.relations))[|p.relations|..] == KeptAll(q.relations);
    }
    assert p.relations + [] == p.relations && p.relations[|p.relations|..] == [];
    hide FieldEvidence, Verbatim, NewEdgesFit, ReviewRelations, KeptAll;
  }

  /** The note and the audit entry that an accepted decision leaves. */
  ghost predicate DecidedAs(h: Host, l: Ledger, q: ReviewRequest, m: Note, entries: seq<Entry>)
    requires q.action.Some? && q.noteId in l.notes
  {
    var n := l.notes[q.noteId];
    && m.window == n.window && m.rev == n.rev + |entries| && m.status == m.payload.status
    && match q.action.value
       case Confirmed => m == n && entries == []
       case MarkNeedsCheck => m.payload == n.payload.(status := NeedsCheck) && entries == [StatusSet(NeedsCheck, q.reason)]
       case Reject => m.payload == n.payload.(status := Rejected) && entries == [StatusSet(Rejected, q.reason)]
       case AddRelations =>
         && m.payload == n.payload.(relations := m.payload.relations) && n.payload.relations <= m.payload.relations
         && SameEdges(m.payload.relations[|n.payload.relations|..], q.relations)
         && |entries| == 1 && entries[0].EdgesAdded? && entries[0].reason == q.reason
         && Named(entries[0].relations) && KeptAll(entries[0].relations) == m.payload.relations[|n.payload.relations|..]
       case ReviseFact =>
         && FactStands(h, n.payload, q)
         && m.payload == n.payload.(status := Verified, fact := q.fact.value, proofs := m.payload.proofs,
                                    relations := m.payload.relations)
         && Some(m.payload.proofs) == FieldEvidence(q.fact.value, n.payload.primary.quote, q.witnesses,
                                                    q.grants[n.payload.primary.grantId], q.grants, h.company)
         && n.payload.relations <= m.payload.relations
         && SameEdges(m.payload.relations[|n.payload.relations|..], q.relations)
         && entries == [FactRevised(n.payload, m.payload, q.reason)]
  }

  /** The entry and the payload of a decision are exactly those of its action. */
  lemma DecideExactly(h: Host, l: Ledger, q: ReviewRequest)
    requires q.action.Some? && q.noteId in l.notes && l.notes[q.noteId].status == l.notes[q.noteId].payload.status
    ensures Decide(h, l, q).Ok? <==> DecisionFits(h, l, q)
    ensures Decide(h, l, q).Err? ==> Decide(h, l, q) == Err(NoteRejected)
    ensures Decide(h, l, q).Ok? ==>
      var d := Decide(h, l, q).value;
      DecidedAs(h, l, q, Decided(l, q, d).notes[q.noteId], if d.None? then [] else [d.value.0])
  {
    var p := l.notes[q.noteId].payload;
    match q.action.value
    case AddRelations =>
      NewEdgesExactly(h, l, p, q.relations);
      if NewEdgesFit(h, l, p, q.relations) {
        RelationsExactly(h, q.relations, l.notes.Keys - {p.noteId});
        KeptEdges(q.relations);
        RawRoundTrip(KeptAll(q.relations));
        assert (p.relations + KeptAll(q.relations))[|p.relations|..] == KeptAll(q.relations);
      }
      hide NewEdgesFit, ReviewRelations, KeptAll, AsRawAll;
    case ReviseFact =>
      RevisedExactly(h, l, p, q);
      hide Revised, FactStands, NewEdgesFit;
    case _ =>
  }

  /** The checks on a decision before its note is looked at. */
  ghost predicate DecisionShaped(h: Host, q: ReviewRequest) {
    && q.action.Some? && q.sha != "" && q.round >= 1 && TextFits(q.reason)
    && |q.grants| > 0 && DisplayedInScope(h, q.grants)
  }

  lemma ShapedExactly(h: Host, q: ReviewRequest)
    ensures ReviewShapeOk(h, q) <==> DecisionShaped(h, q)
  {
  }

  lemma DecidesExactly(h: Host, l: Ledger, q: ReviewRequest)
    requires Inv(l) && q.action.Some? && q.noteId in l.notes
    ensures Decide(h, l, q).Ok? <==> DecisionFits(h, l, q)
    ensures Decide(h, l, q).Err? ==> Decide(h, l, q) == Err(NoteRejected)
  {
    StatusColumn(l, q.noteId);
    DecideExactly(h, l, q);
  }

  /** The last round of the note, submitted again under its own key. */
  predicate LastAgain(l: Ledger, q: ReviewRequest) {
    var rounds := Reviews(l, q.noteId);
    rounds != [] && q.round == |rounds| && q.sha == rounds[|rounds|-1].sha
  }

  /** A decision is accepted exactly for a note of the job that is not rejected, with the lease held: as
      the next round when it fits the note, and as the last round again under that round's own key. */
  lemma ReviewAccepted(h: Host, l: Ledger, q: ReviewRequest, fence: Fence)
    requires Inv(l)
    ensures ReviewSpec(h, l, q, fence).Ok? <==>
      && DecisionShaped(h, q) && fence.atStart && q.noteId in l.notes && l.notes[q.noteId].status != Rejected
      && (LastAgain(l, q) || (q.round == |Reviews(l, q.noteId)| + 1 && DecisionFits(h, l, q) && fence.atEnd))
  {
    ShapedExactly(h, q);
    ReviewRounds(h, l, q, fence);
    if q.action.Some? && q.noteId in l.notes {
      DecidesExactly(h, l, q);
    }
    hide Inv, Decide, DecisionFits, Reviews, ReviewSpec, ReviewShapeOk;
  }

  /** A new round that does not fit is refused as a rejected note, and one without the lease as a lost
      lease. */
  lemma ReviewRefused(h: Host, l: Ledger, q: ReviewRequest, fence: Fence)
    requires Inv(l) && DecisionShaped(h, q)
    ensures !fence.atStart ==> ReviewSpec(h, l, q, fence) == Err(LeaseLost)
    ensures fence.atStart && q.noteId in l.notes && q.round == |Reviews(l, q.noteId)| + 1
            && (l.notes[q.noteId].status == Rejected || !DecisionFits(h, l, q)) ==>
      ReviewSpec(h, l, q, fence) == Err(NoteRejected)
  {
    ShapedExactly(h, q);
    RoundsOf(l, q.noteId);
    if q.noteId in l.notes {
      DecidesExactly(h, l, q);
    }
    hide Inv, Decide, DecisionFits, Reviews, LastRound, DecisionShaped, ReviewShapeOk;
  }

  /** The tables after a new round, and its receipt. */
  ghost predicate ReviewedAs(h: Host, l: Ledger, q: ReviewRequest, m: Ledger, receipt: ReviewReceipt) {
    var id := q.noteId;
    && q.action.Some? && id in l.notes && id in m.notes
    && receipt == ReviewReceipt(id, q.round, q.action.value, m.notes[id].rev, m.notes[id].status)
    && Reviews(m, id) == Reviews(l, id) + [StoredReview(q.round, q.sha, receipt)]
    && Audit(l, id) <= Audit(m, id)
    && DecidedAs(h, l, q, m.notes[id], Entries(Audit(m, id)[|Audit(l, id)|..]))
  }

  /** What a new round commits to its note: the note, its audit and its receipts are exactly those of the
      decision as submitted. Together with ReviewIsolated this is the whole ledger. */
  lemma ReviewCommitted(h: Host, l: Ledger, q: ReviewRequest, fence: Fence)
    requires Inv(l) && q.round == |Reviews(l, q.noteId)| + 1
    ensures ReviewSpec(h, l, q, fence).Ok? ==>
      ReviewedAs(h, l, q, ReviewSpec(h, l, q, fence).value.0, ReviewSpec(h, l, q, fence).value.1)
  {
    RoundsOf(l, q.noteId);
    if ReviewSpec(h, l, q, fence).Ok? {
      ReviewRowsOutcome(h, l, q);
      StatusColumn(l, q.noteId);
      DecideExactly(h, l, q);
      var d := Decide(h, l, q).value;
      hide Inv, Decide, DecidedAs, ReviewRows, Grows, Consistent;
      DecidedRows(l, q, d, ReviewSpec(h, l, q, fence).value.0, ReviewSpec(h, l, q, fence).value.1);
    }
  }

  lemma DecidedRows(l: Ledger, q: ReviewRequest, d: Option<(Entry, Payload)>, m: Ledger, receipt: ReviewReceipt)
    requires q.noteId in l.notes && receipt.noteId == q.noteId
    requires m == WithReview(Decided(l, q, d), StoredReview(q.round, q.sha, receipt))
    ensures q.noteId in m.notes && m.notes == Decided(l, q, d).notes
    ensures Reviews(m, q.noteId) == Reviews(l, q.noteId) + [StoredReview(q.round, q.sha, receipt)]
    ensures Audit(l, q.noteId) <= Audit(m, q.noteId)
    ensures Entries(Audit(m, q.noteId)[|Audit(l, q.noteId)|..]) == if d.None? then [] else [d.value.0]
  {
    if d.Some? {
      assert Audit(m, q.noteId)[|Audit(l, q.noteId)|..] == [AuditRow(l.notes[q.noteId].rev + 1, d.value.0)];
    } else {
      assert Audit(m, q.noteId)[|Audit(l, q.noteId)|..] == [];
    }
  }
}
