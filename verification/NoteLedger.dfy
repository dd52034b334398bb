/** The note ledger of one reading job (NoteStore in app/document_read/notes.py): tables,
    the rules of one window receipt and of one review decision, and the ledger invariant. */
module NoteLedger {
  import opened Wrappers
  import opened Text
  import opened Evidence

  type NoteId = string
  /** The number of a window; the source writes it in decimal. */
  type WindowId = int

  datatype Status = Verified | NeedsCheck | Rejected
  datatype Kind = SameFact | SameMetricDiffPeriod | ConflictsWith | Supports | Related
  datatype Relation = Relation(rel: Kind, to: NoteId, reason: string)

  datatype Payload = Payload(noteId: NoteId, status: Status, fact: Fact, primary: Primary, proofs: seq<Proof>,
                             relations: seq<Relation>, questions: seq<string>, topicHint: Option<string>)

  datatype Note = Note(window: WindowId, status: Status, rev: int, payload: Payload)

  // ---- Requests -----------------------------------------------------------

  /** A submitted relation; an unlisted kind is None, and `extra` holds its other keys. */
  datatype RawRelation = RawRelation(rel: Option<Kind>, to: NoteId, reason: string, extra: seq<string>)

  datatype CreateStatus = Omitted | Listed(status: Status) | Unlisted

  /** `forbidden`: the create carries a fact field or a leaf key. */
  datatype Create = Create(noteId: NoteId, index: Option<int>, forbidden: bool, status: CreateStatus,
                           topicHint: Option<string>, questions: seq<string>, relations: seq<RawRelation>)

  datatype RevisionAction = UpdateStatus | Relate | Question

  datatype Revision = Revision(noteId: NoteId, action: Option<RevisionAction>, reason: string,
                               status: Option<Status>, relations: seq<RawRelation>, questions: seq<string>)

  datatype Candidate = Candidate(grantId: GrantId, fact: Fact, quote: string, sourceLoc: string,
                                 start: int, end: int, proofs: seq<Proof>)

  datatype Outcome = Noted | NoContent | Unresolved

  /** Lists that are not arrays, and an unlisted outcome, are None. */
  datatype WindowRequest = WindowRequest(window: WindowId, outcome: Option<Outcome>, creates: Option<seq<Create>>,
                                         revisions: Option<seq<Revision>>, grants: Grants,
                                         candidates: seq<Candidate>, sha: string)

  datatype ReviewAction = Confirmed | ReviseFact | AddRelations | MarkNeedsCheck | Reject

  /** A replacement fact that is not complete is None. */
  datatype ReviewRequest = ReviewRequest(noteId: NoteId, action: Option<ReviewAction>, reason: string, round: int,
                                         sha: string, grants: Grants, fact: Option<Fact>,
                                         witnesses: seq<Witness>, relations: seq<RawRelation>)

  // ---- Tables -------------------------------------------------------------

  /** What an audit row records besides its revision number. */
  datatype Entry =
    | Created(payload: Payload)
    | StatusSet(status: Status, reason: string)
    | EdgesAdded(relations: seq<RawRelation>, reason: string)
    | Asked(questions: seq<string>, reason: string)
    | FactRevised(before: Payload, after: Payload, reason: string)

  datatype AuditRow = AuditRow(rev: int, entry: Entry)

  datatype WindowReceipt = WindowReceipt(window: WindowId, outcome: Outcome, created: seq<NoteId>, revised: seq<NoteId>)
  datatype StoredWindow = StoredWindow(sha: string, receipt: WindowReceipt)

  datatype ReviewReceipt = ReviewReceipt(noteId: NoteId, round: int, action: ReviewAction, rev: int, status: Status)
  datatype StoredReview = StoredReview(round: int, sha: string, receipt: ReviewReceipt)

  /** `order` is the rowid order of the notes. */
  datatype Ledger = Ledger(order: seq<NoteId>, notes: map<NoteId, Note>, audit: map<NoteId, seq<AuditRow>>,
                           windows: map<WindowId, StoredWindow>, reviews: map<NoteId, seq<StoredReview>>)

  const EMPTY := Ledger([], map[], map[], map[], map[])

  datatype Refusal = NoteRejected | IntegrityError | LeaseLost

  /** The scope the store was opened for. */
  datatype Host = Host(company: string, fileHash: string, fingerprint: string, isIdentifier: string -> bool)

  /** Whether the job lease still holds at the first and at the last check of a transaction. */
  datatype Fence = Fence(atStart: bool, atEnd: bool)

  function Audit(l: Ledger, id: NoteId): seq<AuditRow> {
    if id in l.audit then l.audit[id] else []
  }

  function Reviews(l: Ledger, id: NoteId): seq<StoredReview> {
    if id in l.reviews then l.reviews[id] else []
  }

  // ---- Shared field rules -------------------------------------------------

  predicate BoundedReason(s: string) {
    !IsBlank(s) && |s| <= 2000
  }

  predicate QuestionsOk(qs: seq<string>) {
    |qs| <= 32 && forall i :: 0 <= i < |qs| ==> BoundedReason(qs[i])
  }

  predicate InScope(h: Host, grants: Grants) {
    forall k :: k in grants ==> grants[k].company == h.company && grants[k].fileHash == h.fileHash
  }

  predicate RelationOk(h: Host, r: RawRelation, available: set<NoteId>) {
    r.rel.Some? && h.isIdentifier(r.to) && r.to in available && BoundedReason(r.reason)
  }

  function Kept(r: RawRelation): Relation
    requires r.rel.Some?
  {
    Relation(r.rel.value, r.to, r.reason)
  }

  predicate Named(rs: seq<RawRelation>) {
    forall i :: 0 <= i < |rs| ==> rs[i].rel.Some?
  }

  function KeptAll(rs: seq<RawRelation>): seq<Relation>
    requires Named(rs)
  {
    seq(|rs|, i requires 0 <= i < |rs| => Kept(rs[i]))
  }

  predicate SameEdge(a: RawRelation, b: RawRelation) {
    a.rel == b.rel && a.to == b.to
  }

  predicate RelationsOk(h: Host, rs: seq<RawRelation>, available: set<NoteId>) {
    && |rs| <= 32
    && (forall i :: 0 <= i < |rs| ==> RelationOk(h, rs[i], available))
    && (forall i, j :: 0 <= i < j < |rs| ==> !SameEdge(rs[i], rs[j]))
  }

  function ValidateRelations(h: Host, rs: seq<RawRelation>, available: set<NoteId>): Result<seq<Relation>, Refusal> {
    if RelationsOk(h, rs, available) then Ok(KeptAll(rs)) else Err(NoteRejected)
  }

  // ---- The audit as the history of a payload ------------------------------

  /** The effect an audit row records. */
  function Apply(p: Option<Payload>, e: Entry): Option<Payload> {
    match e
    case Created(payload) => if p.None? then Some(payload) else None
    case FactRevised(_, after, _) => if p.Some? then Some(after) else None
    case StatusSet(status, _) => if p.Some? then Some(p.value.(status := status)) else None
    case EdgesAdded(rs, _) =>
      if p.Some? && Named(rs) then Some(p.value.(relations := p.value.relations + KeptAll(rs))) else None
    case Asked(qs, _) => if p.Some? then Some(p.value.(questions := p.value.questions + qs)) else None
  }

  /** The payload that the audit rows rebuild. */
  function Fold(rows: seq<AuditRow>): Option<Payload> {
    if rows == [] then None else Apply(Fold(rows[..|rows|-1]), rows[|rows|-1].entry)
  }

  // ---- Writing one note ---------------------------------------------------

  /** UPDATE of the note and INSERT of its next audit row. */
  function Amend(l: Ledger, id: NoteId, e: Entry, p: Payload): Result<Ledger, Refusal>
    requires id in l.notes
  {
    var next := l.notes[id].rev + 1;
    if exists i :: 0 <= i < |Audit(l, id)| && Audit(l, id)[i].rev == next then Err(IntegrityError)
    else Ok(l.(notes := l.notes[id := l.notes[id].(status := p.status, rev := next, payload := p)],
               audit := l.audit[id := Audit(l, id) + [AuditRow(next, e)]]))
  }

  /** INSERT of a note and of its create row. */
  function Admit(l: Ledger, window: WindowId, p: Payload): Result<Ledger, Refusal> {
    if p.noteId in l.notes then Err(IntegrityError)
    else if exists i :: 0 <= i < |Audit(l, p.noteId)| && Audit(l, p.noteId)[i].rev == 1 then Err(IntegrityError)
    else Ok(l.(order := l.order + [p.noteId],
               notes := l.notes[p.noteId := Note(window, p.status, 1, p)],
               audit := l.audit[p.noteId := Audit(l, p.noteId) + [AuditRow(1, Created(p))]]))
  }

  // ---- Window receipts ----------------------------------------------------

  function PrimaryOf(c: Candidate, g: Grant): Primary {
    Primary(c.grantId, g.fileHash, g.fingerprint, g.originalName, c.sourceLoc, c.start, c.end, c.quote)
  }

  predicate CandidateIn(c: Create, candidates: seq<Candidate>, grants: Grants) {
    && c.index.Some? && 0 <= c.index.value < |candidates|
    && candidates[c.index.value].grantId in grants
  }

  /** The normalized proofs go back through the guard they came from. */
  function ReverifiedProofs(h: Host, c: Candidate, grants: Grants): Option<seq<Proof>>
    requires c.grantId in grants
  {
    if |c.proofs| > 3 || exists i :: 0 <= i < |c.proofs| && c.proofs[i].grantId !in grants then None
    else FieldEvidence(c.fact, c.quote, AsWitnesses(c.proofs), grants[c.grantId], grants, h.company)
  }

  function StatusOf(s: CreateStatus): Status {
    match s
    case Listed(status) => status
    case _ => Verified
  }

  /** _candidate_for and _build_payload. */
  function BuildPayload(h: Host, notes: map<NoteId, Note>, c: Create, candidates: seq<Candidate>,
                        grants: Grants): Result<Payload, Refusal> {
    if c.forbidden || !CandidateIn(c, candidates, grants) || !h.isIdentifier(c.noteId) || c.noteId in notes
       || c.status.Unlisted? || c.status == Listed(Rejected)
       || (c.topicHint.Some? && !BoundedReason(c.topicHint.value)) || !QuestionsOk(c.questions)
    then Err(NoteRejected)
    else
      var candidate := candidates[c.index.value];
      var grant := grants[candidate.grantId];
      match ReverifiedProofs(h, candidate, grants)
      case None => Err(NoteRejected)
      case Some(proofs) =>
        if !PrimaryAccepted(PrimaryOf(candidate, grant), grant) then Err(NoteRejected)
        else Ok(Payload(c.noteId, StatusOf(c.status), candidate.fact, PrimaryOf(candidate, grant), proofs,
                        [], c.questions, c.topicHint))
  }

  function Stage(h: Host, notes: map<NoteId, Note>, cs: seq<Create>, candidates: seq<Candidate>,
                 grants: Grants): (r: Result<seq<Payload>, Refusal>)
    ensures r.Ok? ==> |r.value| == |cs|
  {
    if cs == [] then Ok([])
    else
      var before :- Stage(h, notes, cs[..|cs|-1], candidates, grants);
      var p :- BuildPayload(h, notes, cs[|cs|-1], candidates, grants);
      Ok(before + [p])
  }

  function Ids(ps: seq<Payload>): seq<NoteId> {
    seq(|ps|, i requires 0 <= i < |ps| => ps[i].noteId)
  }

  function ReviseOne(h: Host, l: Ledger, r: Revision, available: set<NoteId>,
                     created: seq<NoteId>): Result<Ledger, Refusal> {
    if !h.isIdentifier(r.noteId) || r.action.None? || r.noteId in created || r.noteId !in l.notes
       || l.notes[r.noteId].status == Rejected || !BoundedReason(r.reason)
    then Err(NoteRejected)
    else
      var p := l.notes[r.noteId].payload;
      match r.action.value
      case UpdateStatus =>
        if r.status.None? then Err(NoteRejected)
        else Amend(l, r.noteId, StatusSet(r.status.value, r.reason), p.(status := r.status.value))
      case Relate =>
        var added :- ValidateRelations(h, r.relations, available);
        Amend(l, r.noteId, EdgesAdded(r.relations, r.reason), p.(relations := p.relations + added))
      case Question =>
        if !QuestionsOk(r.questions) then Err(NoteRejected)
        else Amend(l, r.noteId, Asked(r.questions, r.reason), p.(questions := p.questions + r.questions))
  }

  function ReviseAll(h: Host, l: Ledger, rs: seq<Revision>, available: set<NoteId>,
                     created: seq<NoteId>): Result<Ledger, Refusal> {
    if rs == [] then Ok(l)
    else
      var m :- ReviseAll(h, l, rs[..|rs|-1], available, created);
      ReviseOne(h, m, rs[|rs|-1], available, created)
  }

  /** An unresolved window cannot present its notes as verified. */
  function InsertOne(h: Host, l: Ledger, window: WindowId, outcome: Outcome, p: Payload, rs: seq<RawRelation>,
                     available: set<NoteId>): Result<Ledger, Refusal> {
    var relations :- ValidateRelations(h, rs, available - {p.noteId});
    Admit(l, window, p.(status := if outcome == Unresolved then NeedsCheck else p.status, relations := relations))
  }

  function InsertAll(h: Host, l: Ledger, window: WindowId, outcome: Outcome, ps: seq<Payload>, cs: seq<Create>,
                     available: set<NoteId>): Result<Ledger, Refusal>
    requires |ps| == |cs|
  {
    if ps == [] then Ok(l)
    else
      var n := |ps| - 1;
      var m :- InsertAll(h, l, window, outcome, ps[..n], cs[..n], available);
      InsertOne(h, m, window, outcome, ps[n], cs[n].relations, available)
  }

  /** The checks made before the transaction opens. */
  predicate WindowShapeOk(h: Host, q: WindowRequest) {
    && InScope(h, q.grants) && q.creates.Some? && q.revisions.Some?
    && (q.outcome == Some(NoContent) ==> q.creates.value == [] && q.revisions.value == [])
    && (q.outcome == Some(Noted) ==> q.creates.value != [] || q.revisions.value != [])
  }

  function RevisedIds(rs: seq<Revision>): seq<NoteId> {
    seq(|rs|, i requires 0 <= i < |rs| => rs[i].noteId)
  }

  function Available(l: Ledger, created: seq<NoteId>): set<NoteId> {
    l.notes.Keys + set i | 0 <= i < |created| :: created[i]
  }

  /** The transaction: stage the creates, revise, insert, record the receipt. */
  function WindowRows(h: Host, l: Ledger, q: WindowRequest): Result<(Ledger, WindowReceipt), Refusal>
    requires q.outcome.Some? && q.creates.Some? && q.revisions.Some?
  {
    var staged :- Stage(h, l.notes, q.creates.value, q.candidates, q.grants);
    var created := Ids(staged);
    var revised :- ReviseAll(h, l, q.revisions.value, Available(l, created), created);
    var inserted :- InsertAll(h, revised, q.window, q.outcome.value, staged, q.creates.value, Available(l, created));
    var receipt := WindowReceipt(q.window, q.outcome.value, created, RevisedIds(q.revisions.value));
    Ok((inserted.(windows := inserted.windows[q.window := StoredWindow(q.sha, receipt)]), receipt))
  }

  function WindowSpec(h: Host, l: Ledger, q: WindowRequest, fence: Fence): Result<(Ledger, WindowReceipt), Refusal> {
    if q.outcome.None? || q.sha == "" then Err(NoteRejected)
    else if q.window in l.windows then
      if l.windows[q.window].sha != q.sha then Err(NoteRejected) else Ok((l, l.windows[q.window].receipt))
    else if !WindowShapeOk(h, q) then Err(NoteRejected)
    else if !fence.atStart then Err(LeaseLost)
    else
      var done :- WindowRows(h, l, q);
      if !fence.atEnd then Err(LeaseLost) else Ok(done)
  }

  // ---- Review decisions ---------------------------------------------------

  function AsRaw(r: Relation): RawRelation {
    RawRelation(Some(r.rel), r.to, r.reason, [])
  }

  function AsRawAll(rs: seq<Relation>): seq<RawRelation> {
    seq(|rs|, i requires 0 <= i < |rs| => AsRaw(rs[i]))
  }

  /** Review edges must be new, and lead to another existing note. */
  function ReviewRelations(h: Host, l: Ledger, p: Payload, rs: seq<RawRelation>): Result<seq<Relation>, Refusal> {
    var added :- ValidateRelations(h, rs, l.notes.Keys - {p.noteId});
    if exists i, j :: 0 <= i < |added| && 0 <= j < |p.relations|
                      && added[i].rel == p.relations[j].rel && added[i].to == p.relations[j].to
    then Err(NoteRejected)
    else Ok(added)
  }

  predicate FactComplete(f: Fact) {
    !IsBlank(f.entity) && !IsBlank(f.attribute) && !IsBlank(f.period) && !IsBlank(f.value) && !IsBlank(f.valueType)
  }

  /** The revised payload of a revise_fact decision. */
  function Revised(h: Host, l: Ledger, p: Payload, q: ReviewRequest): Result<Payload, Refusal> {
    if q.fact.None? || !FactComplete(q.fact.value) || p.primary.grantId !in q.grants then Err(NoteRejected)
    else
      var origin := q.grants[p.primary.grantId];
      var fact := q.fact.value;
      if !PrimaryAccepted(p.primary, origin) then Err(NoteRejected)
      else match FieldEvidence(fact, p.primary.quote, q.witnesses, origin, q.grants, h.company)
        case None => Err(NoteRejected)
        case Some(proofs) =>
          if fact.period in UNKNOWN_PERIODS then Err(NoteRejected)
          else
            var added :- if q.relations == [] then Ok([]) else ReviewRelations(h, l, p, q.relations);
            Ok(p.(relations := p.relations + added, fact := fact, proofs := proofs, status := Verified))
  }

  /** The audit entry and the new payload of a decision; a bare confirmation has neither. */
  function Decide(h: Host, l: Ledger, q: ReviewRequest): Result<Option<(Entry, Payload)>, Refusal>
    requires q.action.Some? && q.noteId in l.notes
  {
    var p := l.notes[q.noteId].payload;
    match q.action.value
    case Confirmed => if l.notes[q.noteId].status != Verified then Err(NoteRejected) else Ok(None)
    case AddRelations =>
      if q.relations == [] then Err(NoteRejected)
      else
        var added :- ReviewRelations(h, l, p, q.relations);
        Ok(Some((EdgesAdded(AsRawAll(added), q.reason), p.(relations := p.relations + added))))
    case MarkNeedsCheck => Ok(Some((StatusSet(NeedsCheck, q.reason), p.(status := NeedsCheck))))
    case Reject => Ok(Some((StatusSet(Rejected, q.reason), p.(status := Rejected))))
    case ReviseFact =>
      var revised :- Revised(h, l, p, q);
      Ok(Some((FactRevised(p, revised, q.reason), revised)))
  }

  predicate ReviewShapeOk(h: Host, q: ReviewRequest) {
    && q.action.Some? && q.sha != "" && q.round >= 1
    && |q.grants| > 0 && InScope(h, q.grants) && BoundedReason(q.reason)
  }

  function LastRound(l: Ledger, id: NoteId): int {
    if Reviews(l, id) == [] then 0 else Reviews(l, id)[|Reviews(l, id)|-1].round
  }

  predicate RoundTaken(l: Ledger, id: NoteId, round: int) {
    exists i :: 0 <= i < |Reviews(l, id)| && Reviews(l, id)[i].round == round
  }

  /** The new round: decide, write the note, record the receipt. */
  function ReviewRows(h: Host, l: Ledger, q: ReviewRequest): Result<(Ledger, ReviewReceipt), Refusal>
    requires q.action.Some? && q.noteId in l.notes
  {
    var decision :- Decide(h, l, q);
    var amended :- if decision.None? then Ok(l) else Amend(l, q.noteId, decision.value.0, decision.value.1);
    var n := amended.notes[q.noteId];
    var receipt := ReviewReceipt(q.noteId, q.round, q.action.value, n.rev, n.status);
    if RoundTaken(amended, q.noteId, q.round) then Err(IntegrityError)
    else Ok((amended.(reviews := amended.reviews[q.noteId := Reviews(amended, q.noteId) + [StoredReview(q.round, q.sha, receipt)]]),
             receipt))
  }

  function ReviewSpec(h: Host, l: Ledger, q: ReviewRequest, fence: Fence): Result<(Ledger, ReviewReceipt), Refusal> {
    if !ReviewShapeOk(h, q) then Err(NoteRejected)
    else if !fence.atStart then Err(LeaseLost)
    else if q.noteId !in l.notes || l.notes[q.noteId].status == Rejected then Err(NoteRejected)
    else if q.round != LastRound(l, q.noteId) + 1 then
      if Reviews(l, q.noteId) != [] && q.round == LastRound(l, q.noteId)
         && Reviews(l, q.noteId)[|Reviews(l, q.noteId)|-1].sha == q.sha
      then Ok((l, Reviews(l, q.noteId)[|Reviews(l, q.noteId)|-1].receipt))
      else Err(NoteRejected)
    else
      var done :- ReviewRows(h, l, q);
      if !fence.atEnd then Err(LeaseLost) else Ok(done)
  }

  // ---- The invariant ------------------------------------------------------

  /** The audit rows are revisions 1..rev, open with the only create, rebuild the payload, and
      each fact revision snapshots the payload of the rows before it. */
  ghost predicate AuditInv(rows: seq<AuditRow>, n: Note) {
    && |rows| > 0 && n.rev == |rows|
    && (forall i :: 0 <= i < |rows| ==> rows[i].rev == i + 1 && (rows[i].entry.Created? <==> i == 0))
    && Fold(rows) == Some(n.payload)
    && (forall i :: 0 <= i < |rows| && rows[i].entry.FactRevised? ==> Fold(rows[..i]) == Some(rows[i].entry.before))
  }

  /** Status column, own id, and relations that lead to known notes. */
  ghost predicate NoteInv(l: Ledger, id: NoteId, known: set<NoteId>)
    requires id in l.notes
  {
    var n := l.notes[id];
    && AuditInv(Audit(l, id), n)
    && n.status == n.payload.status && n.payload.noteId == id
    && forall r :: r in n.payload.relations ==> r.to in known
  }

  ghost predicate RoundsInv(rows: seq<StoredReview>, id: NoteId) {
    forall i :: 0 <= i < |rows| ==> rows[i].round == i + 1 && rows[i].receipt.round == i + 1 && rows[i].receipt.noteId == id
  }

  /** The ledger inside a transaction that may still insert the notes of `known`. */
  ghost predicate Consistent(l: Ledger, known: set<NoteId>) {
    && l.audit.Keys == l.notes.Keys && l.reviews.Keys <= l.notes.Keys
    && NoDuplicates(l.order) && (forall id :: id in l.order <==> id in l.notes)
    && (forall id :: id in l.notes ==> NoteInv(l, id, known))
    && (forall id :: id in l.reviews ==> RoundsInv(l.reviews[id], id))
  }

  /** Every note was created by the receipt of its own window, and by no other. */
  ghost predicate Accounted(l: Ledger) {
    && (forall id :: id in l.notes ==>
          && l.notes[id].window in l.windows
          && id in l.windows[l.notes[id].window].receipt.created)
    && (forall w :: w in l.windows ==>
          && l.windows[w].receipt.window == w
          && forall id :: id in l.windows[w].receipt.created ==> id in l.notes && l.notes[id].window == w)
  }

  ghost predicate Inv(l: Ledger) {
    Consistent(l, l.notes.Keys) && Accounted(l)
  }

  /** Append-only growth; a rejected note never changes again. */
  ghost predicate Grows(l: Ledger, m: Ledger) {
    && l.order <= m.order
    && (forall id :: id in l.audit ==> id in m.audit && l.audit[id] <= m.audit[id])
    && (forall id :: id in l.reviews ==> id in m.reviews && l.reviews[id] <= m.reviews[id])
    && (forall w :: w in l.windows ==> w in m.windows && m.windows[w] == l.windows[w])
    && (forall id :: id in l.notes ==> id in m.notes && m.notes[id].window == l.notes[id].window)
    && (forall id :: id in l.notes && l.notes[id].status == Rejected ==>
          m.notes[id] == l.notes[id] && Audit(m, id) == Audit(l, id) && Reviews(m, id) == Reviews(l, id))
  }
}
