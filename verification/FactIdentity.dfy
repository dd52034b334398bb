/** The fact identity, revision and lineage ledger (app/facts_tree/fact_identity.py). */
module FactIdentity {
  import opened Wrappers
  import opened LedgerTables
  import opened Connections
  import opened Text

  // ---- Specification ------------------------------------------------------

  function ActorReason(actor: string, reason: string): Result<(), Fault> {
    if IsBlank(actor) then Err(BlankActor)
    else if IsBlank(reason) then Err(BlankReason)
    else Ok(())
  }

  /** The fact row as the store loads it for a company, before it opens its transaction. */
  function ReadFact(d: IdentityTables, c: Company, row: RowId): Result<FactRow, Fault> {
    if row < 1 then Err(BadRowId)
    else if row !in d.facts then Err(NoSuchFact)
    else if d.facts[row].company != c then Err(ForeignFact)
    else Ok(d.facts[row])
  }

  function FirstRevision(row: RowId, body: Body, kind: RevisionKind, actor: string, reason: string,
                         at: Stamp): Revision {
    Revision(1, row, Sha256(body), kind, None, actor, reason, at)
  }

  /** Identity and revision 1 of an unmapped row; an idempotent caller may find its own mapping. */
  function InsertIdentity(d: IdentityTables, k: IdKey, first: Revision,
                          idempotent: bool): Result<IdentityTables, Fault> {
    if first.row in d.rowIndex then
      if idempotent && d.rowIndex[first.row].key == k then Ok(d) else Err(AlreadyMapped)
    else if k in d.identities || k in d.revisions then Err(IntegrityError)
    else Ok(d.(identities := d.identities[k := Active],
               revisions := d.revisions[k := [first]],
               rowIndex := d.rowIndex[first.row := Owner(k, 0)]))
  }

  function RegisterSpec(d: IdentityTables, c: Company, row: RowId, token: string,
                        actor: string, reason: string, at: Stamp): Result<IdentityTables, Fault>
  {
    var fact :- ReadFact(d, c, row);
    InsertIdentity(d, IdKey(c, Minted(token)), FirstRevision(row, fact.body, InitialRevision, actor, reason, at), false)
  }

  const LEGACY_REASON := "legacy-bootstrap baseline of an unmapped legacy fact row; earlier identity history is unknown"

  function BootstrapSpec(d: IdentityTables, c: Company, row: RowId, at: Stamp): Result<IdentityTables, Fault> {
    var fact :- ReadFact(d, c, row);
    InsertIdentity(d, IdKey(c, Legacy(c, row)),
                   FirstRevision(row, fact.body, LegacyBootstrap, "system", LEGACY_REASON, at), true)
  }

  /** What both registrations report; the reported version is the constant 1. */
  datatype Registered = Registered(company: Company, uid: Uid, version: int, row: RowId, kind: RevisionKind)

  function IdentityResult(d: IdentityTables, row: RowId): Result<Registered, Fault> {
    if row !in d.rowIndex || d.rowIndex[row].position >= |Chain(d, d.rowIndex[row].key)| then Err(NotMapped)
    else
      var o := d.rowIndex[row];
      Ok(Registered(o.key.company, o.key.uid, 1, row, Chain(d, o.key)[o.position].kind))
  }

  /** UPDATE facts: the old row is closed by the new one. */
  function CloseRow(d: IdentityTables, superseded: RowId, successor: RowId, at: Stamp): IdentityTables
    requires superseded in d.facts
  {
    d.(facts := d.facts[superseded := d.facts[superseded].(supersededBy := Some(successor), validTo := Some(at))])
  }

  function CorrectionEventFor(k: IdKey, n: int, actor: string, reason: string): LineageEvent {
    LineageEvent(k.company, CorrectionEvent, [StepEdge(k.uid, n)], actor, reason, None)
  }

  function AppendSpec(d: IdentityTables, k: IdKey, row: RowId, actor: string, reason: string,
                      at: Stamp): Result<IdentityTables, Fault> {
    var fact :- ReadFact(d, k.company, row);
    if k !in d.identities then Err(UnknownIdentity)
    else if row in d.rowIndex then Err(AlreadyMapped)
    else if !d.facts[row].Open() then Err(NewRowClosed)
    else
      var rows := Chain(d, k);
      if !VersionsComplete(rows) then Err(RevisionGap)
      else if rows == [] then Err(NoRevisions)
      else
        var last := rows[|rows|-1];
        if last.row !in d.facts || !d.facts[last.row].Open() then Err(NoLongerCurrent)
        else
          var d1 := CloseRow(d, last.row, row, at);
          var next := Revision(last.version + 1, row, Sha256(fact.body), Correction, Some(last.row), actor, reason, at);
          Ok(d1.(revisions := d1.revisions[k := rows + [next]],
                 rowIndex := d1.rowIndex[row := Owner(k, |rows|)],
                 lineage := d1.lineage + [CorrectionEventFor(k, last.version, actor, reason)]))
  }

  // ---- Lineage requests ---------------------------------------------------

  /** An edge as submitted: every field may be missing or misplaced. */
  datatype RawEdge = RawEdge(parentUid: Option<Uid>, parentVersion: Option<int>,
                             childUid: Option<Uid>, childVersion: Option<int>,
                             relation: Option<Relation>, unknownFields: bool)

  function RelationOf(kind: LineageKind): Relation {
    match kind
    case CorrectionEvent => Supersedes
    case Split => SplitInto
    case Merge => MergedInto
    case Retract => Retires
    case Migrate => MigratedInto
  }

  function NormalizeEdge(kind: LineageKind, e: RawEdge): Result<Edge, Fault> {
    if e.unknownFields || (e.relation.Some? && e.relation.value != RelationOf(kind)) then Err(BadLineageEdge)
    else if e.parentUid.None? || e.parentVersion.None? || e.parentVersion.value < 1 then Err(BadLineageEdge)
    else
      var parent := End(e.parentUid.value, e.parentVersion.value);
      if kind == Retract then
        if e.childUid.Some? || e.childVersion.Some? then Err(BadLineageEdge)
        else Ok(Edge(parent, None, RelationOf(kind)))
      else if e.childUid.None? || e.childVersion.None? || e.childVersion.value < 1 then Err(BadLineageEdge)
      else Ok(Edge(parent, Some(End(e.childUid.value, e.childVersion.value)), RelationOf(kind)))
  }

  function Normalize(kind: LineageKind, raw: seq<RawEdge>): Result<seq<Edge>, Fault> {
    if raw == [] then Ok([])
    else
      var before :- Normalize(kind, raw[..|raw|-1]);
      var e :- NormalizeEdge(kind, raw[|raw|-1]);
      Ok(before + [e])
  }

  function Parents(edges: seq<Edge>): set<End> {
    set e | e in edges :: e.parent
  }

  function Children(edges: seq<Edge>): set<Option<End>> {
    set e | e in edges :: e.child
  }

  function Uids(ends: set<End>): set<Uid> {
    set e | e in ends :: e.uid
  }

  function ChildUids(edges: seq<Edge>): set<Uid> {
    set e | e in edges && e.child.Some? :: e.child.value.uid
  }

  /** The event shapes: one correction or retraction; one parent split over at least two
      identities; at least two identities merged into one child; any migration. */
  predicate ShapeOk(kind: LineageKind, edges: seq<Edge>) {
    match kind
    case CorrectionEvent => |edges| == 1
    case Retract => |edges| == 1
    case Split => |Parents(edges)| == 1 && |ChildUids(edges)| >= 2
    case Merge => |Children(edges)| == 1 && |Uids(Parents(edges))| >= 2
    case Migrate => true
  }

  function LineageArgs(actor: string, reason: string, kind: LineageKind, raw: seq<RawEdge>): Result<(), Fault> {
    var _ :- ActorReason(actor, reason);
    if raw == [] then Err(BadLineageShape)
    else
      var edges :- Normalize(kind, raw);
      if !NoDuplicates(edges) || !ShapeOk(kind, edges) then Err(BadLineageShape) else Ok(())
  }

  function LineageSpec(d: IdentityTables, c: Company, kind: LineageKind, raw: seq<RawEdge>,
                       actor: string, reason: string, migration: Option<string>): Result<IdentityTables, Fault>
  {
    var edges :- Normalize(kind, raw);
    var event := LineageEvent(c, kind, edges, actor, reason, migration);
    if EventExists(d, event) then Ok(d.(lineage := d.lineage + [event])) else Err(UnknownEndpoint)
  }

  // ---- What the operations keep and promise -------------------------------

  /** An existing endpoint survives longer chains. */
  lemma EventsPersist(d: IdentityTables, u: IdentityTables)
    requires IdentityGrows(d, u)
    ensures forall e :: EventExists(d, e) ==> EventExists(u, e)
  {
    forall e | EventExists(d, e) ensures EventExists(u, e) {
      forall x | x in e.edges ensures EdgeExists(u, e.company, x) {
        assert EdgeExists(d, e.company, x);
        EndpointPersists(d, u, e.company, x.parent);
        if x.child.Some? { EndpointPersists(d, u, e.company, x.child.value); }
      }
    }
  }

  lemma EndpointPersists(d: IdentityTables, u: IdentityTables, c: Company, e: End)
    requires IdentityGrows(d, u) && EndpointExists(d, c, e)
    ensures EndpointExists(u, c, e)
  {
    assert IdKey(c, e.uid) in d.revisions;
  }

  lemma RecordedPersists(a: seq<LineageEvent>, b: seq<LineageEvent>, c: Company, e: Edge)
    requires a <= b && Recorded(a, c, e)
    ensures Recorded(b, c, e)
  {
    var n :| 0 <= n < |a| && a[n].company == c && e in a[n].edges;
    assert b[n] == a[n];
  }

  /** Chains are untouched when their rows keep owner, body and closing. */
  lemma ChainPersists(d: IdentityTables, u: IdentityTables, k: IdKey)
    requires IdentityGrows(d, u) && ChainInv(d, k) && StepsRecorded(d, k) && Chain(u, k) == Chain(d, k)
    requires forall i :: 0 <= i < |Chain(d, k)| && Chain(d, k)[i].row in d.facts ==>
               u.facts[Chain(d, k)[i].row] == d.facts[Chain(d, k)[i].row]
    ensures ChainInv(u, k) && StepsRecorded(u, k)
  {
    forall i | 0 <= i < |Chain(u, k)| ensures RevisionInv(u, k, i) {
      assert RevisionInv(d, k, i);
    }
    forall i {:trigger StepEdge(k.uid, i)} | 1 <= i < |Chain(u, k)|
      ensures Recorded(u.lineage, k.company, StepEdge(k.uid, i))
    {
      RecordedPersists(d.lineage, u.lineage, k.company, StepEdge(k.uid, i));
    }
  }

  /** Registering an unmapped row under a fresh identity keeps the ledger's invariant. */
  lemma InsertKeeps(d: IdentityTables, k: IdKey, first: Revision, idempotent: bool)
    requires IdentityInv(d) && InsertIdentity(d, k, first, idempotent).Ok?
    requires first.row in d.rowIndex || Insertable(d, k, first)
    ensures IdentityInv(InsertIdentity(d, k, first, idempotent).value)
    ensures IdentityGrows(d, InsertIdentity(d, k, first, idempotent).value)
  {
    if first.row !in d.rowIndex {
      InsertFreshKeeps(d, k, first);
    }
  }

  function Inserted(d: IdentityTables, k: IdKey, first: Revision): IdentityTables {
    d.(identities := d.identities[k := Active],
       revisions := d.revisions[k := [first]],
       rowIndex := d.rowIndex[first.row := Owner(k, 0)])
  }

  predicate Insertable(d: IdentityTables, k: IdKey, first: Revision) {
    && k !in d.identities && first.row !in d.rowIndex
    && first.row in d.facts && d.facts[first.row].company == k.company
    && first.version == 1 && first.digest == Sha256(d.facts[first.row].body) && first.supersedes == None
    && first.kind != Correction && (k.uid.Legacy? ==> k.uid == Legacy(k.company, first.row))
  }

  lemma InsertFreshKeeps(d: IdentityTables, k: IdKey, first: Revision)
    requires IdentityInv(d) && Insertable(d, k, first)
    ensures IdentityInv(Inserted(d, k, first)) && IdentityGrows(d, Inserted(d, k, first))
  {
    var u := Inserted(d, k, first);
    InsertChains(d, k, first);
    InsertIndex(d, k, first);
    EventsPersist(d, u);
    hide ChainInv, StepsRecorded, EventExists, IndexInv;
  }

  lemma InsertIndex(d: IdentityTables, k: IdKey, first: Revision)
    requires IdentityInv(d) && Insertable(d, k, first)
    ensures forall r :: r in Inserted(d, k, first).rowIndex ==> IndexInv(Inserted(d, k, first), r)
    ensures IdentityGrows(d, Inserted(d, k, first))
  {
    hide ChainInv, StepsRecorded, EventExists;
    var u := Inserted(d, k, first);
    forall r | r in u.rowIndex ensures IndexInv(u, r) {
      if r != first.row { assert IndexInv(d, r); }
    }
  }

  lemma InsertChains(d: IdentityTables, k: IdKey, first: Revision)
    requires IdentityInv(d) && Insertable(d, k, first)
    ensures forall x :: x in Inserted(d, k, first).revisions ==>
              ChainInv(Inserted(d, k, first), x) && StepsRecorded(Inserted(d, k, first), x)
  {
    var u := Inserted(d, k, first);
    forall x | x in u.revisions ensures ChainInv(u, x) && StepsRecorded(u, x) {
      if x == k {
        assert RevisionInv(u, k, 0);
      } else {
        ChainPersists(d, u, x);
      }
    }
  }

  /** register_initial maps exactly the existing, unmapped rows of the company, open or not,
      and the identity it reports as version 1 is indeed revision 1. */
  lemma RegisterOutcome(d: IdentityTables, c: Company, row: RowId, token: string, actor: string, reason: string,
                        at: Stamp)
    requires IdentityInv(d) && IdKey(c, Minted(token)) !in d.identities
    ensures
      var r := RegisterSpec(d, c, row, token, actor, reason, at);
      && (r.Ok? <==> row >= 1 && row in d.facts && d.facts[row].company == c && row !in d.rowIndex)
      && (r.Ok? ==>
            && IdentityInv(r.value) && IdentityGrows(d, r.value)
            && r.value.facts == d.facts && r.value.lineage == d.lineage
            && r.value.written == d.written
            && r.value.identities == d.identities[IdKey(c, Minted(token)) := Active]
            && r.value.rowIndex == d.rowIndex[row := Owner(IdKey(c, Minted(token)), 0)]
            && Chain(r.value, IdKey(c, Minted(token))) ==
                 [Revision(1, row, Sha256(d.facts[row].body), InitialRevision, None, actor, reason, at)]
            && (forall k :: k != IdKey(c, Minted(token)) ==> Chain(r.value, k) == Chain(d, k))
            && IdentityResult(r.value, row) == Ok(Registered(c, Minted(token), 1, row, InitialRevision)))
  {
    if RegisterSpec(d, c, row, token, actor, reason, at).Ok? {
      InsertKeeps(d, IdKey(c, Minted(token)),
                  FirstRevision(row, d.facts[row].body, InitialRevision, actor, reason, at), false);
    }
  }

  /** bootstrap_legacy is idempotent: it succeeds exactly for rows of the company that are
      unmapped or already carry this very identity, and then only the first call writes. */
  lemma BootstrapOutcome(d: IdentityTables, c: Company, row: RowId, at: Stamp)
    requires IdentityInv(d)
    ensures
      var r := BootstrapSpec(d, c, row, at);
      var k := IdKey(c, Legacy(c, row));
      && (r.Ok? <==>
            && row >= 1 && row in d.facts && d.facts[row].company == c
            && (row in d.rowIndex ==> d.rowIndex[row] == Owner(k, 0)))
      && (r.Ok? ==>
            && IdentityInv(r.value) && IdentityGrows(d, r.value)
            && r.value.facts == d.facts && r.value.lineage == d.lineage
            && (row in d.rowIndex ==> r.value == d)
            && (forall later :: BootstrapSpec(r.value, c, row, later) == Ok(r.value))
            && IdentityResult(r.value, row) == Ok(Registered(c, k.uid, 1, row, Chain(r.value, k)[0].kind)))
  {
    var r := BootstrapSpec(d, c, row, at);
    var k := IdKey(c, Legacy(c, row));
    if k in d.revisions {
      assert ChainInv(d, k);
      assert RevisionInv(d, k, 0);
    }
    if r.Ok? {
      InsertKeeps(d, k, FirstRevision(row, d.facts[row].body, LegacyBootstrap, "system", LEGACY_REASON, at), true);
    }
  }

  /** What the first bootstrap of a row writes: the legacy identity of exactly this row with one
      revision by the system, and no other row, chain or event. */
  lemma BootstrapWrites(d: IdentityTables, c: Company, row: RowId, at: Stamp)
    requires IdentityInv(d) && row >= 1 && row in d.facts && d.facts[row].company == c && row !in d.rowIndex
    ensures
      var k := IdKey(c, Legacy(c, row));
      BootstrapSpec(d, c, row, at) == Ok(IdentityTables(
        d.facts, d.written, d.identities[k := Active],
        d.revisions[k := [Revision(1, row, Sha256(d.facts[row].body), LegacyBootstrap, None, "system", LEGACY_REASON, at)]],
        d.rowIndex[row := Owner(k, 0)], d.lineage))
  {
    assert forall k :: k in d.revisions ==> ChainInv(d, k) && RevisionInv(d, k, 0);
  }

  predicate AppendAllowed(d: IdentityTables, k: IdKey, row: RowId) {
    && row >= 1 && row in d.facts && d.facts[row].company == k.company
    && row !in d.rowIndex && d.facts[row].Open()
    && k in d.identities
    && |Chain(d, k)| > 0 && CurrentRow(d, k) in d.facts && d.facts[CurrentRow(d, k)].Open()
  }

  function CurrentRow(d: IdentityTables, k: IdKey): RowId
    requires |Chain(d, k)| > 0
  {
    Chain(d, k)[|Chain(d, k)|-1].row
  }

  /** A correction succeeds exactly for an open, unmapped row of the company and an identity
      whose current row is still open. It closes that row with the new one and nothing else,
      appends one revision and its supersedes edge, and leaves the new row current and open. */
  lemma AppendOutcome(d: IdentityTables, k: IdKey, row: RowId, actor: string, reason: string, at: Stamp)
    requires IdentityInv(d)
    ensures AppendSpec(d, k, row, actor, reason, at).Ok? <==> AppendAllowed(d, k, row)
    ensures AppendAllowed(d, k, row) ==>
      var u := AppendSpec(d, k, row, actor, reason, at).value;
      && u.facts == d.facts[CurrentRow(d, k) := FactRow(d.facts[CurrentRow(d, k)].company, d.facts[CurrentRow(d, k)].body,
                                                        Some(row), Some(at))]
      && Chain(u, k) == Chain(d, k) + [Revision(|Chain(d, k)| + 1, row, Sha256(d.facts[row].body), Correction,
                                                Some(CurrentRow(d, k)), actor, reason, at)]
      && (forall k' :: k' != k ==> Chain(u, k') == Chain(d, k'))
      && u.rowIndex == d.rowIndex[row := Owner(k, |Chain(d, k)|)]
      && u.lineage == d.lineage +
           [LineageEvent(k.company, CorrectionEvent,
                         [Edge(End(k.uid, |Chain(d, k)|), Some(End(k.uid, |Chain(d, k)| + 1)), Supersedes)],
                         actor, reason, None)]
      && CurrentRow(u, k) == row && u.facts[row].Open()
      && u.written == d.written && u.identities == d.identities && u.revisions.Keys == d.revisions.Keys
  {
    if k in d.identities {
      assert ChainInv(d, k);
      assert RevisionInv(d, k, |Chain(d, k)| - 1);
    }
  }

  lemma AppendKeeps(d: IdentityTables, k: IdKey, row: RowId, actor: string, reason: string, at: Stamp)
    requires IdentityInv(d) && AppendAllowed(d, k, row)
    ensures
      var u := AppendSpec(d, k, row, actor, reason, at);
      u.Ok? && IdentityInv(u.value) && IdentityGrows(d, u.value)
  {
    AppendOutcome(d, k, row, actor, reason, at);
    var u := AppendSpec(d, k, row, actor, reason, at).value;
    hide AppendSpec;
    AppendGrows(d, u, k, row);
    AppendedChains(d, u, k, row, at);
    AppendedRest(d, u, k, row);
    hide ChainInv, StepsRecorded, IndexInv, EventExists;
  }

  lemma AppendedChains(d: IdentityTables, u: IdentityTables, k: IdKey, row: RowId, at: Stamp)
    requires IdentityInv(d) && AppendAllowed(d, k, row) && IdentityGrows(d, u)
    requires u.facts == CloseRow(d, CurrentRow(d, k), row, at).facts && u.revisions.Keys == d.revisions.Keys
    requires |Chain(u, k)| == |Chain(d, k)| + 1 && Chain(d, k) == Chain(u, k)[..|Chain(d, k)|]
    requires var r := Chain(u, k)[|Chain(d, k)|];
      && r.version == |Chain(u, k)| && r.row == row && r.digest == Sha256(d.facts[row].body)
      && r.kind == Correction && r.supersedes == Some(CurrentRow(d, k))
    requires forall k' :: k' != k ==> Chain(u, k') == Chain(d, k')
    requires u.rowIndex == d.rowIndex[row := Owner(k, |Chain(d, k)|)]
    requires d.lineage < u.lineage && u.lineage[|u.lineage|-1].company == k.company
    requires StepEdge(k.uid, |Chain(d, k)|) in u.lineage[|u.lineage|-1].edges
    ensures forall k' :: k' in u.revisions ==> ChainInv(u, k') && StepsRecorded(u, k')
  {
    forall k' | k' in u.revisions ensures ChainInv(u, k') && StepsRecorded(u, k') {
      if k' == k {
        AppendedChain(d, u, k, row, at);
        AppendedStep(d, u, k);
      } else {
        OtherChainPersists(d, u, k, k', row, at);
      }
    }
  }

  lemma AppendedRest(d: IdentityTables, u: IdentityTables, k: IdKey, row: RowId)
    requires IdentityInv(d) && IdentityGrows(d, u) && |Chain(d, k)| > 0
    requires |Chain(u, k)| == |Chain(d, k)| + 1 && Chain(d, k) == Chain(u, k)[..|Chain(d, k)|]
    requires Chain(u, k)[|Chain(d, k)|].row == row
    requires forall k' :: k' != k ==> Chain(u, k') == Chain(d, k')
    requires u.rowIndex == d.rowIndex[row := Owner(k, |Chain(d, k)|)]
    requires |u.lineage| == |d.lineage| + 1
    requires u.lineage[|d.lineage|].edges == [StepEdge(k.uid, |Chain(d, k)|)]
             && u.lineage[|d.lineage|].company == k.company
    ensures forall r :: r in u.rowIndex ==> IndexInv(u, r)
    ensures forall n :: 0 <= n < |u.lineage| ==> EventExists(u, u.lineage[n])
  {
    forall r | r in u.rowIndex ensures IndexInv(u, r) {
      if r != row { assert IndexInv(d, r); }
    }
    hide ChainInv, StepsRecorded;
    EventsPersist(d, u);
    assert EdgeExists(u, k.company, StepEdge(k.uid, |Chain(d, k)|));
  }

  lemma OtherChainPersists(d: IdentityTables, u: IdentityTables, k: IdKey, k': IdKey, row: RowId, at: Stamp)
    requires IdentityInv(d) && AppendAllowed(d, k, row) && IdentityGrows(d, u) && k' != k && k' in d.revisions
    requires Chain(u, k') == Chain(d, k') && u.facts == CloseRow(d, CurrentRow(d, k), row, at).facts
    ensures ChainInv(u, k') && StepsRecorded(u, k')
  {
    assert ChainInv(d, k) && RevisionInv(d, k, |Chain(d, k)| - 1);
    forall i | 0 <= i < |Chain(d, k')| ensures Chain(d, k')[i].row != CurrentRow(d, k) {
      assert ChainInv(d, k') && RevisionInv(d, k', i);
    }
    ChainPersists(d, u, k');
  }

  lemma AppendGrows(d: IdentityTables, u: IdentityTables, k: IdKey, row: RowId)
    requires IdentityInv(d) && AppendAllowed(d, k, row)
    requires exists at :: u.facts == CloseRow(d, CurrentRow(d, k), row, at).facts
    requires forall k' :: k' != k ==> Chain(u, k') == Chain(d, k')
    requires Chain(d, k) <= Chain(u, k) && u.identities == d.identities && d.lineage <= u.lineage
    requires u.rowIndex == d.rowIndex[row := Owner(k, |Chain(d, k)|)]
    ensures IdentityGrows(d, u)
  {
    forall k' | k' in d.revisions ensures k' in u.revisions && d.revisions[k'] <= u.revisions[k'] {
      assert ChainInv(d, k');
      assert Chain(d, k') == d.revisions[k'] && |Chain(u, k')| > 0;
    }
  }

  lemma AppendedChain(d: IdentityTables, u: IdentityTables, k: IdKey, row: RowId, at: Stamp)
    requires ChainInv(d, k) && AppendAllowed(d, k, row)
    requires IdentityGrows(d, u) && u.facts == CloseRow(d, CurrentRow(d, k), row, at).facts
    requires |Chain(u, k)| == |Chain(d, k)| + 1 && Chain(d, k) == Chain(u, k)[..|Chain(d, k)|]
    requires var r := Chain(u, k)[|Chain(d, k)|];
      && r.version == |Chain(u, k)| && r.row == row && r.digest == Sha256(d.facts[row].body)
      && r.kind == Correction && r.supersedes == Some(CurrentRow(d, k))
    requires u.rowIndex == d.rowIndex[row := Owner(k, |Chain(d, k)|)]
    ensures ChainInv(u, k)
  {
    var n := |Chain(d, k)|;
    assert forall i :: 0 <= i < n ==> Chain(u, k)[i] == Chain(d, k)[i];
    assert RevisionInv(d, k, n - 1);
    forall i | 0 <= i < n ensures RevisionInv(u, k, i) {
      assert RevisionInv(d, k, i);
    }
    assert RevisionInv(u, k, n);
  }

  lemma AppendedStep(d: IdentityTables, u: IdentityTables, k: IdKey)
    requires StepsRecorded(d, k) && |Chain(u, k)| == |Chain(d, k)| + 1
    requires d.lineage < u.lineage && u.lineage[|u.lineage|-1].company == k.company
    requires StepEdge(k.uid, |Chain(d, k)|) in u.lineage[|u.lineage|-1].edges
    ensures StepsRecorded(u, k)
  {
    forall i {:trigger StepEdge(k.uid, i)} | 1 <= i < |Chain(u, k)|
      ensures Recorded(u.lineage, k.company, StepEdge(k.uid, i))
    {
      if i < |Chain(d, k)| {
        RecordedPersists(d.lineage, u.lineage, k.company, StepEdge(k.uid, i));
      }
    }
  }

  /** The relation that an edge of each event carries. */
  predicate Carries(kind: LineageKind, r: Relation) {
    match r
    case Supersedes => kind == CorrectionEvent
    case SplitInto => kind == Split
    case MergedInto => kind == Merge
    case Retires => kind == Retract
    case MigratedInto => kind == Migrate
  }

  /** A well-formed submitted edge: known fields, the event's relation or none, a parent with a
      positive version, and such a child unless the event retracts. */
  predicate EdgeFits(kind: LineageKind, e: RawEdge) {
    && !e.unknownFields && (e.relation.Some? ==> Carries(kind, e.relation.value))
    && e.parentUid.Some? && e.parentVersion.Some? && e.parentVersion.value >= 1
    && if kind == Retract then e.childUid.None? && e.childVersion.None?
       else e.childUid.Some? && e.childVersion.Some? && e.childVersion.value >= 1
  }

  /** The edge that a well-formed submission records. */
  ghost predicate Records(kind: LineageKind, raw: RawEdge, e: Edge) {
    && raw.parentUid == Some(e.parent.uid) && raw.parentVersion == Some(e.parent.version)
    && Carries(kind, e.relation)
    && (if kind == Retract then e.child.None?
        else e.child.Some? && raw.childUid == Some(e.child.value.uid) && raw.childVersion == Some(e.child.value.version))
  }

  /** Normalization succeeds exactly for well-formed edges, keeps their number and order, and records
      exactly the submitted endpoints under the relation of the event. */
  lemma {:induction false} NormalizeMeaning(kind: LineageKind, raw: seq<RawEdge>)
    ensures Normalize(kind, raw).Ok? <==> forall i :: 0 <= i < |raw| ==> EdgeFits(kind, raw[i])
    ensures Normalize(kind, raw).Ok? ==>
      var edges := Normalize(kind, raw).value;
      |edges| == |raw| && forall i :: 0 <= i < |raw| ==> Records(kind, raw[i], edges[i])
  {
    if raw != [] {
      NormalizeMeaning(kind, raw[..|raw|-1]);
      assert forall i :: 0 <= i < |raw| - 1 ==> raw[i] == raw[..|raw|-1][i];
    }
  }

  lemma {:induction false} AllOne<T>(s: set<T>)
    ensures |s| == 1 <==> s != {} && forall x, y :: x in s && y in s ==> x == y
    ensures |s| >= 2 <==> exists x, y :: x in s && y in s && x != y
  {
    if s != {} {
      var x :| x in s;
      var rest := s - {x};
      assert |s| == |rest| + 1;
      if rest != {} {
        var y :| y in rest;
        assert x in s && y in s && x != y;
      } else {
        assert s == {x};
      }
    }
  }

  /** The shapes of an event in terms of its edges: one correction or retraction; a split of one shared
      parent over two identities at least; a merge of two identities at least into one shared child. */
  ghost predicate Shaped(kind: LineageKind, edges: seq<Edge>) {
    match kind
    case CorrectionEvent => |edges| == 1
    case Retract => |edges| == 1
    case Split =>
      && (forall e, f :: e in edges && f in edges ==> e.parent == f.parent)
      && (exists e, f :: e in edges && f in edges && e.child.Some? && f.child.Some?
                         && e.child.value.uid != f.child.value.uid)
    case Merge =>
      && (forall e, f :: e in edges && f in edges ==> e.child == f.child)
      && (exists e, f :: e in edges && f in edges && e.parent.uid != f.parent.uid)
    case Migrate => true
  }

  lemma ShapeExactly(kind: LineageKind, edges: seq<Edge>)
    requires edges != []
    ensures ShapeOk(kind, edges) <==> Shaped(kind, edges)
  {
    assert edges[0] in edges;
    if kind == Split {
      ParentsOf(edges);
      ChildUidsOf(edges);
    } else if kind == Merge {
      ChildrenOf(edges);
      ParentUidsOf(edges);
    }
  }

  lemma ParentsOf(edges: seq<Edge>)
    requires edges != []
    ensures |Parents(edges)| == 1 <==> forall e, f :: e in edges && f in edges ==> e.parent == f.parent
  {
    AllOne(Parents(edges));
    assert edges[0].parent in Parents(edges);
    forall e | e in edges ensures e.parent in Parents(edges) {
    }
  }

  lemma ChildrenOf(edges: seq<Edge>)
    requires edges != []
    ensures |Children(edges)| == 1 <==> forall e, f :: e in edges && f in edges ==> e.child == f.child
  {
    AllOne(Children(edges));
    assert edges[0].child in Children(edges);
    forall e | e in edges ensures e.child in Children(edges) {
    }
  }

  lemma ChildUidsOf(edges: seq<Edge>)
    ensures |ChildUids(edges)| >= 2 <==>
      exists e, f :: e in edges && f in edges && e.child.Some? && f.child.Some? && e.child.value.uid != f.child.value.uid
  {
    AllOne(ChildUids(edges));
    forall e | e in edges && e.child.Some? ensures e.child.value.uid in ChildUids(edges) {
    }
    if x, y :| x in ChildUids(edges) && y in ChildUids(edges) && x != y {
      var e :| e in edges && e.child.Some? && e.child.value.uid == x;
      var f :| f in edges && f.child.Some? && f.child.value.uid == y;
    }
  }

  lemma ParentUidsOf(edges: seq<Edge>)
    ensures |Uids(Parents(edges))| >= 2 <==>
      exists e, f :: e in edges && f in edges && e.parent.uid != f.parent.uid
  {
    AllOne(Uids(Parents(edges)));
    forall e | e in edges ensures e.parent.uid in Uids(Parents(edges)) {
      assert e.parent in Parents(edges);
    }
    if x, y :| x in Uids(Parents(edges)) && y in Uids(Parents(edges)) && x != y {
      var p :| p in Parents(edges) && p.uid == x;
      var r :| r in Parents(edges) && r.uid == y;
      var e :| e in edges && e.parent == p;
      var f :| f in edges && f.parent == r;
    }
  }

  /** The arguments of a lineage event are accepted exactly for an actor and a reason and distinct,
      well-formed edges in the shape of the event. */
  lemma LineageArgsExactly(actor: string, reason: string, kind: LineageKind, raw: seq<RawEdge>)
    ensures
      var n := Normalize(kind, raw);
      LineageArgs(actor, reason, kind, raw).Ok? <==>
        && !IsBlank(actor) && !IsBlank(reason) && raw != []
        && (forall i :: 0 <= i < |raw| ==> EdgeFits(kind, raw[i]))
        && n.Ok? && (forall i, j :: 0 <= i < j < |n.value| ==> n.value[i] != n.value[j])
        && Shaped(kind, n.value)
  {
    NormalizeMeaning(kind, raw);
    if raw != [] && Normalize(kind, raw).Ok? {
      ShapeExactly(kind, Normalize(kind, raw).value);
    }
  }

  /** A lineage event is recorded exactly when all its endpoints are revisions of the company; it
      changes nothing else. */
  lemma LineageOutcome(d: IdentityTables, c: Company, kind: LineageKind, raw: seq<RawEdge>,
                       actor: string, reason: string, migration: Option<string>)
    requires IdentityInv(d)
    ensures
      var r := LineageSpec(d, c, kind, raw, actor, reason, migration);
      && (r.Ok? <==>
            && Normalize(kind, raw).Ok?
            && forall e :: e in Normalize(kind, raw).value ==>
                 && 1 <= e.parent.version <= |Chain(d, IdKey(c, e.parent.uid))|
                 && (e.child.Some? ==> 1 <= e.child.value.version <= |Chain(d, IdKey(c, e.child.value.uid))|))
      && (r.Ok? ==>
            && r.value == d.(lineage := d.lineage + [LineageEvent(c, kind, Normalize(kind, raw).value,
                                                                  actor, reason, migration)])
            && IdentityInv(r.value) && IdentityGrows(d, r.value))
  {
    var r := LineageSpec(d, c, kind, raw, actor, reason, migration);
    if r.Ok? {
      assert forall e :: e in Normalize(kind, raw).value ==> EdgeExists(d, c, e);
      forall k | k in r.value.revisions ensures ChainInv(r.value, k) && StepsRecorded(r.value, k) {
        ChainPersists(d, r.value, k);
      }
      forall x | x in r.value.rowIndex ensures IndexInv(r.value, x) {
        assert IndexInv(d, x);
      }
      EventsPersist(d, r.value);
    }
  }

  // ---- Walking facts.superseded_by ----------------------------------------

  /** The rows visited by following superseded_by, at most `fuel` steps. */
  function Walk(facts: map<RowId, FactRow>, row: RowId, fuel: nat): seq<RowId>
    decreases fuel
  {
    if fuel == 0 || row !in facts || facts[row].supersededBy.None? then [row]
    else [row] + Walk(facts, facts[row].supersededBy.value, fuel - 1)
  }

  function RowsOf(rows: seq<Revision>): seq<RowId> {
    seq(|rows|, i requires 0 <= i < |rows| => rows[i].row)
  }

  lemma NextVersion(d: IdentityTables, k: IdKey, i: nat)
    requires IdentityInv(d) && k in d.identities && i < |Chain(d, k)|
    ensures Chain(d, k)[i].row in d.facts
    ensures i + 1 < |Chain(d, k)| ==> d.facts[Chain(d, k)[i].row].supersededBy == Some(Chain(d, k)[i+1].row)
  {
    assert ChainInv(d, k);
    assert RevisionInv(d, k, i);
  }

  /** From version i, superseded_by visits exactly the later versions in order, and stops at
      the current one however far it may look, as long as that row is not superseded. */
  lemma {:induction false} WalkVisitsChain(d: IdentityTables, k: IdKey, i: nat, fuel: nat)
    requires IdentityInv(d) && k in d.identities && i < |Chain(d, k)|
    requires CurrentRow(d, k) in d.facts && d.facts[CurrentRow(d, k)].supersededBy.None?
    requires fuel >= |Chain(d, k)| - 1 - i
    ensures Walk(d.facts, Chain(d, k)[i].row, fuel) == RowsOf(Chain(d, k)[i..])
    decreases |Chain(d, k)| - i
  {
    hide IdentityInv;
    var rows := Chain(d, k);
    NextVersion(d, k, i);
    if i == |rows| - 1 {
      assert rows[i..] == [rows[i]];
    } else {
      WalkVisitsChain(d, k, i + 1, fuel - 1);
      assert rows[i..] == [rows[i]] + rows[i+1..];
      assert RowsOf(rows[i..]) == [rows[i].row] + RowsOf(rows[i+1..]);
    }
  }

  /** No facts row belongs to two identities, nor twice to one. */
  lemma OneOwner(d: IdentityTables, k: IdKey, i: int, k': IdKey, j: int)
    requires IdentityInv(d) && 0 <= i < |Chain(d, k)| && 0 <= j < |Chain(d, k')|
    requires Chain(d, k)[i].row == Chain(d, k')[j].row
    ensures k == k' && i == j
  {
    assert ChainInv(d, k) && ChainInv(d, k');
    assert RevisionInv(d, k, i) && RevisionInv(d, k', j);
  }

  // ---- The store ----------------------------------------------------------

  function InIdentity<T>(t: Tables, r: Result<IdentityTables, Fault>, v: T): Result<(Tables, T), Fault> {
    match r
    case Ok(d) => Ok((t.(ids := d), v))
    case Err(e) => Err(e)
  }

  class FactIdentityStore {
    const db: Connection
    const scope: Option<Company>

    constructor (db: Connection, scope: Option<Company>)
      ensures this.db == db && this.scope == scope
    {
      this.db, this.scope := db, scope;
    }

    function Scoped(c: Company, args: Result<(), Fault>): Result<(), Fault> {
      if scope.Some? && scope.value != c then Err(OutsideScope) else args
    }

    /** Actor and reason are checked before the company scope, the fact row after it. */
    function RegisterChecks(d: IdentityTables, c: Company, row: RowId, actor: string,
                            reason: string): Result<(), Fault> {
      var _ :- ActorReason(actor, reason);
      var _ :- Scoped(c, Ok(()));
      var _ :- ReadFact(d, c, row);
      Ok(())
    }

    method SetIdentities(d: IdentityTables)
      modifies db
      ensures db.open == old(db.open) && db.tables == old(db.tables).(ids := d)
    {
      db.tables := db.tables.(ids := d);
    }

    /** _insert_identity_rows: two inserts inside the open transaction. */
    method InsertRows(k: IdKey, first: Revision, idempotent: bool) returns (r: Result<(), Fault>)
      modifies db
      ensures db.open == old(db.open)
      ensures match InsertIdentity(old(db.tables.ids), k, first, idempotent)
              case Ok(d) => r == Ok(()) && db.tables == old(db.tables).(ids := d)
              case Err(e) => r == Err(e)
    {
      var d := db.tables.ids;
      if first.row in d.rowIndex {
        if idempotent && d.rowIndex[first.row].key == k {
          return Ok(());
        }
        return Err(AlreadyMapped);
      }
      if k in d.identities {
        return Err(IntegrityError);
      }
      SetIdentities(d.(identities := d.identities[k := Active]));
      if k in d.revisions {
        return Err(IntegrityError);
      }
      d := db.tables.ids;
      SetIdentities(d.(revisions := d.revisions[k := [first]], rowIndex := d.rowIndex[first.row := Owner(k, 0)]));
      return Ok(());
    }

    method RegisterInitial(c: Company, row: RowId, token: string, actor: string, reason: string, at: Stamp)
      returns (r: Result<(), Fault>)
      modifies db
      ensures Seen(db.tables, db.open, r) ==
        Owned(old(db.tables), old(db.open), RegisterChecks(old(db.tables.ids), c, row, actor, reason),
              InIdentity(old(db.tables), RegisterSpec(old(db.tables.ids), c, row, token, actor, reason, at), ()))
    {
      var args := RegisterChecks(db.tables.ids, c, row, actor, reason);
      if args.Err? {
        return Err(args.error);
      }
      var body := db.tables.ids.facts[row].body;
      var entered := db.Enter();
      if !entered {
        return Err(NestedTransaction);
      }
      r := InsertRows(IdKey(c, Minted(token)), FirstRevision(row, body, InitialRevision, actor, reason, at), false);
      db.Leave(r.Err?);
    }

    method RegisterInitialInTransaction(c: Company, row: RowId, token: string, actor: string, reason: string, at: Stamp)
      returns (r: Result<(), Fault>)
      modifies db
      ensures
        var args :=
          if ActorReason(actor, reason).Err? then ActorReason(actor, reason)
          else if old(db.open) == [] then Err(NoTransaction)
          else RegisterChecks(old(db.tables.ids), c, row, actor, reason);
        Seen(db.tables, db.open, r) ==
        Joined(old(db.tables), old(db.open), args,
               InIdentity(old(db.tables), RegisterSpec(old(db.tables.ids), c, row, token, actor, reason, at), ()))
    {
      var checked := ActorReason(actor, reason);
      if checked.Err? {
        return Err(checked.error);
      }
      if db.open == [] {
        return Err(NoTransaction);
      }
      var args := RegisterChecks(db.tables.ids, c, row, actor, reason);
      if args.Err? {
        return Err(args.error);
      }
      var body := db.tables.ids.facts[row].body;
      db.Savepoint();
      r := InsertRows(IdKey(c, Minted(token)), FirstRevision(row, body, InitialRevision, actor, reason, at), false);
      db.LeaveSavepoint(r.Err?);
    }

    method BootstrapLegacy(c: Company, row: RowId, at: Stamp) returns (r: Result<(), Fault>)
      modifies db
      ensures
        var args :=
          if Scoped(c, Ok(())).Err? then Scoped(c, Ok(()))
          else if ReadFact(old(db.tables.ids), c, row).Err? then Err(ReadFact(old(db.tables.ids), c, row).error)
          else Ok(());
        Seen(db.tables, db.open, r) ==
        Owned(old(db.tables), old(db.open), args,
              InIdentity(old(db.tables), BootstrapSpec(old(db.tables.ids), c, row, at), ()))
    {
      var scoped := Scoped(c, Ok(()));
      if scoped.Err? {
        return Err(scoped.error);
      }
      var fact := ReadFact(db.tables.ids, c, row);
      if fact.Err? {
        return Err(fact.error);
      }
      var entered := db.Enter();
      if !entered {
        return Err(NestedTransaction);
      }
      r := InsertRows(IdKey(c, Legacy(c, row)),
                      FirstRevision(row, fact.value.body, LegacyBootstrap, "system", LEGACY_REASON, at), true);
      db.Leave(r.Err?);
    }

    /** The gap check over a revision chain. */
    method CheckVersions(rows: seq<Revision>) returns (complete: bool)
      ensures complete == VersionsComplete(rows)
    {
      var i := 0;
      while i < |rows|
        invariant 0 <= i <= |rows|
        invariant forall j :: 0 <= j < i ==> rows[j].version == j + 1
      {
        if rows[i].version != i + 1 {
          return false;
        }
        i := i + 1;
      }
      return true;
    }

    method AppendRevision(k: IdKey, row: RowId, actor: string, reason: string, at: Stamp)
      returns (r: Result<(), Fault>)
      modifies db
      ensures Seen(db.tables, db.open, r) ==
        Owned(old(db.tables), old(db.open), RegisterChecks(old(db.tables.ids), k.company, row, actor, reason),
              InIdentity(old(db.tables), AppendSpec(old(db.tables.ids), k, row, actor, reason, at), ()))
    {
      var args := RegisterChecks(db.tables.ids, k.company, row, actor, reason);
      if args.Err? {
        return Err(args.error);
      }
      var body := db.tables.ids.facts[row].body;
      var entered := db.Enter();
      if !entered {
        return Err(NestedTransaction);
      }
      r := AppendRows(k, row, body, actor, reason, at);
      db.Leave(r.Err?);
    }

    /** Close the old row, append the revision, append the lineage event, one after the other. */
    method AppendRows(k: IdKey, row: RowId, body: Body, actor: string, reason: string, at: Stamp)
      returns (r: Result<(), Fault>)
      requires ReadFact(db.tables.ids, k.company, row).Ok? && body == db.tables.ids.facts[row].body
      modifies db
      ensures db.open == old(db.open)
      ensures match AppendSpec(old(db.tables.ids), k, row, actor, reason, at)
              case Ok(d) => r == Ok(()) && db.tables == old(db.tables).(ids := d)
              case Err(e) => r == Err(e)
    {
      var d := db.tables.ids;
      if k !in d.identities {
        return Err(UnknownIdentity);
      }
      if row in d.rowIndex {
        return Err(AlreadyMapped);
      }
      if !d.facts[row].Open() {
        return Err(NewRowClosed);
      }
      var rows := Chain(d, k);
      var complete := CheckVersions(rows);
      if !complete {
        return Err(RevisionGap);
      }
      if rows == [] {
        return Err(NoRevisions);
      }
      var last := rows[|rows|-1];
      if last.row !in d.facts || !d.facts[last.row].Open() {
        return Err(NoLongerCurrent);
      }
      SetIdentities(CloseRow(d, last.row, row, at));
      d := db.tables.ids;
      var next := Revision(last.version + 1, row, Sha256(body), Correction, Some(last.row), actor, reason, at);
      SetIdentities(d.(revisions := d.revisions[k := rows + [next]],
                       rowIndex := d.rowIndex[row := Owner(k, |rows|)]));
      d := db.tables.ids;
      SetIdentities(d.(lineage := d.lineage + [CorrectionEventFor(k, last.version, actor, reason)]));
      return Ok(());
    }

    method RecordLineage(c: Company, kind: LineageKind, raw: seq<RawEdge>, actor: string, reason: string,
                         migration: Option<string>)
      returns (r: Result<(), Fault>)
      modifies db
      ensures
        var args :=
          if ActorReason(actor, reason).Err? then ActorReason(actor, reason)
          else Scoped(c, LineageArgs(actor, reason, kind, raw));
        Seen(db.tables, db.open, r) ==
        Owned(old(db.tables), old(db.open), args,
              InIdentity(old(db.tables), LineageSpec(old(db.tables.ids), c, kind, raw, actor, reason, migration), ()))
    {
      var checked := ActorReason(actor, reason);
      if checked.Err? {
        return Err(checked.error);
      }
      var scoped := Scoped(c, Ok(()));
      if scoped.Err? {
        return Err(scoped.error);
      }
      if raw == [] {
        return Err(BadLineageShape);
      }
      var edges: seq<Edge> := [];
      var i := 0;
      while i < |raw|
        invariant 0 <= i <= |raw|
        invariant Normalize(kind, raw[..i]) == Ok(edges)
      {
        assert raw[..i+1][..i] == raw[..i];
        var e := NormalizeEdge(kind, raw[i]);
        if e.Err? {
          NormalizeFails(kind, raw, i + 1);
          return Err(e.error);
        }
        edges := edges + [e.value];
        i := i + 1;
      }
      assert raw[..i] == raw;
      if !NoDuplicates(edges) || !ShapeOk(kind, edges) {
        return Err(BadLineageShape);
      }
      var entered := db.Enter();
      if !entered {
        return Err(NestedTransaction);
      }
      r := RecordRows(LineageEvent(c, kind, edges, actor, reason, migration));
      db.Leave(r.Err?);
    }

    method RecordRows(event: LineageEvent) returns (r: Result<(), Fault>)
      modifies db
      ensures db.open == old(db.open)
      ensures
        if EventExists(old(db.tables.ids), event)
        then r == Ok(()) && db.tables == old(db.tables).(ids := old(db.tables.ids).(lineage := old(db.tables.ids.lineage) + [event]))
        else r == Err(UnknownEndpoint)
    {
      var d := db.tables.ids;
      var i := 0;
      while i < |event.edges|
        invariant 0 <= i <= |event.edges|
        invariant db.tables == old(db.tables) && db.open == old(db.open)
        invariant forall j :: 0 <= j < i ==> EdgeExists(d, event.company, event.edges[j])
      {
        if !EdgeExists(d, event.company, event.edges[i]) {
          return Err(UnknownEndpoint);
        }
        i := i + 1;
      }
      SetIdentities(d.(lineage := d.lineage + [event]));
      return Ok(());
    }
  }

  /** A failure at a prefix is the failure of the whole normalization. */
  lemma {:induction false} NormalizeFails(kind: LineageKind, raw: seq<RawEdge>, n: nat)
    requires n <= |raw| && Normalize(kind, raw[..n]).Err?
    ensures Normalize(kind, raw) == Err(BadLineageEdge)
    decreases |raw|
  {
    NormalizeOneFault(kind, raw);
    if n < |raw| {
      assert raw[..|raw|-1][..n] == raw[..n];
      NormalizeFails(kind, raw[..|raw|-1], n);
    } else {
      assert raw[..n] == raw;
    }
  }

  lemma {:induction false} NormalizeOneFault(kind: LineageKind, raw: seq<RawEdge>)
    ensures Normalize(kind, raw).Err? ==> Normalize(kind, raw) == Err(BadLineageEdge)
  {
    if raw != [] {
      NormalizeOneFault(kind, raw[..|raw|-1]);
    }
  }

  // ---- What a caller of the store sees ------------------------------------

  /** The writer names itself and a reason, and the store was opened for the company or for all. */
  predicate WriterOk(scope: Option<Company>, c: Company, actor: string, reason: string) {
    !IsBlank(actor) && !IsBlank(reason) && (scope == None || scope == Some(c))
  }

  /** A facts row of the company that no identity owns yet. */
  predicate Unmapped(d: IdentityTables, c: Company, row: RowId) {
    row >= 1 && row in d.facts && d.facts[row].company == c && row !in d.rowIndex
  }

  /** On an idle connection a registration commits exactly for a named writer in scope and an unmapped
      row of the company; otherwise it raises and changes nothing. */
  lemma RegisterCommits(store: FactIdentityStore, t: Tables, c: Company, row: RowId, token: string, actor: string,
                        reason: string, at: Stamp)
    requires IdentityInv(t.ids) && IdKey(c, Minted(token)) !in t.ids.identities
    ensures
      var seen := Owned(t, [], store.RegisterChecks(t.ids, c, row, actor, reason),
                        InIdentity(t, RegisterSpec(t.ids, c, row, token, actor, reason, at), ()));
      && (seen.outcome.Ok? <==> WriterOk(store.scope, c, actor, reason) && Unmapped(t.ids, c, row))
      && seen.tables == (if seen.outcome.Ok? then t.(ids := RegisterSpec(t.ids, c, row, token, actor, reason, at).value) else t)
      && seen.open == []
  {
    RegisterOutcome(t.ids, c, row, token, actor, reason, at);
    hide RegisterSpec, IdentityInv;
  }

  /** Inside a caller's transaction the same conditions decide, and a refusal leaves it untouched. */
  lemma RegisterJoins(store: FactIdentityStore, t: Tables, open: seq<Tables>, c: Company, row: RowId, token: string,
                      actor: string, reason: string, at: Stamp)
    requires IdentityInv(t.ids) && IdKey(c, Minted(token)) !in t.ids.identities && open != []
    ensures
      var seen := Joined(t, open, store.RegisterChecks(t.ids, c, row, actor, reason),
                         InIdentity(t, RegisterSpec(t.ids, c, row, token, actor, reason, at), ()));
      && (seen.outcome.Ok? <==> WriterOk(store.scope, c, actor, reason) && Unmapped(t.ids, c, row))
      && seen.tables == (if seen.outcome.Ok? then t.(ids := RegisterSpec(t.ids, c, row, token, actor, reason, at).value) else t)
      && seen.open == open
  {
    RegisterOutcome(t.ids, c, row, token, actor, reason, at);
    hide RegisterSpec, IdentityInv;
  }

  /** A legacy bootstrap commits exactly for a store of the company and a row of it that is unmapped or
      carries this very identity; a second one finds its own mapping and changes nothing. */
  lemma BootstrapCommits(store: FactIdentityStore, t: Tables, c: Company, row: RowId, at: Stamp)
    requires IdentityInv(t.ids)
    ensures
      var d := t.ids;
      var args :=
        if store.Scoped(c, Ok(())).Err? then store.Scoped(c, Ok(()))
        else if ReadFact(d, c, row).Err? then Err(ReadFact(d, c, row).error)
        else Ok(());
      var seen := Owned(t, [], args, InIdentity(t, BootstrapSpec(d, c, row, at), ()));
      && (seen.outcome.Ok? <==>
            && (store.scope == None || store.scope == Some(c))
            && row >= 1 && row in d.facts && d.facts[row].company == c
            && (row in d.rowIndex ==> d.rowIndex[row] == Owner(IdKey(c, Legacy(c, row)), 0)))
      && (seen.outcome.Err? || row in d.rowIndex ==> seen.tables == t)
      && (seen.outcome.Ok? ==> seen.tables == t.(ids := BootstrapSpec(d, c, row, at).value))
      && seen.open == []
  {
    BootstrapOutcome(t.ids, c, row, at);
    hide BootstrapSpec, IdentityInv;
  }

  /** A correction commits exactly for a named writer in scope, an open unmapped row of the company, and
      an identity whose current row is open. */
  lemma AppendCommits(store: FactIdentityStore, t: Tables, k: IdKey, row: RowId, actor: string, reason: string, at: Stamp)
    requires IdentityInv(t.ids)
    ensures
      var d := t.ids;
      var seen := Owned(t, [], store.RegisterChecks(d, k.company, row, actor, reason),
                        InIdentity(t, AppendSpec(d, k, row, actor, reason, at), ()));
      && (seen.outcome.Ok? <==>
            && WriterOk(store.scope, k.company, actor, reason) && Unmapped(d, k.company, row)
            && d.facts[row].supersededBy.None? && d.facts[row].validTo.None?
            && k in d.identities && Chain(d, k) != [] && CurrentRow(d, k) in d.facts
            && d.facts[CurrentRow(d, k)].supersededBy.None? && d.facts[CurrentRow(d, k)].validTo.None?)
      && seen.tables == (if seen.outcome.Ok? then t.(ids := AppendSpec(d, k, row, actor, reason, at).value) else t)
      && seen.open == []
  {
    AppendOutcome(t.ids, k, row, actor, reason, at);
    hide AppendSpec, IdentityInv;
  }

  /** A correction fails closed: on any tables at all it extends gap-free chains only. */
  lemma AppendFailsClosed(d: IdentityTables, k: IdKey, row: RowId, actor: string, reason: string, at: Stamp)
    requires AppendSpec(d, k, row, actor, reason, at).Ok?
    ensures k in d.identities && Chain(d, k) != [] && Unmapped(d, k.company, row)
    ensures forall i :: 0 <= i < |Chain(d, k)| ==> Chain(d, k)[i].version == i + 1
    ensures CurrentRow(d, k) in d.facts && d.facts[CurrentRow(d, k)].Open() && d.facts[row].Open()
  {
  }

  /** A lineage event commits exactly for a named writer in scope, distinct well-formed edges in the
      shape of the event, and endpoints that are revisions of the company. */
  lemma LineageCommits(store: FactIdentityStore, t: Tables, c: Company, kind: LineageKind, raw: seq<RawEdge>,
                       actor: string, reason: string, migration: Option<string>)
    requires IdentityInv(t.ids)
    ensures
      var args :=
        if ActorReason(actor, reason).Err? then ActorReason(actor, reason)
        else store.Scoped(c, LineageArgs(actor, reason, kind, raw));
      var seen := Owned(t, [], args, InIdentity(t, LineageSpec(t.ids, c, kind, raw, actor, reason, migration), ()));
      var n := Normalize(kind, raw);
      && (seen.outcome.Ok? <==>
            && WriterOk(store.scope, c, actor, reason)
            && raw != [] && (forall i :: 0 <= i < |raw| ==> EdgeFits(kind, raw[i]))
            && n.Ok? && NoDuplicates(n.value) && Shaped(kind, n.value)
            && forall e :: e in n.value ==>
                 && 1 <= e.parent.version <= |Chain(t.ids, IdKey(c, e.parent.uid))|
                 && (e.child.Some? ==> 1 <= e.child.value.version <= |Chain(t.ids, IdKey(c, e.child.value.uid))|))
      && seen.tables ==
           (if !seen.outcome.Ok? then t
            else t.(ids := t.ids.(lineage := t.ids.lineage + [LineageEvent(c, kind, n.value, actor, reason, migration)])))
      && seen.open == []
  {
    LineageArgsExactly(actor, reason, kind, raw);
    LineageOutcome(t.ids, c, kind, raw, actor, reason, migration);
    hide LineageSpec, LineageArgs, IdentityInv, Shaped;
  }
}
