/** The tables that the three FactsTree stores share in one SQLite database, and
    the invariant that every store keeps. A table whose rows are read back ordered
    by a sequence column is a map from the grouping key to the rows in that order. */
module LedgerTables {
  import opened Wrappers

  type Company = string
  type RowId = int
  type Stamp = int

  /** A collision-free digest: the constructor is injective, as SHA-256 is taken to be. */
  datatype Sha<+T> = Sha256(text: T)

  // ---- Template manifests -------------------------------------------------

  datatype Leaf = Leaf(code: string, trunk: string)

  datatype Document = Document(pack: string, version: int, trunks: seq<string>, leaves: seq<Leaf>)

  /** The stored manifest_json text, by what decoding it yields. */
  datatype ManifestText = Unparsable | NotAnObject | NoDefinitions | Canonical(document: Document)

  type Digest = Sha<ManifestText>

  datatype PackKey = PackKey(pack: string, version: int)
  datatype Archive = Archive(digest: Digest, text: ManifestText)

  function DigestOf(d: Document): Digest {
    Sha256(Canonical(d))
  }

  // ---- Company binding ----------------------------------------------------

  datatype DigestSource = LegacySource | VerifiedManifest

  /** The identity a binding names: pack, version and manifest digest. */
  datatype Ident = Ident(pack: string, version: int, digest: Option<Digest>)

  datatype Meta = Meta(displayName: string, ident: Ident, locked: bool,
                       source: Option<DigestSource>, revision: int)

  datatype BindingKind = InitialBinding | LegacyBaseline | Rebind

  datatype BindingRow = BindingRow(revision: int, ident: Ident, prev: Option<Ident>, kind: BindingKind)

  // ---- Facts, identities, revisions, lineage ------------------------------

  datatype Body = Body(entity: string, attribute: string, period: string,
                       value: string, valueType: string, unit: string)

  datatype FactRow = FactRow(company: Company, body: Body,
                             supersededBy: Option<RowId>, validTo: Option<Stamp>)
  {
    predicate Open() {
      supersededBy.None? && validTo.None?
    }
  }

  datatype Uid = Minted(token: string) | Legacy(company: Company, row: RowId)

  datatype IdKey = IdKey(company: Company, uid: Uid)
  datatype FactKey = FactKey(company: Company, row: RowId)

  datatype IdentityState = Active | Retired

  datatype RevisionKind = InitialRevision | LegacyBootstrap | Correction

  datatype Revision = Revision(version: int, row: RowId, digest: Sha<Body>, kind: RevisionKind,
                               supersedes: Option<RowId>, actor: string, reason: string, at: Stamp)

  /** The unique index on fact_revisions.fact_row_id. */
  datatype Owner = Owner(key: IdKey, position: nat)

  datatype End = End(uid: Uid, version: int)
  datatype LineageKind = CorrectionEvent | Split | Merge | Retract | Migrate
  datatype Relation = Supersedes | SplitInto | MergedInto | Retires | MigratedInto
  datatype Edge = Edge(parent: End, child: Option<End>, relation: Relation)
  datatype LineageEvent = LineageEvent(company: Company, kind: LineageKind, edges: seq<Edge>,
                                       actor: string, reason: string, migration: Option<string>)

  // ---- Placements ---------------------------------------------------------

  /** The six identity columns of a placement; revision is NULL only in unproven legacy rows. */
  datatype Spot = Spot(pack: string, version: int, digest: Digest, revision: Option<int>,
                       trunk: string, leaf: string)

  datatype PlacementKind = InitialPlacement | Reassigned | Migrated

  datatype Event = Event(seqNo: int, spot: Spot, prev: Option<Spot>, at: Stamp, actor: string,
                         reason: string, kind: PlacementKind, migration: Option<string>)

  datatype Pointer = Pointer(seqNo: int, spot: Spot)

  // ---- The database -------------------------------------------------------

  datatype BindingTables = BindingTables(
    meta: map<Company, Meta>,
    projection: map<Company, Meta>,
    history: map<Company, seq<BindingRow>>,
    manifests: map<PackKey, Archive>)

  /** `written` names the companies with rows in m1_documents, m1_chunks or facts_tree_leaf_index. */
  datatype IdentityTables = IdentityTables(
    facts: map<RowId, FactRow>,
    written: set<Company>,
    identities: map<IdKey, IdentityState>,
    revisions: map<IdKey, seq<Revision>>,
    rowIndex: map<RowId, Owner>,
    lineage: seq<LineageEvent>)

  datatype PlacementTables = PlacementTables(
    histories: map<FactKey, seq<Event>>,
    pointers: map<FactKey, Pointer>)

  datatype Tables = Tables(bind: BindingTables, ids: IdentityTables, places: PlacementTables)

  const EMPTY: Tables :=
    Tables(BindingTables(map[], map[], map[], map[]),
           IdentityTables(map[], {}, map[], map[], map[], []),
           PlacementTables(map[], map[]))

  /** Every ValueError, PermissionError and IntegrityError the stores raise. */
  datatype Fault =
    | NestedTransaction | NoTransaction | ReadOnlyStore | OutsideScope
    | BlankActor | BlankReason | BlankName | BadTarget | BlankMigration | BadExpectedSeq
    | PackUnavailable | OnlyGenericPack | AlreadyRegistered | NotRegistered
    | VersionUnavailable | NoDigestBaseline | DigestMismatch
    | NoHistoryBaseline | RevisionGap | BadFirstType | FirstNamesPrevious
    | ChainBroken | RevisionDiffers | IdentityDiffers
    | NoArchive | ArchiveCorrupt | ArchiveDigestDiffers | ArchiveNotJson | ArchiveNotObject
    | ConflictingManifest | LockedOrNonempty | IntegrityError
    | NoDefinitionsInManifest | UnknownTrunk | UnknownLeaf | LeafOutsideTrunk
    | BadRowId | NoSuchFact | ForeignFact | AlreadyMapped | UnknownIdentity | NotMapped
    | NewRowClosed | NoRevisions | NotCurrentRevision | NoLongerCurrent
    | BadLineageEdge | BadLineageShape | UnknownEndpoint
    | AlreadyPlaced | NoPlacementHistory | UnprovenRevision | PointerInconsistent
    | SequenceMismatch | PointerMoved
    | NotActive | IncompleteChain | BodyRewritten | SequenceGap | InitialNamesPrevious
    | PredecessorBroken | RevisionAbsent | SpotDiffersFromBinding

  // ---- Small lookups ------------------------------------------------------

  function History(p: PlacementTables, k: FactKey): seq<Event> {
    if k in p.histories then p.histories[k] else []
  }

  function PointerOf(p: PlacementTables, k: FactKey): Option<Pointer> {
    if k in p.pointers then Some(p.pointers[k]) else None
  }

  function Chain(d: IdentityTables, k: IdKey): seq<Revision> {
    if k in d.revisions then d.revisions[k] else []
  }

  function BindingHistory(b: BindingTables, c: Company): seq<BindingRow> {
    if c in b.history then b.history[c] else []
  }

  predicate HasFacts(d: IdentityTables, c: Company) {
    exists r :: r in d.facts && d.facts[r].company == c
  }

  /** No document, chunk, fact or published leaf of the company exists. */
  predicate IsEmpty(d: IdentityTables, c: Company) {
    c !in d.written && !HasFacts(d, c)
  }

  predicate VersionsComplete(rows: seq<Revision>) {
    forall i :: 0 <= i < |rows| ==> rows[i].version == i + 1
  }

  function CurrentSpot(m: Meta, trunk: string, leaf: string): Spot
    requires m.ident.digest.Some?
  {
    Spot(m.ident.pack, m.ident.version, m.ident.digest.value, Some(m.revision), trunk, leaf)
  }

  /** The first declared leaf with this code, as next(...) over the manifest finds it. */
  function FindLeaf(leaves: seq<Leaf>, code: string): (r: Option<Leaf>)
    ensures r.Some? ==> r.value in leaves && r.value.code == code
    ensures r.None? ==> forall l :: l in leaves ==> l.code != code
  {
    if leaves == [] then None
    else if leaves[0].code == code then Some(leaves[0])
    else FindLeaf(leaves[1..], code)
  }

  /** The manifest declares the trunk, and its first leaf of that code belongs to the trunk. */
  predicate Declares(text: ManifestText, trunk: string, leaf: string) {
    && text.Canonical?
    && trunk in text.document.trunks
    && FindLeaf(text.document.leaves, leaf) == Some(Leaf(leaf, trunk))
  }

  lemma {:induction false} FindsFirst(leaves: seq<Leaf>, n: nat)
    requires n < |leaves| && forall j :: 0 <= j < n ==> leaves[j].code != leaves[n].code
    ensures FindLeaf(leaves, leaves[n].code) == Some(leaves[n])
  {
    if n > 0 {
      assert leaves[1..][n-1] == leaves[n];
      FindsFirst(leaves[1..], n - 1);
    }
  }

  lemma {:induction false} FoundIsFirst(leaves: seq<Leaf>, code: string) returns (n: nat)
    requires FindLeaf(leaves, code).Some?
    ensures n < |leaves| && leaves[n] == FindLeaf(leaves, code).value
    ensures forall j :: 0 <= j < n ==> leaves[j].code != code
  {
    if leaves[0].code == code {
      n := 0;
    } else {
      var m := FoundIsFirst(leaves[1..], code);
      n := m + 1;
      assert forall j :: 1 <= j < n ==> leaves[j] == leaves[1..][j-1];
    }
  }

  /** A manifest declares a target exactly when it lists the trunk, and the first of its leaves with
      that code belongs to the trunk. */
  lemma DeclaresExactly(text: ManifestText, trunk: string, leaf: string)
    ensures Declares(text, trunk, leaf) <==>
      && text.Canonical? && trunk in text.document.trunks
      && exists n :: 0 <= n < |text.document.leaves| && text.document.leaves[n] == Leaf(leaf, trunk)
                     && forall j :: 0 <= j < n ==> text.document.leaves[j].code != leaf
  {
    if text.Canonical? {
      var leaves := text.document.leaves;
      if FindLeaf(leaves, leaf).Some? {
        var n := FoundIsFirst(leaves, leaf);
        assert leaves[n].code == leaf;
      }
      forall n | 0 <= n < |leaves| && leaves[n] == Leaf(leaf, trunk) && forall j :: 0 <= j < n ==> leaves[j].code != leaf
        ensures FindLeaf(leaves, leaf) == Some(Leaf(leaf, trunk))
      {
        FindsFirst(leaves, n);
      }
    }
  }

  // ---- Invariant of the binding tables ------------------------------------

  /** A gap-free, linked binding history whose last row is the current binding. */
  ghost predicate BindingChain(rows: seq<BindingRow>, m: Meta) {
    && |rows| > 0
    && (forall i :: 0 <= i < |rows| ==> rows[i].revision == i + 1)
    && rows[0].kind != Rebind
    && rows[0].prev == None
    && (forall i {:trigger rows[i].prev} :: 0 < i < |rows| ==> rows[i].prev == Some(rows[i-1].ident))
    && m.revision == |rows|
    && rows[|rows|-1].ident == m.ident
    && m.ident.digest.Some?
    && m.source.Some?
  }

  ghost predicate ArchivedRow(b: BindingTables, row: BindingRow) {
    var k := PackKey(row.ident.pack, row.ident.version);
    && k in b.manifests
    && row.ident.digest == Some(b.manifests[k].digest)
  }

  /** Archived manifests hash to their digest; each binding heads a complete history of
      archived identities; the metadata projection is exactly the authoritative row. */
  ghost predicate BindingInv(b: BindingTables) {
    && (forall k :: k in b.manifests ==>
          && b.manifests[k].text.Canonical?
          && b.manifests[k].digest == Sha256(b.manifests[k].text))
    && b.meta.Keys == b.history.Keys
    && b.projection == b.meta
    && (forall c :: c in b.meta ==> BindingChain(b.history[c], b.meta[c]))
    && (forall c, i :: c in b.history && 0 <= i < |b.history[c]| ==> ArchivedRow(b, b.history[c][i]))
  }

  // ---- Invariant of the identity tables -----------------------------------

  /** One revision: indexed, in company, digest exact; facts.superseded_by names the next
      row of the chain and supersedes_row_id the one before. */
  ghost predicate RevisionInv(d: IdentityTables, k: IdKey, i: int)
    requires 0 <= i < |Chain(d, k)|
  {
    var rows := Chain(d, k);
    var row := rows[i].row;
    && row in d.rowIndex && d.rowIndex[row] == Owner(k, i)
    && row in d.facts && d.facts[row].company == k.company
    && rows[i].digest == Sha256(d.facts[row].body)
    && (if i == 0 then rows[i].supersedes == None && rows[i].kind != Correction
        else rows[i].supersedes == Some(rows[i-1].row) && rows[i].kind == Correction)
    && (i + 1 < |rows| ==>
          d.facts[row].supersededBy == Some(rows[i+1].row) && d.facts[row].validTo.Some?)
  }

  ghost predicate ChainInv(d: IdentityTables, k: IdKey) {
    var rows := Chain(d, k);
    && |rows| > 0
    && VersionsComplete(rows)
    && (k.uid.Legacy? ==> k.uid == Legacy(k.company, rows[0].row))
    && (forall i :: 0 <= i < |rows| ==> RevisionInv(d, k, i))
  }

  ghost predicate IndexInv(d: IdentityTables, r: RowId)
    requires r in d.rowIndex
  {
    var o := d.rowIndex[r];
    && o.position < |Chain(d, o.key)|
    && Chain(d, o.key)[o.position].row == r
  }

  predicate EndpointExists(d: IdentityTables, c: Company, e: End) {
    1 <= e.version <= |Chain(d, IdKey(c, e.uid))|
  }

  predicate EdgeExists(d: IdentityTables, c: Company, e: Edge) {
    EndpointExists(d, c, e.parent) && (e.child.Some? ==> EndpointExists(d, c, e.child.value))
  }

  predicate EventExists(d: IdentityTables, e: LineageEvent) {
    forall x :: x in e.edges ==> EdgeExists(d, e.company, x)
  }

  function StepEdge(uid: Uid, i: int): Edge {
    Edge(End(uid, i), Some(End(uid, i + 1)), Supersedes)
  }

  ghost predicate Recorded(lineage: seq<LineageEvent>, c: Company, e: Edge) {
    exists n :: 0 <= n < |lineage| && lineage[n].company == c && e in lineage[n].edges
  }

  /** Every step of a chain has its supersedes edge. */
  ghost predicate StepsRecorded(d: IdentityTables, k: IdKey) {
    forall i {:trigger StepEdge(k.uid, i)} ::
      1 <= i < |Chain(d, k)| ==> Recorded(d.lineage, k.company, StepEdge(k.uid, i))
  }

  ghost predicate IdentityInv(d: IdentityTables) {
    && d.identities.Keys == d.revisions.Keys
    && (forall k :: k in d.identities ==> d.identities[k] == Active)
    && (forall k :: k in d.revisions ==> ChainInv(d, k))
    && (forall r :: r in d.rowIndex ==> IndexInv(d, r))
    && (forall n :: 0 <= n < |d.lineage| ==> EventExists(d, d.lineage[n]))
    && (forall k :: k in d.revisions ==> StepsRecorded(d, k))
  }

  // ---- Invariant of the placement tables ----------------------------------

  /** The spot stands on an archived binding revision and a leaf that its manifest declares. */
  ghost predicate SpotProven(b: BindingTables, c: Company, s: Spot) {
    && s.revision.Some?
    && 1 <= s.revision.value <= |BindingHistory(b, c)|
    && BindingHistory(b, c)[s.revision.value - 1].ident == Ident(s.pack, s.version, Some(s.digest))
    && PackKey(s.pack, s.version) in b.manifests
    && Declares(b.manifests[PackKey(s.pack, s.version)].text, s.trunk, s.leaf)
  }

  /** Sequences 1..n, predecessor links, and the current pointer at the last event. */
  ghost predicate HistoryChain(h: seq<Event>, p: Pointer) {
    && |h| > 0
    && (forall i :: 0 <= i < |h| ==> h[i].seqNo == i + 1)
    && h[0].prev == None
    && (forall i {:trigger h[i].prev} :: 0 < i < |h| ==> h[i].prev == Some(h[i-1].spot))
    && p == Pointer(|h|, h[|h|-1].spot)
  }

  ghost predicate HistoryProven(b: BindingTables, c: Company, h: seq<Event>) {
    forall i :: 0 <= i < |h| ==> SpotProven(b, c, h[i].spot)
  }

  ghost predicate OwnedRow(d: IdentityTables, k: FactKey) {
    k.row in d.rowIndex && d.rowIndex[k.row].key.company == k.company
  }

  ghost predicate PlacementInv(t: Tables) {
    && t.places.histories.Keys == t.places.pointers.Keys
    && (forall k :: k in t.places.histories ==>
          && HistoryChain(t.places.histories[k], t.places.pointers[k])
          && HistoryProven(t.bind, k.company, t.places.histories[k])
          && OwnedRow(t.ids, k))
  }

  /** The joint invariant of the three stores. */
  ghost predicate Inv(t: Tables) {
    BindingInv(t.bind) && IdentityInv(t.ids) && PlacementInv(t)
  }

  /** Each event of a placed fact carries exactly the current binding of its company. */
  ghost predicate Frozen(b: BindingTables, c: Company, h: seq<Event>) {
    && c in b.meta
    && b.meta[c].ident.digest.Some?
    && forall i :: 0 <= i < |h| ==>
         && h[i].spot.pack == b.meta[c].ident.pack && h[i].spot.version == b.meta[c].ident.version
         && h[i].spot.digest == b.meta[c].ident.digest.value && h[i].spot.revision == Some(b.meta[c].revision)
  }

  ghost predicate FrozenInv(t: Tables) {
    forall k :: k in t.places.histories ==> Frozen(t.bind, k.company, t.places.histories[k])
  }

  // ---- Append-only growth -------------------------------------------------

  ghost predicate BindingGrows(b: BindingTables, c: BindingTables) {
    && (forall k :: k in b.history ==> k in c.history && b.history[k] <= c.history[k])
    && (forall k :: k in b.manifests ==> k in c.manifests && c.manifests[k] == b.manifests[k])
  }

  ghost predicate IdentityGrows(d: IdentityTables, e: IdentityTables) {
    && (forall r :: r in d.facts ==>
          r in e.facts && e.facts[r].company == d.facts[r].company && e.facts[r].body == d.facts[r].body)
    && (forall k :: k in d.identities ==> k in e.identities)
    && (forall k :: k in d.revisions ==> k in e.revisions && d.revisions[k] <= e.revisions[k])
    && (forall r :: r in d.rowIndex ==> r in e.rowIndex && e.rowIndex[r] == d.rowIndex[r])
    && d.lineage <= e.lineage
  }

  ghost predicate PlacementGrows(p: PlacementTables, q: PlacementTables) {
    forall k :: k in p.histories ==> k in q.histories && p.histories[k] <= q.histories[k]
  }

  /** Ledgers only append: nothing recorded is ever changed or removed. */
  ghost predicate Grows(t: Tables, u: Tables) {
    BindingGrows(t.bind, u.bind) && IdentityGrows(t.ids, u.ids) && PlacementGrows(t.places, u.places)
  }

  lemma GrowsTransitive(t: Tables, u: Tables, v: Tables)
    requires Grows(t, u) && Grows(u, v)
    ensures Grows(t, v)
  {
  }

  /** Placements survive any growth of the other two stores. */
  lemma PlacementsPersist(t: Tables, u: Tables)
    requires PlacementInv(t) && u.places == t.places
    requires BindingGrows(t.bind, u.bind) && IdentityGrows(t.ids, u.ids)
    ensures PlacementInv(u)
  {
    forall k | k in u.places.histories
      ensures HistoryProven(u.bind, k.company, u.places.histories[k]) && OwnedRow(u.ids, k)
    {
      ProvenPersists(t.bind, u.bind, k.company, t.places.histories[k]);
    }
  }

  lemma ProvenPersists(b: BindingTables, b': BindingTables, c: Company, h: seq<Event>)
    requires BindingGrows(b, b') && HistoryProven(b, c, h)
    ensures HistoryProven(b', c, h)
  {
    forall i | 0 <= i < |h| ensures SpotProven(b', c, h[i].spot) {
      assert SpotProven(b, c, h[i].spot) && c in b.history;
    }
  }

  /** The empty database satisfies the joint invariant. */
  lemma EmptyInv()
    ensures Inv(EMPTY) && FrozenInv(EMPTY)
  {
  }
}
