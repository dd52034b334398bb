/** The versioned placement ledger and its verified read seam (app/facts_tree/fact_placements.py). */
module FactPlacements {
  import opened Wrappers
  import opened LedgerTables
  import opened Connections
  import opened Text
  import opened CompanyBinding
  import opened FactIdentity

  // ---- Specification of the checks ----------------------------------------

  /** The fully verified current binding of a company: its metadata and archived manifest. */
  datatype Bound = Bound(meta: Meta, text: ManifestText)

  function VerifyBinding(b: BindingTables, c: Company): Result<Bound, Fault> {
    if c !in b.meta then Err(NotRegistered)
    else
      var m := b.meta[c];
      if m.ident.digest.None? || m.source.None? then Err(NoDigestBaseline)
      else
        var _ :- CheckHistory(BindingHistory(b, c), m);
        var text :- VerifyArchive(b, m.ident.pack, m.ident.version, m.ident.digest.value);
        Ok(Bound(m, text))
  }

  /** The archived manifest, re-hashed, compared with the bound digest and decoded. */
  function VerifyArchive(b: BindingTables, pack: string, version: int, digest: Digest): Result<ManifestText, Fault> {
    var k := PackKey(pack, version);
    if k !in b.manifests then Err(NoArchive)
    else
      var a := b.manifests[k];
      if a.digest != Sha256(a.text) then Err(ArchiveCorrupt)
      else if a.digest != digest then Err(ArchiveDigestDiffers)
      else if a.text.Unparsable? then Err(ArchiveNotJson)
      else if a.text.NotAnObject? then Err(ArchiveNotObject)
      else Ok(a.text)
  }

  function VerifyLeaf(text: ManifestText, trunk: string, leaf: string): Result<(), Fault> {
    if !text.Canonical? then Err(NoDefinitionsInManifest)
    else if trunk !in text.document.trunks then Err(UnknownTrunk)
    else
      match FindLeaf(text.document.leaves, leaf)
      case None => Err(UnknownLeaf)
      case Some(l) => if l.trunk != trunk then Err(LeafOutsideTrunk) else Ok(())
  }

  /** The row must be a mapped, still-current revision of its identity. */
  function ValidateFactVersion(d: IdentityTables, c: Company, row: RowId): Result<(), Fault> {
    if row !in d.facts then Err(NoSuchFact)
    else if d.facts[row].company != c then Err(ForeignFact)
    else if row !in d.rowIndex || d.rowIndex[row].key.company != c then Err(NotMapped)
    else
      var rows := Chain(d, d.rowIndex[row].key);
      if !VersionsComplete(rows) then Err(RevisionGap)
      else if rows == [] || rows[|rows|-1].row != row then Err(NotCurrentRevision)
      else if !d.facts[row].Open() then Err(NoLongerCurrent)
      else Ok(())
  }

  // ---- Specification of the write -----------------------------------------

  /** One placement request; expected is the compare-and-swap token of a reassignment. */
  datatype Request = Request(company: Company, row: RowId, trunk: string, leaf: string,
                             actor: string, reason: string, migration: Option<string>,
                             expected: Option<int>, at: Stamp)
  {
    function Key(): FactKey {
      FactKey(company, row)
    }
  }

  /** Compare-and-swap: the sequence this write takes, and the spot it replaces. */
  function NextSlot(p: PlacementTables, q: Request): Result<(int, Option<Spot>), Fault> {
    var h := History(p, q.Key());
    var pointer := PointerOf(p, q.Key());
    if q.expected.None? then
      if h != [] || pointer.Some? then Err(AlreadyPlaced) else Ok((1, None))
    else if h == [] then Err(NoPlacementHistory)
    else
      var latest := h[|h|-1];
      if latest.spot.revision.None? then Err(UnprovenRevision)
      else if pointer.Some? && pointer.value.spot.revision.None? then Err(UnprovenRevision)
      else if pointer != Some(Pointer(latest.seqNo, latest.spot)) then Err(PointerInconsistent)
      else if latest.seqNo != q.expected.value then Err(SequenceMismatch)
      else Ok((q.expected.value + 1, Some(latest.spot)))
  }

  function KindOf(q: Request): PlacementKind {
    if q.migration.Some? then Migrated
    else if q.expected.None? then InitialPlacement
    else Reassigned
  }

  /** Event and pointer of a granted slot, appended together. */
  function Placed(t: Tables, q: Request, seqNo: int, spot: Spot, prev: Option<Spot>): (Tables, Event) {
    var e := Event(seqNo, spot, prev, q.at, q.actor, q.reason, KindOf(q), q.migration);
    (t.(places := PlacementTables(
          t.places.histories[q.Key() := History(t.places, q.Key()) + [e]],
          t.places.pointers[q.Key() := Pointer(seqNo, spot)])), e)
  }

  function WriteSpec(t: Tables, q: Request): Result<(Tables, Event), Fault> {
    var bound :- VerifyBinding(t.bind, q.company);
    var _ :- VerifyLeaf(bound.text, q.trunk, q.leaf);
    var _ :- ValidateFactVersion(t.ids, q.company, q.row);
    var slot :- NextSlot(t.places, q);
    if bound.meta.ident.digest.None? then Err(NoDigestBaseline)
    else Ok(Placed(t, q, slot.0, CurrentSpot(bound.meta, q.trunk, q.leaf), slot.1))
  }

  // ---- Specification of the verified read ---------------------------------

  datatype Resolved = Resolved(key: IdKey, version: int, row: RowId, digest: Sha<Body>,
                               kind: RevisionKind, placement: Option<Event>)

  /** An event's spot against its own archived binding revision and manifest. */
  function VerifyArchivedSpot(b: BindingTables, c: Company, s: Spot): Result<(), Fault> {
    if s.revision.None? || s.revision.value < 1 then Err(UnprovenRevision)
    else if |BindingHistory(b, c)| < s.revision.value
         || BindingHistory(b, c)[s.revision.value - 1].revision != s.revision.value then Err(RevisionAbsent)
    else if BindingHistory(b, c)[s.revision.value - 1].ident != Ident(s.pack, s.version, Some(s.digest)) then
      Err(SpotDiffersFromBinding)
    else
      var k := PackKey(s.pack, s.version);
      if k !in b.manifests then Err(NoArchive)
      else if b.manifests[k].digest != s.digest || Sha256(b.manifests[k].text) != s.digest then Err(ArchiveCorrupt)
      else if b.manifests[k].text.Unparsable? then Err(ArchiveNotJson)
      else if b.manifests[k].text.NotAnObject? then Err(ArchiveNotObject)
      else VerifyLeaf(b.manifests[k].text, s.trunk, s.leaf)
  }

  function CheckEvent(b: BindingTables, c: Company, h: seq<Event>, i: nat): Result<(), Fault>
    requires i < |h|
  {
    if h[i].seqNo != i + 1 then Err(SequenceGap)
    else if i == 0 && h[i].prev.Some? then Err(InitialNamesPrevious)
    else if i > 0 && h[i].prev != Some(h[i-1].spot) then Err(PredecessorBroken)
    else VerifyArchivedSpot(b, c, h[i].spot)
  }

  /** The first fault among the first n events, in the order in which they are checked. */
  function CheckEvents(b: BindingTables, c: Company, h: seq<Event>, n: nat): Result<(), Fault>
    requires n <= |h|
  {
    if n == 0 then Ok(())
    else
      var _ :- CheckEvents(b, c, h, n - 1);
      CheckEvent(b, c, h, n - 1)
  }

  function CurrentPlacement(t: Tables, k: FactKey): Result<Option<Event>, Fault> {
    var h := History(t.places, k);
    var pointer := PointerOf(t.places, k);
    if h == [] && pointer.None? then Ok(None)
    else if h == [] || pointer.None? then Err(PointerInconsistent)
    else
      var _ :- CheckEvents(t.bind, k.company, h, |h|);
      var latest := h[|h|-1];
      if pointer.value != Pointer(latest.seqNo, latest.spot) then Err(PointerInconsistent)
      else Ok(Some(latest))
  }

  function ResolveSpec(t: Tables, k: IdKey): Result<Option<Resolved>, Fault> {
    if k !in t.ids.identities then Ok(None)
    else if t.ids.identities[k] != Active then Err(NotActive)
    else
      var rows := Chain(t.ids, k);
      if rows == [] || !VersionsComplete(rows) then Err(IncompleteChain)
      else
        var r := rows[|rows|-1];
        var _ :- ValidateFactVersion(t.ids, k.company, r.row);
        if Sha256(t.ids.facts[r.row].body) != r.digest then Err(BodyRewritten)
        else
          var placement :- CurrentPlacement(t, FactKey(k.company, r.row));
          Ok(Some(Resolved(k, r.version, r.row, r.digest, r.kind, placement)))
  }

  // ---- The reader never rejects what the writers wrote --------------------

  lemma ProvenSpotVerifies(b: BindingTables, c: Company, s: Spot)
    requires BindingInv(b) && SpotProven(b, c, s)
    ensures VerifyArchivedSpot(b, c, s) == Ok(())
  {
    assert c in b.history && BindingChain(b.history[c], b.meta[c]);
    assert ArchivedRow(b, b.history[c][s.revision.value - 1]);
  }

  lemma {:induction false} EventsVerify(b: BindingTables, c: Company, h: seq<Event>, p: Pointer, n: nat)
    requires BindingInv(b) && HistoryChain(h, p) && HistoryProven(b, c, h) && n <= |h|
    ensures CheckEvents(b, c, h, n) == Ok(())
  {
    hide BindingInv, SpotProven, VerifyArchivedSpot;
    if n > 0 {
      EventsVerify(b, c, h, p, n - 1);
      assert SpotProven(b, c, h[n-1].spot);
      ProvenSpotVerifies(b, c, h[n-1].spot);
    }
  }

  /** The placement of a fact version: the last event of its history, or none. */
  function LastEvent(p: PlacementTables, k: FactKey): Option<Event> {
    if History(p, k) == [] then None else Some(History(p, k)[|History(p, k)|-1])
  }

  lemma PlacementReads(t: Tables, k: FactKey)
    requires Inv(t)
    ensures CurrentPlacement(t, k) == Ok(LastEvent(t.places, k))
  {
    hide IdentityInv, BindingInv, HistoryProven, CheckEvents, OwnedRow;
    if k in t.places.histories {
      var h := t.places.histories[k];
      EventsVerify(t.bind, k.company, h, t.places.pointers[k], |h|);
    }
  }

  /** In every state satisfying the joint invariant the paranoid reader raises exactly when the
      current facts row of the identity is closed; otherwise it returns the latest revision
      with the last event of that row's history, or no placement when it has none. */
  lemma ReaderAccepts(t: Tables, k: IdKey)
    requires Inv(t) && k in t.ids.identities
    ensures |Chain(t.ids, k)| > 0 && CurrentRow(t.ids, k) in t.ids.facts
    ensures
      var rows := Chain(t.ids, k);
      var r := rows[|rows|-1];
      ResolveSpec(t, k) ==
        if t.ids.facts[r.row].Open()
        then Ok(Some(Resolved(k, |rows|, r.row, r.digest, r.kind, LastEvent(t.places, FactKey(k.company, r.row)))))
        else Err(NoLongerCurrent)
  {
    var rows := Chain(t.ids, k);
    assert ChainInv(t.ids, k);
    assert RevisionInv(t.ids, k, |rows| - 1);
    PlacementReads(t, FactKey(k.company, rows[|rows|-1].row));
  }

  // ---- What a write promises ----------------------------------------------

  /** The company is bound and the manifest of its binding declares the target. */
  predicate TargetDeclared(b: BindingTables, q: Request) {
    && q.company in b.meta
    && PackKey(b.meta[q.company].ident.pack, b.meta[q.company].ident.version) in b.manifests
    && Declares(b.manifests[PackKey(b.meta[q.company].ident.pack, b.meta[q.company].ident.version)].text, q.trunk, q.leaf)
  }

  /** The row is the latest revision of an identity of the company, and open. */
  predicate CurrentVersion(d: IdentityTables, c: Company, row: RowId) {
    && row in d.rowIndex && d.rowIndex[row].key.company == c
    && |Chain(d, d.rowIndex[row].key)| > 0 && CurrentRow(d, d.rowIndex[row].key) == row
    && row in d.facts && d.facts[row].supersededBy.None? && d.facts[row].validTo.None?
  }

  /** No placement yet for an initial write; exactly `expected` of them for a reassignment. */
  predicate SlotFree(p: PlacementTables, q: Request) {
    |History(p, q.Key())| == if q.expected.None? then 0 else q.expected.value
  }

  lemma BindingVerifies(b: BindingTables, q: Request)
    requires BindingInv(b)
    ensures TargetDeclared(b, q) <==>
      VerifyBinding(b, q.company).Ok? && VerifyLeaf(VerifyBinding(b, q.company).value.text, q.trunk, q.leaf).Ok?
    ensures VerifyBinding(b, q.company).Ok? ==>
      q.company in b.meta && VerifyBinding(b, q.company).value.meta == b.meta[q.company]
  {
    if q.company in b.meta {
      var m := b.meta[q.company];
      var rows := b.history[q.company];
      assert BindingChain(rows, m);
      assert ArchivedRow(b, rows[|rows|-1]);
      assert CheckHistory(rows, m) == Ok(());
    }
  }

  lemma VersionValidates(d: IdentityTables, c: Company, row: RowId)
    requires IdentityInv(d)
    ensures ValidateFactVersion(d, c, row).Ok? <==> CurrentVersion(d, c, row)
  {
    if row in d.rowIndex {
      assert IndexInv(d, row);
      var o := d.rowIndex[row];
      assert ChainInv(d, o.key);
      assert RevisionInv(d, o.key, o.position);
    }
  }

  lemma SlotGranted(t: Tables, q: Request)
    requires PlacementInv(t) && (q.expected.Some? ==> q.expected.value >= 1)
    ensures NextSlot(t.places, q).Ok? <==> SlotFree(t.places, q)
    ensures SlotFree(t.places, q) ==>
      NextSlot(t.places, q) == Ok((|History(t.places, q.Key())| + 1,
                                   if LastEvent(t.places, q.Key()).None? then None
                                   else Some(LastEvent(t.places, q.Key()).value.spot)))
  {
    hide PlacementInv;
    NoHistoryNoPointer(t, q.Key());
    if History(t.places, q.Key()) != [] {
      LatestPlaced(t, q.Key());
    }
  }

  /** A placed fact: the pointer stands at its latest event, whose binding revision is proven. */
  lemma LatestPlaced(t: Tables, k: FactKey)
    requires PlacementInv(t) && History(t.places, k) != []
    ensures
      var h := History(t.places, k);
      var latest := h[|h|-1];
      latest.seqNo == |h| && latest.spot.revision.Some? && PointerOf(t.places, k) == Some(Pointer(|h|, latest.spot))
  {
    ReadHistory(t, k);
    hide PlacementInv;
    assert SpotProven(t.bind, k.company, History(t.places, k)[|History(t.places, k)|-1].spot);
  }

  lemma NoHistoryNoPointer(t: Tables, k: FactKey)
    requires PlacementInv(t)
    ensures History(t.places, k) == [] <==> PointerOf(t.places, k).None?
  {
    if k in t.places.histories {
      assert HistoryChain(t.places.histories[k], t.places.pointers[k]);
    }
  }

  predicate WriteAllowed(t: Tables, q: Request) {
    TargetDeclared(t.bind, q) && CurrentVersion(t.ids, q.company, q.row) && SlotFree(t.places, q)
  }

  /** The event a granted request records: next sequence, the company's current binding, the
      requested leaf, the predecessor's spot, and the caller's own actor, reason and migration. */
  function GrantedEvent(t: Tables, q: Request): Event
    requires q.company in t.bind.meta && t.bind.meta[q.company].ident.digest.Some?
  {
    var last, m := LastEvent(t.places, q.Key()), t.bind.meta[q.company];
    Event(|History(t.places, q.Key())| + 1,
          Spot(m.ident.pack, m.ident.version, m.ident.digest.value, Some(m.revision), q.trunk, q.leaf),
          if last.None? then None else Some(last.value.spot), q.at, q.actor, q.reason,
          if q.migration.Some? then Migrated else if q.expected.None? then InitialPlacement else Reassigned,
          q.migration)
  }

  /** Every fail-closed check of the writer collapses, under the invariant, to three plain
      conditions; the write then appends one event, moves the pointer to it and nothing else. */
  lemma WriteOutcome(t: Tables, q: Request)
    requires Inv(t) && (q.expected.Some? ==> q.expected.value >= 1)
    ensures WriteSpec(t, q).Ok? <==> WriteAllowed(t, q)
    ensures WriteAllowed(t, q) ==> q.company in t.bind.meta && t.bind.meta[q.company].ident.digest.Some?
    ensures WriteAllowed(t, q) ==> WriteSpec(t, q) == Ok((Appended(t, q), GrantedEvent(t, q)))
  {
    hide ValidateFactVersion, VerifyBinding, VerifyLeaf, NextSlot, IdentityInv, PlacementInv, BindingInv,
      CurrentVersion, SlotFree, Declares;
    BindingVerifies(t.bind, q);
    VersionValidates(t.ids, q.company, q.row);
    SlotGranted(t, q);
    BoundDigest(t.bind, q.company);
  }

  lemma BoundDigest(b: BindingTables, c: Company)
    requires BindingInv(b)
    ensures c in b.meta ==> b.meta[c].ident.digest.Some? && b.meta[c].revision == |BindingHistory(b, c)| > 0
    ensures c in b.meta ==> BindingHistory(b, c)[b.meta[c].revision - 1].ident == b.meta[c].ident
  {
    if c in b.meta {
      assert BindingChain(b.history[c], b.meta[c]);
    }
  }

  /** The tables after a granted request. */
  function Appended(t: Tables, q: Request): Tables
    requires q.company in t.bind.meta && t.bind.meta[q.company].ident.digest.Some?
  {
    var e := GrantedEvent(t, q);
    t.(places := PlacementTables(
         t.places.histories[q.Key() := History(t.places, q.Key()) + [e]],
         t.places.pointers[q.Key() := Pointer(e.seqNo, e.spot)]))
  }

  /** A placement keeps the joint invariant, and keeps every event on the current binding. */
  lemma WriteKeeps(t: Tables, q: Request)
    requires Inv(t) && WriteAllowed(t, q)
    requires t.bind.meta[q.company].ident.digest.Some?
    ensures Inv(Appended(t, q)) && Grows(t, Appended(t, q))
    ensures FrozenInv(t) ==> FrozenInv(Appended(t, q))
  {
    hide IdentityInv, BindingInv, CurrentVersion, SlotFree, Declares, HistoryChain, HistoryProven, GrantedEvent;
    AppendedHistory(t, q);
    AppendedFrozen(t, q);
    var u := Appended(t, q);
    forall x | x in u.places.histories
      ensures HistoryChain(u.places.histories[x], u.places.pointers[x])
      ensures HistoryProven(u.bind, x.company, u.places.histories[x]) && OwnedRow(u.ids, x)
    {
      assert x != q.Key() ==> x in t.places.histories;
    }
  }

  lemma AppendedFrozen(t: Tables, q: Request)
    requires WriteAllowed(t, q) && t.bind.meta[q.company].ident.digest.Some?
    ensures FrozenInv(t) ==> FrozenInv(Appended(t, q))
    ensures OwnedRow(t.ids, q.Key())
  {
    hide SlotFree, Declares;
    var k := q.Key();
    if FrozenInv(t) {
      assert k in t.places.histories ==> Frozen(t.bind, k.company, t.places.histories[k]);
    }
  }

  lemma AppendedHistory(t: Tables, q: Request)
    requires Inv(t) && WriteAllowed(t, q) && t.bind.meta[q.company].ident.digest.Some?
    ensures
      var e := GrantedEvent(t, q);
      var h := History(t.places, q.Key()) + [e];
      && HistoryChain(h, Pointer(e.seqNo, e.spot))
      && HistoryProven(t.bind, q.company, h)
  {
    GrantedSpot(t, q);
    ReadHistory(t, q.Key());
    hide BindingInv, IdentityInv, PlacementInv, SpotProven, TargetDeclared, CurrentVersion, SlotFree,
      HistoryProven, HistoryChain;
    ExtendHistory(t.bind, q.company, History(t.places, q.Key()),
                  if q.Key() in t.places.pointers then t.places.pointers[q.Key()] else Pointer(0, GrantedEvent(t, q).spot),
                  GrantedEvent(t, q));
  }

  lemma GrantedSpot(t: Tables, q: Request)
    requires BindingInv(t.bind) && TargetDeclared(t.bind, q) && t.bind.meta[q.company].ident.digest.Some?
    ensures SpotProven(t.bind, q.company, GrantedEvent(t, q).spot)
  {
    BoundDigest(t.bind, q.company);
  }

  /** Appending the next event to a complete chain keeps it complete and proven. */
  lemma ExtendHistory(b: BindingTables, c: Company, h: seq<Event>, p: Pointer, e: Event)
    requires h == [] || (HistoryChain(h, p) && HistoryProven(b, c, h))
    requires e.seqNo == |h| + 1 && e.prev == (if h == [] then None else Some(h[|h|-1].spot))
    requires SpotProven(b, c, e.spot)
    ensures HistoryChain(h + [e], Pointer(e.seqNo, e.spot)) && HistoryProven(b, c, h + [e])
  {
    hide SpotProven;
    assert forall i :: 0 <= i < |h| ==> (h + [e])[i] == h[i];
  }

  lemma ReadHistory(t: Tables, k: FactKey)
    requires PlacementInv(t)
    ensures History(t.places, k) == [] || (
      && k in t.places.pointers
      && HistoryChain(History(t.places, k), t.places.pointers[k])
      && HistoryProven(t.bind, k.company, History(t.places, k)))
  {
    hide HistoryChain, HistoryProven, OwnedRow;
  }

  // ---- The store ----------------------------------------------------------

  class FactPlacementStore {
    const db: Connection
    const scope: Option<Company>
    const readOnly: bool

    constructor (db: Connection, scope: Option<Company>, readOnly: bool)
      ensures this.db == db && this.scope == scope && this.readOnly == readOnly
    {
      this.db, this.scope, this.readOnly := db, scope, readOnly;
    }

    /** The argument checks of every write, in order; a joining migration write must name
        its migration. */
    function Args(q: Request, needsMigration: bool): Result<(), Fault> {
      var _ :- ActorReason(q.actor, q.reason);
      if q.row < 1 || IsBlank(q.trunk) || IsBlank(q.leaf) then Err(BadTarget)
      else if q.migration.None? && needsMigration then Err(BlankMigration)
      else if q.migration.Some? && IsBlank(q.migration.value) then Err(BlankMigration)
      else if q.expected.Some? && q.expected.value < 1 then Err(BadExpectedSeq)
      else if scope.Some? && scope.value != q.company then Err(OutsideScope)
      else if readOnly then Err(ReadOnlyStore)
      else Ok(())
    }

    method VerifyCurrentBinding(c: Company) returns (r: Result<Bound, Fault>)
      ensures r == VerifyBinding(db.tables.bind, c)
    {
      var b := db.tables.bind;
      if c !in b.meta {
        return Err(NotRegistered);
      }
      var m := b.meta[c];
      if m.ident.digest.None? || m.source.None? {
        return Err(NoDigestBaseline);
      }
      var chain := CheckHistoryRows(BindingHistory(b, c), m);
      if chain.Err? {
        return Err(chain.error);
      }
      var archive := VerifyArchive(b, m.ident.pack, m.ident.version, m.ident.digest.value);
      if archive.Err? {
        return Err(archive.error);
      }
      return Ok(Bound(m, archive.value));
    }

    method ValidateVersion(c: Company, row: RowId) returns (r: Result<(), Fault>)
      ensures r == ValidateFactVersion(db.tables.ids, c, row)
    {
      var d := db.tables.ids;
      if row !in d.facts {
        return Err(NoSuchFact);
      }
      if d.facts[row].company != c {
        return Err(ForeignFact);
      }
      if row !in d.rowIndex || d.rowIndex[row].key.company != c {
        return Err(NotMapped);
      }
      var rows := Chain(d, d.rowIndex[row].key);
      var i := 0;
      while i < |rows|
        invariant 0 <= i <= |rows|
        invariant forall j :: 0 <= j < i ==> rows[j].version == j + 1
      {
        if rows[i].version != i + 1 {
          return Err(RevisionGap);
        }
        i := i + 1;
      }
      if rows == [] || rows[|rows|-1].row != row {
        return Err(NotCurrentRevision);
      }
      if !d.facts[row].Open() {
        return Err(NoLongerCurrent);
      }
      return Ok(());
    }

    /** One placement write inside an open transaction: verify, append the event, move the
        pointer. A failure may leave the event behind; the caller's savepoint removes it. */
    method WriteCore(q: Request) returns (r: Result<Event, Fault>)
      modifies db
      ensures db.open == old(db.open)
      ensures match WriteSpec(old(db.tables), q)
              case Ok((u, e)) => r == Ok(e) && db.tables == u
              case Err(e) => r == Err(e)
    {
      var bound := VerifyCurrentBinding(q.company);
      if bound.Err? {
        return Err(bound.error);
      }
      var leaf := VerifyLeaf(bound.value.text, q.trunk, q.leaf);
      if leaf.Err? {
        return Err(leaf.error);
      }
      var version := ValidateVersion(q.company, q.row);
      if version.Err? {
        return Err(version.error);
      }
      var slot := NextSlot(db.tables.places, q);
      if slot.Err? {
        return Err(slot.error);
      }
      var (seqNo, prev) := slot.value;
      var k := q.Key();
      var spot := CurrentSpot(bound.value.meta, q.trunk, q.leaf);
      var e := Event(seqNo, spot, prev, q.at, q.actor, q.reason, KindOf(q), q.migration);
      var p := db.tables.places;
      db.tables := db.tables.(places := p.(histories := p.histories[k := History(p, k) + [e]]));
      p := db.tables.places;
      if prev.None? {
        if k in p.pointers {
          return Err(IntegrityError);
        }
      } else if k !in p.pointers || p.pointers[k].seqNo != q.expected.value {
        return Err(PointerMoved);
      }
      db.tables := db.tables.(places := p.(pointers := p.pointers[k := Pointer(seqNo, spot)]));
      return Ok(e);
    }

    /** place_initial and reassign: a store-owned transaction. */
    method Write(q: Request) returns (r: Result<Event, Fault>)
      modifies db
      ensures Seen(db.tables, db.open, r) ==
        Owned(old(db.tables), old(db.open), Args(q, false), WriteSpec(old(db.tables), q))
    {
      var args := Args(q, false);
      if args.Err? {
        return Err(args.error);
      }
      var entered := db.Enter();
      if !entered {
        return Err(NestedTransaction);
      }
      r := WriteCore(q);
      db.Leave(r.Err?);
    }

    /** The three *_in_transaction writes; only publication may omit the migration id. */
    method WriteJoined(q: Request, publication: bool) returns (r: Result<Event, Fault>)
      modifies db
      ensures Seen(db.tables, db.open, r) ==
        Joined(old(db.tables), old(db.open), Args(q, !publication), WriteSpec(old(db.tables), q))
    {
      var args := Args(q, !publication);
      if args.Err? {
        return Err(args.error);
      }
      if db.open == [] {
        return Err(NoTransaction);
      }
      db.Savepoint();
      r := WriteCore(q);
      db.LeaveSavepoint(r.Err?);
    }

    /** resolve_current_identity over one snapshot. */
    method ResolveCurrentIdentity(k: IdKey) returns (r: Result<Option<Resolved>, Fault>)
      ensures r == if scope.Some? && scope.value != k.company then Err(OutsideScope) else ResolveSpec(db.tables, k)
    {
      if scope.Some? && scope.value != k.company {
        return Err(OutsideScope);
      }
      var t := db.tables;
      if k !in t.ids.identities {
        return Ok(None);
      }
      if t.ids.identities[k] != Active {
        return Err(NotActive);
      }
      var rows := Chain(t.ids, k);
      if rows == [] || !VersionsComplete(rows) {
        return Err(IncompleteChain);
      }
      var revision := rows[|rows|-1];
      var version := ValidateVersion(k.company, revision.row);
      if version.Err? {
        return Err(version.error);
      }
      if Sha256(t.ids.facts[revision.row].body) != revision.digest {
        return Err(BodyRewritten);
      }
      var placement := ReadPlacement(FactKey(k.company, revision.row));
      if placement.Err? {
        return Err(placement.error);
      }
      return Ok(Some(Resolved(k, revision.version, revision.row, revision.digest, revision.kind, placement.value)));
    }

    method ReadPlacement(k: FactKey) returns (r: Result<Option<Event>, Fault>)
      ensures r == CurrentPlacement(db.tables, k)
    {
      var t := db.tables;
      var h := History(t.places, k);
      var pointer := PointerOf(t.places, k);
      if h == [] && pointer.None? {
        return Ok(None);
      }
      if h == [] || pointer.None? {
        return Err(PointerInconsistent);
      }
      var i := 0;
      while i < |h|
        invariant 0 <= i <= |h|
        invariant CheckEvents(t.bind, k.company, h, i) == Ok(())
      {
        var checked := CheckEvent(t.bind, k.company, h, i);
        if checked.Err? {
          FirstFault(t.bind, k.company, h, i + 1, |h|);
          return Err(checked.error);
        }
        i := i + 1;
      }
      var latest := h[|h|-1];
      if pointer.value != Pointer(latest.seqNo, latest.spot) {
        return Err(PointerInconsistent);
      }
      return Ok(Some(latest));
    }
  }

  /** A fault among the first events is the fault of the whole history. */
  lemma {:induction false} FirstFault(b: BindingTables, c: Company, h: seq<Event>, n: nat, m: nat)
    requires n <= m <= |h| && CheckEvents(b, c, h, n).Err?
    ensures CheckEvents(b, c, h, m) == CheckEvents(b, c, h, n)
    decreases m
  {
    if n < m {
      FirstFault(b, c, h, n, m - 1);
    }
  }
}
