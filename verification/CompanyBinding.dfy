/** The explicit company binding service (app/facts_tree/company_binding.py) and the
    write-once manifest archive it commits together with (manifest_registry.py). */
module CompanyBinding {
  import opened Wrappers
  import opened LedgerTables
  import opened Connections
  import opened Text

  /** What load_pack can return today, by pack name; it may change between calls. */
  type Packs = map<string, Document>

  // ---- Specification ------------------------------------------------------

  function LoadPack(packs: Packs, name: string): Result<Document, Fault> {
    if name in packs && packs[name].pack == name && packs[name].version >= 1
    then Ok(packs[name])
    else Err(PackUnavailable)
  }

  function IdentOf(d: Document): Ident {
    Ident(d.pack, d.version, Some(DigestOf(d)))
  }

  /** The bound version and digest must both match the template loadable today. */
  function VerifyBound(m: Meta, packs: Packs): Result<(), Fault> {
    var d :- LoadPack(packs, m.ident.pack);
    if d.version != m.ident.version then Err(VersionUnavailable)
    else if m.ident.digest.None? || m.source.None? then Err(NoDigestBaseline)
    else if m.ident.digest.value != DigestOf(d) then Err(DigestMismatch)
    else Ok(())
  }

  predicate RevisionsComplete(rows: seq<BindingRow>) {
    forall i :: 0 <= i < |rows| ==> rows[i].revision == i + 1
  }

  predicate Linked(rows: seq<BindingRow>) {
    forall i {:trigger rows[i].prev} :: 0 < i < |rows| ==> rows[i].prev == Some(rows[i-1].ident)
  }

  /** The fail-closed history rules, in the order in which they are checked. */
  function CheckHistory(rows: seq<BindingRow>, m: Meta): Result<(), Fault> {
    if rows == [] then Err(NoHistoryBaseline)
    else if !RevisionsComplete(rows) then Err(RevisionGap)
    else if rows[0].kind == Rebind then Err(BadFirstType)
    else if rows[0].prev.Some? then Err(FirstNamesPrevious)
    else if !Linked(rows) then Err(ChainBroken)
    else if rows[|rows|-1].revision != m.revision then Err(RevisionDiffers)
    else if rows[|rows|-1].ident != m.ident then Err(IdentityDiffers)
    else Ok(())
  }

  /** Exact archive lookup: None only when no archive exists. */
  function Lookup(b: BindingTables, pack: string, version: int,
                  expected: Option<Digest>): Result<Option<Archive>, Fault> {
    var k := PackKey(pack, version);
    if k !in b.manifests then Ok(None)
    else if b.manifests[k].digest != Sha256(b.manifests[k].text) then Err(ArchiveCorrupt)
    else if expected.Some? && expected.value != b.manifests[k].digest then Err(ArchiveDigestDiffers)
    else Ok(Some(b.manifests[k]))
  }

  function EnsureArchived(b: BindingTables, d: Document): Result<BindingTables, Fault> {
    var k := PackKey(d.pack, d.version);
    if k !in b.manifests then Ok(b.(manifests := b.manifests[k := Archive(DigestOf(d), Canonical(d))]))
    else if b.manifests[k].digest != Sha256(b.manifests[k].text) then Err(ArchiveCorrupt)
    else if b.manifests[k] != Archive(DigestOf(d), Canonical(d)) then Err(ConflictingManifest)
    else Ok(b)
  }

  function Get(b: BindingTables, packs: Packs, c: Company): Result<Option<Meta>, Fault> {
    if c !in b.meta then Ok(None)
    else
      var m := b.meta[c];
      var _ :- VerifyBound(m, packs);
      var _ :- CheckHistory(BindingHistory(b, c), m);
      var a :- Lookup(b, m.ident.pack, m.ident.version, m.ident.digest);
      if a.None? then Err(NoArchive) else Ok(Some(m))
  }

  /** Re-verify the binding and rewrite its metadata projection. */
  function Project(b: BindingTables, packs: Packs, c: Company): Result<BindingTables, Fault> {
    var m :- Get(b, packs, c);
    if m.None? then Err(NotRegistered)
    else Ok(b.(projection := b.projection[c := m.value]))
  }

  function TargetPack(packs: Packs, pack: string): Result<Document, Fault> {
    if pack != "generic" then Err(OnlyGenericPack) else LoadPack(packs, pack)
  }

  /** INSERT INTO company_template_binding_history under its primary key. */
  function AppendBinding(b: BindingTables, c: Company, row: BindingRow): Result<BindingTables, Fault> {
    var rows := BindingHistory(b, c);
    if exists i :: 0 <= i < |rows| && rows[i].revision == row.revision then Err(IntegrityError)
    else Ok(b.(history := b.history[c := rows + [row]]))
  }

  /** The last two steps of a registration or a rebind, in the order in which they run. */
  function BindingSteps(b: BindingTables, packs: Packs, c: Company, m: Meta,
                        row: BindingRow): Result<BindingTables, Fault> {
    var b2 := b.(meta := b.meta[c := m]);
    var b3 :- AppendBinding(b2, c, row);
    Project(b3, packs, c)
  }

  function RegisterSpec(b: BindingTables, packs: Packs, c: Company, name: string,
                        pack: string): Result<BindingTables, Fault> {
    var d :- TargetPack(packs, pack);
    if IsBlank(name) then Err(BlankName)
    else if c in b.meta then Err(AlreadyRegistered)
    else
      var b1 :- EnsureArchived(b, d);
      BindingSteps(b1, packs, c, Meta(name, IdentOf(d), false, Some(VerifiedManifest), 1),
                   BindingRow(1, IdentOf(d), None, InitialBinding))
  }

  /** Only an unlocked, empty company may move, and a failed verification may only be
      recovered by moving to a different version. */
  function MayRebind(m: Meta, packs: Packs, empty: bool, same: bool): Result<(), Fault> {
    match VerifyBound(m, packs)
    case Err(e) => if m.locked || !empty || same then Err(e) else Ok(())
    case Ok(_) => if m.locked || !empty then Err(LockedOrNonempty) else Ok(())
  }

  function RebindMeta(m: Meta, d: Document): Meta {
    Meta(m.displayName, IdentOf(d), m.locked, Some(VerifiedManifest), m.revision + 1)
  }

  function RebindRow(m: Meta, d: Document): BindingRow {
    BindingRow(m.revision + 1, IdentOf(d), Some(m.ident), Rebind)
  }

  function BindPackSpec(b: BindingTables, packs: Packs, empty: bool, c: Company,
                        pack: string): Result<BindingTables, Fault> {
    var d :- TargetPack(packs, pack);
    if c !in b.meta then Err(NotRegistered)
    else
      var m := b.meta[c];
      var same := m.ident.pack == d.pack && m.ident.version == d.version;
      var _ :- MayRebind(m, packs, empty, same);
      if same then Project(b, packs, c)
      else
        var b1 :- EnsureArchived(b, d);
        BindingSteps(b1, packs, c, RebindMeta(m, d), RebindRow(m, d))
  }

  function MarkLockedSpec(b: BindingTables, packs: Packs, c: Company): Result<BindingTables, Fault> {
    var m :- Get(b, packs, c);
    if m.None? then Err(NotRegistered)
    else Project(b.(meta := b.meta[c := m.value.(locked := true)]), packs, c)
  }

  // ---- What the operations keep and promise -------------------------------

  /** load_pack returns a validated template of that name. */
  predicate Loadable(packs: Packs, name: string) {
    name in packs && packs[name].pack == name && packs[name].version >= 1
  }

  /** The template loadable today is the very document that the bound version archived. */
  predicate StillCurrent(b: BindingTables, packs: Packs, m: Meta) {
    && Loadable(packs, m.ident.pack) && packs[m.ident.pack].version == m.ident.version
    && PackKey(m.ident.pack, m.ident.version) in b.manifests
    && b.manifests[PackKey(m.ident.pack, m.ident.version)].text == Canonical(packs[m.ident.pack])
  }

  /** Why today's template does not verify a bound identity. */
  function TemplateFault(packs: Packs, m: Meta): Fault {
    if !Loadable(packs, m.ident.pack) then PackUnavailable
    else if packs[m.ident.pack].version != m.ident.version then VersionUnavailable
    else DigestMismatch
  }

  lemma VerifiedExactly(b: BindingTables, packs: Packs, c: Company)
    requires BindingInv(b) && c in b.meta
    ensures VerifyBound(b.meta[c], packs) ==
      if StillCurrent(b, packs, b.meta[c]) then Ok(()) else Err(TemplateFault(packs, b.meta[c]))
  {
    var rows := b.history[c];
    assert BindingChain(rows, b.meta[c]);
    assert ArchivedRow(b, rows[|rows|-1]);
  }

  /** Under the invariant the reader of a binding fails only on today's template, and exactly when
      that is not the archived document: history and archive never stand in its way. */
  lemma GetFailsOnlyOnTemplate(b: BindingTables, packs: Packs, c: Company)
    requires BindingInv(b) && c in b.meta
    ensures Get(b, packs, c) ==
      if StillCurrent(b, packs, b.meta[c]) then Ok(Some(b.meta[c])) else Err(TemplateFault(packs, b.meta[c]))
  {
    VerifiedExactly(b, packs, c);
    var rows := b.history[c];
    assert BindingChain(rows, b.meta[c]);
    assert ArchivedRow(b, rows[|rows|-1]);
  }

  /** The reader fails closed: on any tables at all, sound or not, it returns exactly the bindings with
      a complete linked history whose template loads and is archived unchanged. */
  lemma GetFailsClosed(b: BindingTables, packs: Packs, c: Company)
    ensures Get(b, packs, c).Ok? && Get(b, packs, c).value.Some? <==>
      && c in b.meta && BindingChain(BindingHistory(b, c), b.meta[c]) && StillCurrent(b, packs, b.meta[c])
      && b.meta[c].ident.digest == Some(Sha256(Canonical(packs[b.meta[c].ident.pack])))
      && b.manifests[PackKey(b.meta[c].ident.pack, b.meta[c].ident.version)].digest
           == Sha256(Canonical(packs[b.meta[c].ident.pack]))
    ensures Get(b, packs, c).Ok? && c in b.meta ==> Get(b, packs, c).value == Some(b.meta[c])
  {
    if c in b.meta {
      var rows, m := BindingHistory(b, c), b.meta[c];
      HistoryExactly(rows, m);
      hide CheckHistory, BindingChain;
    }
  }

  /** The history rules accept exactly the complete, linked chains that end in the bound identity. */
  lemma HistoryExactly(rows: seq<BindingRow>, m: Meta)
    ensures CheckHistory(rows, m).Ok? && m.ident.digest.Some? && m.source.Some? <==> BindingChain(rows, m)
  {
    assert |rows| > 0 && RevisionsComplete(rows) ==> rows[|rows|-1].revision == |rows|;
  }

  /** Nothing but this very document is archived under its pack and version. */
  predicate ArchiveAgrees(b: BindingTables, d: Document) {
    PackKey(d.pack, d.version) in b.manifests ==> b.manifests[PackKey(d.pack, d.version)].text == Canonical(d)
  }

  /** Archiving succeeds exactly for a new version and for a version archived with the same document;
      the first is added, the second stays as it is. */
  lemma ArchivingOutcome(b: BindingTables, d: Document)
    requires BindingInv(b)
    ensures EnsureArchived(b, d) ==
      if ArchiveAgrees(b, d)
      then Ok(b.(manifests := b.manifests[PackKey(d.pack, d.version) := Archive(Sha256(Canonical(d)), Canonical(d))]))
      else Err(ConflictingManifest)
  {
    var k := PackKey(d.pack, d.version);
    assert k in b.manifests ==> b.manifests[k := b.manifests[k]] == b.manifests;
  }

  /** The company now bound as `m` says, one history row longer, its template archived. */
  function Rebound(b: BindingTables, c: Company, m: Meta, row: BindingRow, d: Document): BindingTables {
    BindingTables(b.meta[c := m],
                  b.projection[c := m],
                  b.history[c := BindingHistory(b, c) + [row]],
                  b.manifests[PackKey(d.pack, d.version) := Archive(Sha256(Canonical(d)), Canonical(d))])
  }

  lemma ReboundKeeps(b: BindingTables, c: Company, m: Meta, row: BindingRow, d: Document)
    requires BindingInv(b) && ArchiveAgrees(b, d)
    requires BindingChain(BindingHistory(b, c) + [row], m) && row.ident == IdentOf(d)
    ensures BindingInv(Rebound(b, c, m, row, d)) && BindingGrows(b, Rebound(b, c, m, row, d))
  {
    var b' := Rebound(b, c, m, row, d);
    forall k, i | k in b'.history && 0 <= i < |b'.history[k]| ensures ArchivedRow(b', b'.history[k][i]) {
      if k != c || i < |BindingHistory(b, c)| {
        assert ArchivedRow(b, b.history[k][i]);
      }
    }
  }

  /** A binding just written to a loadable, archived template verifies at once. */
  lemma FreshBindingProjects(b: BindingTables, packs: Packs, c: Company, m: Meta, d: Document)
    requires LoadPack(packs, d.pack) == Ok(d) && m.ident == IdentOf(d) && m.source.Some?
    requires c in b.meta && b.meta[c] == m && CheckHistory(BindingHistory(b, c), m) == Ok(())
    requires PackKey(d.pack, d.version) in b.manifests
    requires b.manifests[PackKey(d.pack, d.version)] == Archive(DigestOf(d), Canonical(d))
    ensures Project(b, packs, c) == Ok(b.(projection := b.projection[c := m]))
  {
  }

  lemma BindingStepsSucceed(b: BindingTables, packs: Packs, c: Company, m: Meta, row: BindingRow, d: Document)
    requires BindingInv(b) && ArchiveAgrees(b, d) && LoadPack(packs, d.pack) == Ok(d)
    requires BindingChain(BindingHistory(b, c) + [row], m) && m.ident == IdentOf(d)
    ensures EnsureArchived(b, d).Ok?
    ensures BindingSteps(EnsureArchived(b, d).value, packs, c, m, row) == Ok(Rebound(b, c, m, row, d))
  {
    ArchivingOutcome(b, d);
    hide Project, LoadPack, EnsureArchived;
    var b1 := EnsureArchived(b, d).value;
    var rows := BindingHistory(b, c) + [row];
    assert CheckHistory(rows, m) == Ok(());
    assert row == rows[|rows|-1];
    assert forall i :: 0 <= i < |rows| - 1 ==> BindingHistory(b, c)[i] == rows[i];
    FreshBindingProjects(b1.(meta := b1.meta[c := m], history := b1.history[c := rows]), packs, c, m, d);
  }

  predicate RegisterAllowed(b: BindingTables, packs: Packs, c: Company, name: string, pack: string) {
    && pack == "generic" && Loadable(packs, pack) && !IsBlank(name) && c !in b.meta
    && ArchiveAgrees(b, packs[pack])
  }

  /** The tables after a registration: the company stands unlocked at revision 1 of the template, with
      one history row that names no predecessor, and the template is archived. */
  function Registered(b: BindingTables, c: Company, name: string, d: Document): BindingTables {
    var ident := Ident(d.pack, d.version, Some(Sha256(Canonical(d))));
    Rebound(b, c, Meta(name, ident, false, Some(VerifiedManifest), 1), BindingRow(1, ident, None, InitialBinding), d)
  }

  /** Registration succeeds exactly for an unbound company, a nonblank name and a loadable generic
      pack under whose version nothing else is archived; it then binds revision 1 to that template. */
  lemma RegisterOutcome(b: BindingTables, packs: Packs, c: Company, name: string, pack: string)
    requires BindingInv(b)
    ensures RegisterSpec(b, packs, c, name, pack).Ok? <==> RegisterAllowed(b, packs, c, name, pack)
    ensures RegisterAllowed(b, packs, c, name, pack) ==>
      var b' := Registered(b, c, name, packs[pack]);
      RegisterSpec(b, packs, c, name, pack) == Ok(b') && BindingInv(b') && BindingGrows(b, b')
  {
    if pack == "generic" && Loadable(packs, pack) {
      ArchivingOutcome(b, packs[pack]);
    }
    if RegisterAllowed(b, packs, c, name, pack) {
      hide BindingSteps, EnsureArchived, Rebound, BindingGrows, ArchiveAgrees;
      var d := packs[pack];
      var m := Meta(name, IdentOf(d), false, Some(VerifiedManifest), 1);
      var row := BindingRow(1, IdentOf(d), None, InitialBinding);
      assert BindingHistory(b, c) + [row] == [row];
      BindingStepsSucceed(b, packs, c, m, row, d);
      ReboundKeeps(b, c, m, row, d);
    }
  }

  /** Any number of companies can be bound to one template: after one registration, every other
      unbound company can register the same pack. */
  lemma SecondCompanyRegisters(b: BindingTables, packs: Packs, c: Company, name: string, d: Company, other: string)
    requires BindingInv(b) && RegisterSpec(b, packs, c, name, "generic").Ok?
    requires d != c && d !in b.meta && !IsBlank(other)
    ensures
      var b' := RegisterSpec(b, packs, c, name, "generic").value;
      RegisterSpec(b', packs, d, other, "generic") == Ok(Registered(b', d, other, packs["generic"]))
  {
    hide RegisterSpec, BindingInv;
    RegisterOutcome(b, packs, c, name, "generic");
    RegisterOutcome(RegisterSpec(b, packs, c, name, "generic").value, packs, d, other, "generic");
  }

  predicate SameTarget(m: Meta, d: Document) {
    m.ident.pack == d.pack && m.ident.version == d.version
  }

  lemma BindPackNeeds(b: BindingTables, packs: Packs, empty: bool, c: Company, pack: string)
    requires BindPackSpec(b, packs, empty, c, pack).Ok?
    ensures c in b.meta && pack == "generic" && LoadPack(packs, pack).Ok?
  {
  }

  /** A binding to the same target only re-verifies: nothing at all changes. */
  lemma BindSameTarget(b: BindingTables, packs: Packs, empty: bool, c: Company, pack: string)
    requires BindingInv(b) && c in b.meta && pack == "generic" && LoadPack(packs, pack).Ok?
    requires SameTarget(b.meta[c], packs[pack])
    ensures BindPackSpec(b, packs, empty, c, pack) ==
      if !StillCurrent(b, packs, b.meta[c]) then Err(TemplateFault(packs, b.meta[c]))
      else if b.meta[c].locked || !empty then Err(LockedOrNonempty)
      else Ok(b)
  {
    VerifiedExactly(b, packs, c);
    GetFailsOnlyOnTemplate(b, packs, c);
    assert b.projection[c := b.meta[c]] == b.projection;
  }

  lemma MayRebindElsewhere(m: Meta, packs: Packs, empty: bool)
    ensures MayRebind(m, packs, empty, false).Ok? <==> !m.locked && empty
  {
  }

  lemma RebindChain(b: BindingTables, c: Company, d: Document)
    requires BindingInv(b) && c in b.meta
    ensures BindingChain(BindingHistory(b, c) + [RebindRow(b.meta[c], d)], RebindMeta(b.meta[c], d))
  {
    assert BindingChain(b.history[c], b.meta[c]);
  }

  /** A rebind to another version happens exactly when the company is unlocked and empty and nothing
      else is archived under the target; it keeps the name, stays unlocked, and appends one revision
      that names the old identity as predecessor. */
  lemma RebindOutcome(b: BindingTables, packs: Packs, empty: bool, c: Company, pack: string)
    requires BindingInv(b) && c in b.meta && pack == "generic" && LoadPack(packs, pack).Ok?
    requires !SameTarget(b.meta[c], packs[pack])
    ensures
      var r := BindPackSpec(b, packs, empty, c, pack);
      var m := b.meta[c];
      var d := packs[pack];
      var ident := Ident(d.pack, d.version, Some(Sha256(Canonical(d))));
      && (r.Ok? <==> !m.locked && empty && ArchiveAgrees(b, d))
      && (r.Ok? ==>
            && r.value == Rebound(b, c, Meta(m.displayName, ident, false, Some(VerifiedManifest), m.revision + 1),
                                  BindingRow(m.revision + 1, ident, Some(m.ident), Rebind), d)
            && BindingInv(r.value) && BindingGrows(b, r.value))
  {
    hide MayRebind, BindingSteps, EnsureArchived, Rebound, BindingGrows, BindingInv, BindingChain, ArchiveAgrees;
    var m := b.meta[c];
    var d := packs[pack];
    MayRebindElsewhere(m, packs, empty);
    ArchivingOutcome(b, d);
    if !m.locked && empty && ArchiveAgrees(b, d) {
      RebindChain(b, c, d);
      BindingStepsSucceed(b, packs, c, RebindMeta(m, d), RebindRow(m, d), d);
      ReboundKeeps(b, c, RebindMeta(m, d), RebindRow(m, d), d);
    }
  }

  /** Locking succeeds exactly when the binding verifies, and changes only the lock. */
  lemma MarkLockedOutcome(b: BindingTables, packs: Packs, c: Company)
    requires BindingInv(b)
    ensures
      var r := MarkLockedSpec(b, packs, c);
      && (r.Ok? <==> c in b.meta && StillCurrent(b, packs, b.meta[c]))
      && (r.Ok? ==>
            var m := b.meta[c].(locked := true);
            && r.value == b.(meta := b.meta[c := m], projection := b.projection[c := m])
            && BindingInv(r.value) && BindingGrows(b, r.value))
  {
    if c in b.meta {
      GetFailsOnlyOnTemplate(b, packs, c);
      if StillCurrent(b, packs, b.meta[c]) {
        LockedVerifies(b, packs, c);
        RewriteMetaKeeps(b, c, b.meta[c].(locked := true));
      }
    }
  }

  /** Metadata that keeps the bound identity and revision may be rewritten freely. */
  lemma RewriteMetaKeeps(b: BindingTables, c: Company, m: Meta)
    requires BindingInv(b) && c in b.meta
    requires m.ident == b.meta[c].ident && m.revision == b.meta[c].revision && m.source.Some?
    ensures BindingInv(b.(meta := b.meta[c := m], projection := b.projection[c := m]))
  {
    var b' := b.(meta := b.meta[c := m], projection := b.projection[c := m]);
    assert BindingChain(b.history[c], b.meta[c]);
    assert BindingChain(b'.history[c], m);
    hide BindingChain;
    forall k, i | k in b'.history && 0 <= i < |b'.history[k]| ensures ArchivedRow(b', b'.history[k][i]) {
      assert ArchivedRow(b, b.history[k][i]);
    }
  }

  lemma LockedVerifies(b: BindingTables, packs: Packs, c: Company)
    requires Get(b, packs, c).Ok? && c in b.meta
    ensures
      var m := b.meta[c].(locked := true);
      Get(b.(meta := b.meta[c := m]), packs, c) == Ok(Some(m))
  {
    var m := b.meta[c].(locked := true);
    assert CheckHistory(BindingHistory(b, c), m) == CheckHistory(BindingHistory(b, c), b.meta[c]);
  }

  /** Which binds succeed, for a registered company and a loadable generic pack. */
  predicate BindAllowed(b: BindingTables, packs: Packs, empty: bool, c: Company, pack: string) {
    && pack == "generic" && Loadable(packs, pack)
    && c in b.meta && !b.meta[c].locked && empty
    && if SameTarget(b.meta[c], packs[pack]) then StillCurrent(b, packs, b.meta[c]) else ArchiveAgrees(b, packs[pack])
  }

  /** The tables after a bind: the version already bound stays, another is appended as the next revision. */
  function AfterBind(b: BindingTables, packs: Packs, c: Company, pack: string): BindingTables
    requires c in b.meta && pack in packs
  {
    var m, d := b.meta[c], packs[pack];
    var ident := Ident(d.pack, d.version, Some(Sha256(Canonical(d))));
    if SameTarget(m, d) then b
    else Rebound(b, c, Meta(m.displayName, ident, false, Some(VerifiedManifest), m.revision + 1),
                 BindingRow(m.revision + 1, ident, Some(m.ident), Rebind), d)
  }

  lemma BindPackOutcome(b: BindingTables, packs: Packs, empty: bool, c: Company, pack: string)
    requires BindingInv(b)
    ensures BindPackSpec(b, packs, empty, c, pack).Ok? <==> BindAllowed(b, packs, empty, c, pack)
    ensures BindAllowed(b, packs, empty, c, pack) ==>
      BindPackSpec(b, packs, empty, c, pack) == Ok(AfterBind(b, packs, c, pack))
  {
    if c in b.meta && pack == "generic" && LoadPack(packs, pack).Ok? {
      if SameTarget(b.meta[c], packs[pack]) {
        BindSameTarget(b, packs, empty, c, pack);
      } else {
        RebindOutcome(b, packs, empty, c, pack);
      }
      hide BindPackSpec, BindingInv, ArchiveAgrees, StillCurrent, Rebound;
    } else if BindPackSpec(b, packs, empty, c, pack).Ok? {
      BindPackNeeds(b, packs, empty, c, pack);
    }
  }

  /** Whatever the emptiness hook answers, a bind_pack keeps the binding invariant; when the
      hook denies emptiness, the company keeps its binding exactly. */
  lemma BindPackKeeps(b: BindingTables, packs: Packs, empty: bool, c: Company, pack: string)
    requires BindingInv(b)
    ensures
      var r := BindPackSpec(b, packs, empty, c, pack);
      r.Ok? ==>
        && BindingInv(r.value) && BindingGrows(b, r.value)
        && (forall d :: d in b.meta && (d == c ==> !empty) ==> d in r.value.meta && r.value.meta[d] == b.meta[d])
  {
    var r := BindPackSpec(b, packs, empty, c, pack);
    if r.Ok? {
      BindPackNeeds(b, packs, empty, c, pack);
      hide BindPackSpec, EnsureArchived, ArchiveAgrees;
      if SameTarget(b.meta[c], packs[pack]) {
        BindSameTarget(b, packs, empty, c, pack);
      } else {
        RebindOutcome(b, packs, empty, c, pack);
      }
    }
  }

  // ---- The store ----------------------------------------------------------

  /** The loop shared by CompanyBindingStore._check_history and the placement writer. */
  method CheckHistoryRows(rows: seq<BindingRow>, m: Meta) returns (r: Result<(), Fault>)
    ensures r == CheckHistory(rows, m)
  {
    if rows == [] {
      return Err(NoHistoryBaseline);
    }
    var i := 0;
    while i < |rows|
      invariant 0 <= i <= |rows|
      invariant forall j :: 0 <= j < i ==> rows[j].revision == j + 1
    {
      if rows[i].revision != i + 1 {
        return Err(RevisionGap);
      }
      i := i + 1;
    }
    if rows[0].kind == Rebind {
      return Err(BadFirstType);
    }
    if rows[0].prev.Some? {
      return Err(FirstNamesPrevious);
    }
    i := 1;
    while i < |rows|
      invariant 1 <= i <= |rows|
      invariant forall j :: 0 < j < i ==> rows[j].prev == Some(rows[j-1].ident)
    {
      if rows[i].prev != Some(rows[i-1].ident) {
        return Err(ChainBroken);
      }
      i := i + 1;
    }
    if rows[|rows|-1].revision != m.revision {
      return Err(RevisionDiffers);
    }
    if rows[|rows|-1].ident != m.ident {
      return Err(IdentityDiffers);
    }
    return Ok(());
  }

  function InBinding(t: Tables, r: Result<BindingTables, Fault>): Result<(Tables, ()), Fault> {
    match r
    case Ok(b) => Ok((t.(bind := b), ()))
    case Err(e) => Err(e)
  }

  function RegisterArgs(packs: Packs, name: string, pack: string): Result<(), Fault> {
    var _ :- TargetPack(packs, pack);
    if IsBlank(name) then Err(BlankName) else Ok(())
  }

  function BindPackArgs(packs: Packs, pack: string): Result<(), Fault> {
    var _ :- TargetPack(packs, pack);
    Ok(())
  }

  class CompanyBindingStore {
    const db: Connection
    const scope: Option<Company>
    const readOnly: bool

    constructor (db: Connection, scope: Option<Company>, readOnly: bool)
      ensures this.db == db && this.scope == scope && this.readOnly == readOnly
    {
      this.db, this.scope, this.readOnly := db, scope, readOnly;
    }

    /** The checks of every write before its other arguments are looked at. */
    function Scoped(c: Company, args: Result<(), Fault>): Result<(), Fault> {
      if readOnly then Err(ReadOnlyStore)
      else if scope.Some? && scope.value != c then Err(OutsideScope)
      else args
    }

    method Read(packs: Packs, c: Company) returns (r: Result<Option<Meta>, Fault>)
      ensures r == Get(db.tables.bind, packs, c)
    {
      if c !in db.tables.bind.meta {
        return Ok(None);
      }
      var m := db.tables.bind.meta[c];
      var v := VerifyBound(m, packs);
      if v.Err? {
        return Err(v.error);
      }
      var h := CheckHistoryRows(BindingHistory(db.tables.bind, c), m);
      if h.Err? {
        return Err(h.error);
      }
      var a := Lookup(db.tables.bind, m.ident.pack, m.ident.version, m.ident.digest);
      if a.Err? {
        return Err(a.error);
      }
      if a.value.None? {
        return Err(NoArchive);
      }
      return Ok(Some(m));
    }

    /** get(): the verified binding, for the store's own company only. */
    method GetBinding(packs: Packs, c: Company) returns (r: Result<Option<Meta>, Fault>)
      ensures r == if scope.Some? && scope.value != c then Err(OutsideScope) else Get(db.tables.bind, packs, c)
    {
      if scope.Some? && scope.value != c {
        return Err(OutsideScope);
      }
      r := Read(packs, c);
    }

    method SetBinding(b: BindingTables)
      modifies db
      ensures db.open == old(db.open) && db.tables == old(db.tables).(bind := b)
    {
      db.tables := db.tables.(bind := b);
    }

    /** _project: rewrites the projection of a verified binding in the open transaction. */
    method ProjectRow(packs: Packs, c: Company) returns (r: Result<(), Fault>)
      modifies db
      ensures db.open == old(db.open)
      ensures match Project(old(db.tables.bind), packs, c)
              case Ok(b) => r == Ok(()) && db.tables == old(db.tables).(bind := b)
              case Err(e) => r == Err(e)
    {
      var m := Read(packs, c);
      if m.Err? {
        return Err(m.error);
      }
      if m.value.None? {
        return Err(NotRegistered);
      }
      SetBinding(db.tables.bind.(projection := db.tables.bind.projection[c := m.value.value]));
      return Ok(());
    }

    method Register(packs: Packs, c: Company, name: string, pack: string) returns (r: Result<(), Fault>)
      modifies db
      ensures Seen(db.tables, db.open, r) ==
        Owned(old(db.tables), old(db.open), Scoped(c, RegisterArgs(packs, name, pack)),
              InBinding(old(db.tables), RegisterSpec(old(db.tables.bind), packs, c, name, pack)))
    {
      var args := Scoped(c, RegisterArgs(packs, name, pack));
      if args.Err? {
        return Err(args.error);
      }
      var entered := db.Enter();
      if !entered {
        return Err(NestedTransaction);
      }
      r := RegisterRows(packs, c, name, TargetPack(packs, pack).value);
      db.Leave(r.Err?);
    }

    method RegisterRows(packs: Packs, c: Company, name: string, d: Document) returns (r: Result<(), Fault>)
      requires TargetPack(packs, "generic") == Ok(d) && !IsBlank(name)
      modifies db
      ensures db.open == old(db.open)
      ensures match RegisterSpec(old(db.tables.bind), packs, c, name, "generic")
              case Ok(b) => r == Ok(()) && db.tables == old(db.tables).(bind := b)
              case Err(e) => r == Err(e)
    {
      if c in db.tables.bind.meta {
        return Err(AlreadyRegistered);
      }
      var archived := EnsureArchived(db.tables.bind, d);
      if archived.Err? {
        return Err(archived.error);
      }
      SetBinding(archived.value);
      r := WriteBinding(packs, c, Meta(name, IdentOf(d), false, Some(VerifiedManifest), 1),
                        BindingRow(1, IdentOf(d), None, InitialBinding));
    }

    /** Metadata row, then history row, then projection. */
    method WriteBinding(packs: Packs, c: Company, m: Meta, row: BindingRow) returns (r: Result<(), Fault>)
      modifies db
      ensures db.open == old(db.open)
      ensures match BindingSteps(old(db.tables.bind), packs, c, m, row)
              case Ok(b) => r == Ok(()) && db.tables == old(db.tables).(bind := b)
              case Err(e) => r == Err(e)
    {
      SetBinding(db.tables.bind.(meta := db.tables.bind.meta[c := m]));
      var appended := AppendBinding(db.tables.bind, c, row);
      if appended.Err? {
        return Err(appended.error);
      }
      SetBinding(appended.value);
      r := ProjectRow(packs, c);
    }

    method BindPack(packs: Packs, c: Company, pack: string) returns (r: Result<(), Fault>)
      modifies db
      ensures Seen(db.tables, db.open, r) ==
        Owned(old(db.tables), old(db.open), Scoped(c, BindPackArgs(packs, pack)),
              InBinding(old(db.tables),
                        BindPackSpec(old(db.tables.bind), packs, IsEmpty(old(db.tables.ids), c), c, pack)))
    {
      var args := Scoped(c, BindPackArgs(packs, pack));
      if args.Err? {
        return Err(args.error);
      }
      var entered := db.Enter();
      if !entered {
        return Err(NestedTransaction);
      }
      r := BindPackRows(packs, c, TargetPack(packs, pack).value);
      db.Leave(r.Err?);
    }

    method BindPackRows(packs: Packs, c: Company, d: Document) returns (r: Result<(), Fault>)
      requires TargetPack(packs, "generic") == Ok(d)
      modifies db
      ensures db.open == old(db.open)
      ensures match BindPackSpec(old(db.tables.bind), packs, IsEmpty(old(db.tables.ids), c), c, "generic")
              case Ok(b) => r == Ok(()) && db.tables == old(db.tables).(bind := b)
              case Err(e) => r == Err(e)
    {
      if c !in db.tables.bind.meta {
        return Err(NotRegistered);
      }
      var m := db.tables.bind.meta[c];
      var same := m.ident.pack == d.pack && m.ident.version == d.version;
      var allowed := MayRebind(m, packs, IsEmpty(db.tables.ids, c), same);
      if allowed.Err? {
        return Err(allowed.error);
      }
      if same {
        r := ProjectRow(packs, c);
        return;
      }
      var archived := EnsureArchived(db.tables.bind, d);
      if archived.Err? {
        return Err(archived.error);
      }
      SetBinding(archived.value);
      r := WriteBinding(packs, c, RebindMeta(m, d), RebindRow(m, d));
    }

    method MarkLocked(packs: Packs, c: Company) returns (r: Result<(), Fault>)
      modifies db
      ensures Seen(db.tables, db.open, r) ==
        Owned(old(db.tables), old(db.open), Scoped(c, Ok(())),
              InBinding(old(db.tables), MarkLockedSpec(old(db.tables.bind), packs, c)))
    {
      var args := Scoped(c, Ok(()));
      if args.Err? {
        return Err(args.error);
      }
      var entered := db.Enter();
      if !entered {
        return Err(NestedTransaction);
      }
      var m := Read(packs, c);
      if m.Err? {
        r := Err(m.error);
      } else if m.value.None? {
        r := Err(NotRegistered);
      } else {
        SetBinding(db.tables.bind.(meta := db.tables.bind.meta[c := m.value.value.(locked := true)]));
        r := ProjectRow(packs, c);
      }
      db.Leave(r.Err?);
    }
  }

  // ---- What a caller of the store sees ------------------------------------

  /** The store was opened for this company, or for all of them. */
  predicate Covers(scope: Option<Company>, c: Company) {
    scope == None || scope == Some(c)
  }

  /** On an idle connection a registration commits exactly when it is in scope and allowed; otherwise
      it raises and leaves every table as it was. */
  lemma RegisterCommits(store: CompanyBindingStore, t: Tables, packs: Packs, c: Company, name: string, pack: string)
    requires BindingInv(t.bind)
    ensures
      var seen := Owned(t, [], store.Scoped(c, RegisterArgs(packs, name, pack)),
                        InBinding(t, RegisterSpec(t.bind, packs, c, name, pack)));
      && (seen.outcome.Ok? <==> !store.readOnly && Covers(store.scope, c) && RegisterAllowed(t.bind, packs, c, name, pack))
      && seen.tables == (if seen.outcome.Ok? then t.(bind := Registered(t.bind, c, name, packs[pack])) else t)
      && seen.open == []
  {
    RegisterOutcome(t.bind, packs, c, name, pack);
    hide RegisterSpec, BindingInv, Registered, ArchiveAgrees;
  }

  /** A bind commits exactly for a registered, unlocked and empty company and a loadable generic pack:
      the version already bound must still verify and stays as it is, another must be archived with
      nothing else and becomes the next revision. */
  lemma BindPackCommits(store: CompanyBindingStore, t: Tables, packs: Packs, c: Company, pack: string)
    requires BindingInv(t.bind)
    ensures
      var empty := c !in t.ids.written && forall r :: r in t.ids.facts ==> t.ids.facts[r].company != c;
      var seen := Owned(t, [], store.Scoped(c, BindPackArgs(packs, pack)),
                        InBinding(t, BindPackSpec(t.bind, packs, IsEmpty(t.ids, c), c, pack)));
      && (seen.outcome.Ok? <==>
            !store.readOnly && Covers(store.scope, c) && BindAllowed(t.bind, packs, empty, c, pack))
      && seen.tables == (if seen.outcome.Ok? then t.(bind := AfterBind(t.bind, packs, c, pack)) else t)
      && seen.open == []
  {
    BindPackOutcome(t.bind, packs, IsEmpty(t.ids, c), c, pack);
    hide BindPackSpec, BindingInv, ArchiveAgrees, StillCurrent, AfterBind;
  }

  /** Locking commits exactly in scope and for a binding whose template is still current. */
  lemma LockCommits(store: CompanyBindingStore, t: Tables, packs: Packs, c: Company)
    requires BindingInv(t.bind)
    ensures
      var seen := Owned(t, [], store.Scoped(c, Ok(())), InBinding(t, MarkLockedSpec(t.bind, packs, c)));
      && (seen.outcome.Ok? <==>
            && !store.readOnly && Covers(store.scope, c)
            && c in t.bind.meta && StillCurrent(t.bind, packs, t.bind.meta[c]))
      && (seen.outcome.Err? ==> seen.tables == t)
      && (seen.outcome.Ok? ==>
            var m := t.bind.meta[c].(locked := true);
            seen.tables == t.(bind := t.bind.(meta := t.bind.meta[c := m], projection := t.bind.projection[c := m])))
      && seen.open == []
  {
    MarkLockedOutcome(t.bind, packs, c);
    hide MarkLockedSpec, BindingInv, StillCurrent;
  }
}
