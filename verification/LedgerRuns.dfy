/** Runs of the three stores over one database: every interleaving of their committed
    operations, of other writers of the facts table, and of changing template packs. */
module LedgerRuns {
  import opened Wrappers
  import opened LedgerTables
  import opened CompanyBinding
  import opened FactIdentity
  import opened FactPlacements

  /** The emptiness answer bind_pack acts on: the store's own check, or an injected hook. */
  datatype EmptyHook = OwnCheck | Injected(answer: bool)

  datatype Op =
    | Register(company: Company, name: string, pack: string)
    | BindPack(company: Company, pack: string, hook: EmptyHook)
    | MarkLocked(company: Company)
    | RegisterInitial(company: Company, row: RowId, token: string, actor: string, reason: string, at: Stamp)
    | BootstrapLegacy(company: Company, row: RowId, at: Stamp)
    | AppendRevision(key: IdKey, row: RowId, actor: string, reason: string, at: Stamp)
    | RecordLineage(company: Company, kind: LineageKind, raw: seq<RawEdge>,
                    actor: string, reason: string, migration: Option<string>)
    | Place(request: Request)
    // Other writers of the shared database.
    | InsertFact(row: RowId, fact: FactRow)
    | CloseFact(row: RowId, successor: Option<RowId>, at: Stamp)
    | WriteOther(company: Company, present: bool)

  /** An operation together with the packs that load_pack can load at that moment. */
  datatype Step = Step(packs: Packs, op: Op)

  function Emptiness(t: Tables, c: Company, hook: EmptyHook): bool {
    match hook
    case OwnCheck => IsEmpty(t.ids, c)
    case Injected(answer) => answer
  }

  function OnBinding(t: Tables, r: Result<BindingTables, Fault>): Result<Tables, Fault> {
    var b :- r;
    Ok(t.(bind := b))
  }

  function OnIdentity(t: Tables, r: Result<IdentityTables, Fault>): Result<Tables, Fault> {
    var d :- r;
    Ok(t.(ids := d))
  }

  /** Inserts never reuse a row id; a row is closed only while nothing supersedes it. */
  function OtherWriter(d: IdentityTables, op: Op): IdentityTables {
    match op
    case InsertFact(row, fact) => if row in d.facts then d else d.(facts := d.facts[row := fact])
    case CloseFact(row, successor, at) =>
      if row in d.facts && d.facts[row].supersededBy.None?
      then d.(facts := d.facts[row := d.facts[row].(supersededBy := successor, validTo := Some(at))])
      else d
    case WriteOther(c, present) => d.(written := if present then d.written + {c} else d.written - {c})
    case _ => d
  }

  function Do(t: Tables, s: Step): Result<Tables, Fault> {
    match s.op
    case Register(c, name, pack) => OnBinding(t, CompanyBinding.RegisterSpec(t.bind, s.packs, c, name, pack))
    case BindPack(c, pack, hook) => OnBinding(t, BindPackSpec(t.bind, s.packs, Emptiness(t, c, hook), c, pack))
    case MarkLocked(c) => OnBinding(t, MarkLockedSpec(t.bind, s.packs, c))
    case RegisterInitial(c, row, token, actor, reason, at) =>
      OnIdentity(t, FactIdentity.RegisterSpec(t.ids, c, row, token, actor, reason, at))
    case BootstrapLegacy(c, row, at) => OnIdentity(t, BootstrapSpec(t.ids, c, row, at))
    case AppendRevision(k, row, actor, reason, at) => OnIdentity(t, AppendSpec(t.ids, k, row, actor, reason, at))
    case RecordLineage(c, kind, raw, actor, reason, migration) =>
      OnIdentity(t, LineageSpec(t.ids, c, kind, raw, actor, reason, migration))
    case Place(q) =>
      if q.expected.Some? && q.expected.value < 1 then Err(BadExpectedSeq)
      else
        var (u, _) :- WriteSpec(t, q);
        Ok(u)
    case _ => Ok(t.(ids := OtherWriter(t.ids, s.op)))
  }

  /** A refused operation rolls back: the state stays as it was. */
  function After(t: Tables, s: Step): Tables {
    match Do(t, s)
    case Ok(u) => u
    case Err(_) => t
  }

  function Run(t: Tables, steps: seq<Step>): Tables {
    if steps == [] then t else After(Run(t, steps[..|steps|-1]), steps[|steps|-1])
  }

  // ---- Every step keeps the joint invariant -------------------------------

  lemma OtherWriterKeeps(d: IdentityTables, op: Op)
    requires IdentityInv(d)
    ensures IdentityInv(OtherWriter(d, op)) && IdentityGrows(d, OtherWriter(d, op))
  {
    hide ChainInv, StepsRecorded, EventExists, OtherWriter;
    var u := OtherWriter(d, op);
    OtherWriterGrows(d, op);
    forall k | k in u.revisions ensures ChainInv(u, k) && StepsRecorded(u, k) {
      OtherWriterChain(d, op, k);
    }
    forall r | r in u.rowIndex ensures IndexInv(u, r) {
      assert IndexInv(d, r);
    }
    EventsPersist(d, u);
  }

  lemma OtherWriterGrows(d: IdentityTables, op: Op)
    ensures IdentityGrows(d, OtherWriter(d, op))
    ensures OtherWriter(d, op) == d.(facts := OtherWriter(d, op).facts, written := OtherWriter(d, op).written)
  {
  }

  lemma OtherWriterChain(d: IdentityTables, op: Op, k: IdKey)
    requires ChainInv(d, k) && StepsRecorded(d, k)
    ensures ChainInv(OtherWriter(d, op), k) && StepsRecorded(OtherWriter(d, op), k)
  {
    var u := OtherWriter(d, op);
    assert forall i {:trigger StepEdge(k.uid, i)} ::
        1 <= i < |Chain(u, k)| ==> Recorded(u.lineage, k.company, StepEdge(k.uid, i));
    forall i | 0 <= i < |Chain(u, k)| ensures RevisionInv(u, k, i) {
      assert RevisionInv(d, k, i);
    }
  }

  lemma BindingStepKeeps(t: Tables, b: BindingTables)
    requires Inv(t) && BindingInv(b) && BindingGrows(t.bind, b)
    ensures Inv(t.(bind := b)) && Grows(t, t.(bind := b))
  {
    PlacementsPersist(t, t.(bind := b));
  }

  lemma IdentityStepKeeps(t: Tables, d: IdentityTables)
    requires Inv(t) && IdentityInv(d) && IdentityGrows(t.ids, d)
    ensures Inv(t.(ids := d)) && Grows(t, t.(ids := d))
  {
    hide IdentityInv;
    PlacementsPersist(t, t.(ids := d));
  }

  lemma RegistrationKeeps(d: IdentityTables, k: IdKey, first: Revision, idempotent: bool)
    requires IdentityInv(d) && InsertIdentity(d, k, first, idempotent).Ok?
    requires first.row in d.facts && d.facts[first.row].company == k.company
    requires first.version == 1 && first.digest == Sha256(d.facts[first.row].body) && first.supersedes == None
    requires first.kind != Correction && (k.uid.Legacy? ==> k.uid == Legacy(k.company, first.row))
    ensures IdentityInv(InsertIdentity(d, k, first, idempotent).value)
    ensures IdentityGrows(d, InsertIdentity(d, k, first, idempotent).value)
  {
    InsertKeeps(d, k, first, idempotent);
  }

  lemma IdentityOpKeeps(t: Tables, s: Step)
    requires Inv(t) && Do(t, s).Ok?
    requires s.op.RegisterInitial? || s.op.BootstrapLegacy? || s.op.AppendRevision? || s.op.RecordLineage?
    ensures Inv(Do(t, s).value) && Grows(t, Do(t, s).value)
  {
    hide IdentityInv, BindingInv, PlacementInv, Grows, InsertIdentity;
    match s.op
    case RegisterInitial(c, row, token, actor, reason, at) =>
      RegistrationKeeps(t.ids, IdKey(c, Minted(token)),
                        FirstRevision(row, t.ids.facts[row].body, InitialRevision, actor, reason, at), false);
      IdentityStepKeeps(t, FactIdentity.RegisterSpec(t.ids, c, row, token, actor, reason, at).value);
    case BootstrapLegacy(c, row, at) =>
      RegistrationKeeps(t.ids, IdKey(c, Legacy(c, row)),
                        FirstRevision(row, t.ids.facts[row].body, LegacyBootstrap, "system", LEGACY_REASON, at), true);
      IdentityStepKeeps(t, BootstrapSpec(t.ids, c, row, at).value);
    case AppendRevision(k, row, actor, reason, at) =>
      AppendOutcome(t.ids, k, row, actor, reason, at);
      AppendKeeps(t.ids, k, row, actor, reason, at);
      IdentityStepKeeps(t, AppendSpec(t.ids, k, row, actor, reason, at).value);
    case RecordLineage(c, kind, raw, actor, reason, migration) =>
      LineageOutcome(t.ids, c, kind, raw, actor, reason, migration);
      IdentityStepKeeps(t, LineageSpec(t.ids, c, kind, raw, actor, reason, migration).value);
  }

  lemma BindingOpKeeps(t: Tables, s: Step)
    requires Inv(t) && Do(t, s).Ok?
    requires s.op.Register? || s.op.BindPack? || s.op.MarkLocked?
    ensures Inv(Do(t, s).value) && Grows(t, Do(t, s).value)
  {
    hide IdentityInv, BindingInv, PlacementInv, Grows, BindingGrows, CompanyBinding.RegisterSpec, BindPackSpec,
      MarkLockedSpec, RegisterAllowed, Rebound;
    match s.op
    case Register(c, name, pack) =>
      CompanyBinding.RegisterOutcome(t.bind, s.packs, c, name, pack);
      BindingStepKeeps(t, CompanyBinding.RegisterSpec(t.bind, s.packs, c, name, pack).value);
    case BindPack(c, pack, hook) =>
      BindPackKeeps(t.bind, s.packs, Emptiness(t, c, hook), c, pack);
      BindingStepKeeps(t, BindPackSpec(t.bind, s.packs, Emptiness(t, c, hook), c, pack).value);
    case MarkLocked(c) =>
      MarkLockedOutcome(t.bind, s.packs, c);
      BindingStepKeeps(t, MarkLockedSpec(t.bind, s.packs, c).value);
  }

  /** No operation of any store, and no other writer, can leave the joint invariant. */
  lemma StepKeeps(t: Tables, s: Step)
    requires Inv(t)
    ensures Inv(After(t, s)) && Grows(t, After(t, s))
  {
    hide Inv, Grows;
    if Do(t, s).Err? {
      Unchanged(t);
    } else if s.op.Register? || s.op.BindPack? || s.op.MarkLocked? {
      BindingOpKeeps(t, s);
    } else if s.op.RegisterInitial? || s.op.BootstrapLegacy? || s.op.AppendRevision? || s.op.RecordLineage? {
      IdentityOpKeeps(t, s);
    } else if s.op.Place? {
      PlaceKeeps(t, s.op.request);
    } else {
      OtherStepKeeps(t, s.op);
    }
  }

  lemma Unchanged(t: Tables)
    ensures Grows(t, t)
  {
  }

  lemma PlaceKeeps(t: Tables, q: Request)
    requires Inv(t) && WriteSpec(t, q).Ok? && (q.expected.Some? ==> q.expected.value >= 1)
    ensures Inv(WriteSpec(t, q).value.0) && Grows(t, WriteSpec(t, q).value.0)
  {
    hide Inv, Grows, WriteSpec, WriteAllowed;
    WriteOutcome(t, q);
    WriteKeeps(t, q);
  }

  lemma OtherStepKeeps(t: Tables, op: Op)
    requires Inv(t)
    ensures Inv(t.(ids := OtherWriter(t.ids, op))) && Grows(t, t.(ids := OtherWriter(t.ids, op)))
  {
    OtherWriterKeeps(t.ids, op);
    hide IdentityInv, Grows, OtherWriter;
    IdentityStepKeeps(t, OtherWriter(t.ids, op));
  }

  /** What each operation of a run leaves behind, or that it is refused, in terms of the tables it found. */
  lemma StepExactly(t: Tables, s: Step)
    requires Inv(t)
    ensures
      match s.op
      case Register(c, name, pack) =>
        if RegisterAllowed(t.bind, s.packs, c, name, pack)
        then After(t, s) == t.(bind := CompanyBinding.Registered(t.bind, c, name, s.packs[pack]))
        else Do(t, s).Err?
      case MarkLocked(c) =>
        if c in t.bind.meta && StillCurrent(t.bind, s.packs, t.bind.meta[c])
        then
          var m := t.bind.meta[c].(locked := true);
          After(t, s) == t.(bind := t.bind.(meta := t.bind.meta[c := m], projection := t.bind.projection[c := m]))
        else Do(t, s).Err?
      case BindPack(c, pack, hook) =>
        var empty := match hook
          case OwnCheck => c !in t.ids.written && forall r :: r in t.ids.facts ==> t.ids.facts[r].company != c
          case Injected(answer) => answer;
        if BindAllowed(t.bind, s.packs, empty, c, pack)
        then After(t, s) == t.(bind := AfterBind(t.bind, s.packs, c, pack))
        else Do(t, s).Err?
      case RegisterInitial(c, row, token, actor, reason, at) =>
        IdKey(c, Minted(token)) !in t.ids.identities ==>
          if Unmapped(t.ids, c, row)
          then After(t, s) == t.(ids := After(t, s).ids)
               && Chain(After(t, s).ids, IdKey(c, Minted(token))) ==
                    [Revision(1, row, Sha256(t.ids.facts[row].body), InitialRevision, None, actor, reason, at)]
          else Do(t, s).Err?
      case BootstrapLegacy(c, row, at) =>
        Unmapped(t.ids, c, row) ==>
          && After(t, s) == t.(ids := After(t, s).ids)
          && Chain(After(t, s).ids, IdKey(c, Legacy(c, row))) ==
               [Revision(1, row, Sha256(t.ids.facts[row].body), LegacyBootstrap, None, "system", LEGACY_REASON, at)]
      case AppendRevision(k, row, actor, reason, at) =>
        if AppendAllowed(t.ids, k, row)
        then
          var u, was := After(t, s).ids, Chain(t.ids, k);
          && Do(t, s).Ok? && After(t, s) == t.(ids := u)
          && Chain(u, k) == was + [Revision(|was| + 1, row, Sha256(t.ids.facts[row].body), Correction,
                                            Some(CurrentRow(t.ids, k)), actor, reason, at)]
        else Do(t, s).Err?
      case RecordLineage(c, kind, raw, actor, reason, migration) =>
        Do(t, s).Ok? ==>
          After(t, s) == t.(ids := t.ids.(lineage := t.ids.lineage +
            [LineageEvent(c, kind, Normalize(kind, raw).value, actor, reason, migration)]))
      case Place(q) =>
        if WriteAllowed(t, q) && (q.expected.Some? ==> q.expected.value >= 1)
        then q.company in t.bind.meta && t.bind.meta[q.company].ident.digest.Some? && After(t, s) == Appended(t, q)
        else Do(t, s).Err?
      case InsertFact(row, fact) =>
        After(t, s) == if row in t.ids.facts then t else t.(ids := t.ids.(facts := t.ids.facts[row := fact]))
      case CloseFact(row, successor, at) =>
        if row in t.ids.facts && t.ids.facts[row].supersededBy.None?
        then
          var closed := FactRow(t.ids.facts[row].company, t.ids.facts[row].body, successor, Some(at));
          After(t, s) == t.(ids := t.ids.(facts := t.ids.facts[row := closed]))
        else After(t, s) == t
      case WriteOther(c, present) =>
        After(t, s) == t.(ids := t.ids.(written := if present then t.ids.written + {c} else t.ids.written - {c}))
  {
    hide IdentityInv, BindingInv, PlacementInv, CompanyBinding.RegisterSpec, MarkLockedSpec, AppendSpec, WriteSpec, BindPackSpec,
      BootstrapSpec, LineageSpec, FactIdentity.RegisterSpec, RegisterAllowed, StillCurrent, WriteAllowed, Appended,
      CompanyBinding.Registered, AppendAllowed, BindAllowed, AfterBind;
    match s.op
    case Register(c, name, pack) => CompanyBinding.RegisterOutcome(t.bind, s.packs, c, name, pack);
    case BindPack(c, pack, hook) => BindPackOutcome(t.bind, s.packs, Emptiness(t, c, hook), c, pack);
    case MarkLocked(c) => MarkLockedOutcome(t.bind, s.packs, c);
    case RegisterInitial(c, row, token, actor, reason, at) =>
      if IdKey(c, Minted(token)) !in t.ids.identities {
        FactIdentity.RegisterOutcome(t.ids, c, row, token, actor, reason, at);
      }
    case BootstrapLegacy(c, row, at) => if Unmapped(t.ids, c, row) { BootstrapWrites(t.ids, c, row, at); }
    case AppendRevision(k, row, actor, reason, at) => AppendOutcome(t.ids, k, row, actor, reason, at);
    case RecordLineage(c, kind, raw, actor, reason, migration) => LineageOutcome(t.ids, c, kind, raw, actor, reason, migration);
    case Place(q) => if q.expected.Some? ==> q.expected.value >= 1 { WriteOutcome(t, q); }
    case _ =>
  }

  /** The joint invariant holds after every run, and every ledger has only grown. */
  lemma {:induction false} RunKeeps(t: Tables, steps: seq<Step>)
    requires Inv(t)
    ensures Inv(Run(t, steps)) && Grows(t, Run(t, steps))
  {
    hide Inv, Grows;
    if steps == [] {
      Unchanged(t);
    } else {
      RunKeeps(t, steps[..|steps|-1]);
      StepKeeps(Run(t, steps[..|steps|-1]), steps[|steps|-1]);
      GrowsTransitive(t, Run(t, steps[..|steps|-1]), Run(t, steps));
    }
  }

  // ---- The paranoid reader over whole runs --------------------------------

  /** After any run from an empty database, the verified read of a known identity raises
      exactly when the current facts row of that identity has been closed, and otherwise
      returns its latest revision with the last event of that row's placement history. */
  lemma ReaderNeverRejects(steps: seq<Step>, k: IdKey)
    requires k in Run(EMPTY, steps).ids.identities
    ensures
      var t := Run(EMPTY, steps);
      var rows := Chain(t.ids, k);
      && |rows| > 0 && rows[|rows|-1].row in t.ids.facts
      && var r := rows[|rows|-1];
         ResolveSpec(t, k) ==
           if t.ids.facts[r.row].Open()
           then Ok(Some(Resolved(k, |rows|, r.row, r.digest, r.kind, LastEvent(t.places, FactKey(k.company, r.row)))))
           else Err(NoLongerCurrent)
  {
    EmptyInv();
    RunKeeps(EMPTY, steps);
    hide Inv, ResolveSpec;
    ReaderAccepts(Run(EMPTY, steps), k);
  }

  ghost predicate OpenIdentity(d: IdentityTables, k: IdKey) {
    && k in d.identities && |Chain(d, k)| > 0
    && CurrentRow(d, k) in d.facts && d.facts[CurrentRow(d, k)].Open()
  }

  /** Other writers leave mapped rows alone: only append_revision closes them. */
  predicate SparesMapped(d: IdentityTables, op: Op) {
    op.CloseFact? ==> op.row !in d.rowIndex
  }

  ghost predicate RunSparesMapped(t: Tables, steps: seq<Step>) {
    forall n :: 0 <= n < |steps| ==> SparesMapped(Run(t, steps[..n]).ids, steps[n].op)
  }

  lemma OpenAfterAppend(d: IdentityTables, k: IdKey, j: IdKey, row: RowId, actor: string, reason: string, at: Stamp)
    requires IdentityInv(d) && OpenIdentity(d, k) && AppendAllowed(d, j, row)
    ensures AppendSpec(d, j, row, actor, reason, at).Ok?
    ensures OpenIdentity(AppendSpec(d, j, row, actor, reason, at).value, k)
  {
    AppendOutcome(d, j, row, actor, reason, at);
    if k != j && CurrentRow(d, k) == CurrentRow(d, j) {
      OneOwner(d, k, |Chain(d, k)| - 1, j, |Chain(d, j)| - 1);
    }
    hide AppendSpec, IdentityInv;
  }

  lemma OpenAfterRegistration(d: IdentityTables, k: IdKey, j: IdKey, first: Revision, idempotent: bool)
    requires OpenIdentity(d, k) && InsertIdentity(d, j, first, idempotent).Ok?
    ensures OpenIdentity(InsertIdentity(d, j, first, idempotent).value, k)
  {
  }

  lemma OpenAfterOtherWriter(d: IdentityTables, k: IdKey, op: Op)
    requires IdentityInv(d) && OpenIdentity(d, k) && SparesMapped(d, op)
    ensures OpenIdentity(OtherWriter(d, op), k)
  {
    assert ChainInv(d, k);
    assert RevisionInv(d, k, |Chain(d, k)| - 1);
    hide IdentityInv;
  }

  /** An identity whose current row is open keeps an open current row. */
  lemma OpenStaysOpen(t: Tables, s: Step, k: IdKey)
    requires Inv(t) && OpenIdentity(t.ids, k) && SparesMapped(t.ids, s.op)
    ensures OpenIdentity(After(t, s).ids, k)
  {
    hide IdentityInv, BindingInv, PlacementInv, OpenIdentity, OtherWriter, InsertIdentity, AppendAllowed,
      CompanyBinding.RegisterSpec, BindPackSpec, MarkLockedSpec, SparesMapped;
    if Do(t, s).Ok? {
      match s.op
      case AppendRevision(j, row, actor, reason, at) =>
        AppendOutcome(t.ids, j, row, actor, reason, at);
        OpenAfterAppend(t.ids, k, j, row, actor, reason, at);
      case RegisterInitial(c, row, token, actor, reason, at) =>
        OpenAfterRegistration(t.ids, k, IdKey(c, Minted(token)),
                              FirstRevision(row, t.ids.facts[row].body, InitialRevision, actor, reason, at), false);
      case BootstrapLegacy(c, row, at) =>
        OpenAfterRegistration(t.ids, k, IdKey(c, Legacy(c, row)),
                              FirstRevision(row, t.ids.facts[row].body, LegacyBootstrap, "system", LEGACY_REASON, at), true);
      case RecordLineage(_, _, _, _, _, _) =>
        LineageKeepsOpen(t.ids, Do(t, s).value.ids, k);
      case Register(_, _, _) =>
      case BindPack(_, _, _) =>
      case MarkLocked(_) =>
      case Place(_) =>
      case _ =>
        OpenAfterOtherWriter(t.ids, k, s.op);
    }
  }

  lemma LineageKeepsOpen(d: IdentityTables, u: IdentityTables, k: IdKey)
    requires OpenIdentity(d, k) && u == d.(lineage := u.lineage)
    ensures OpenIdentity(u, k)
  {
  }

  /** When an identity was open at some point of a run that spares mapped rows, the reader
      accepts it at every later point. */
  lemma {:induction false} OpenIdentityAlwaysReads(t: Tables, steps: seq<Step>, k: IdKey)
    requires Inv(t) && OpenIdentity(t.ids, k) && RunSparesMapped(t, steps)
    ensures OpenIdentity(Run(t, steps).ids, k)
    ensures ResolveSpec(Run(t, steps), k).Ok? && ResolveSpec(Run(t, steps), k).value.Some?
  {
    hide ResolveSpec, Inv, OpenIdentity, RunSparesMapped, SparesMapped, After;
    if steps != [] {
      var before := steps[..|steps|-1];
      SparesMappedBefore(t, steps);
      OpenIdentityAlwaysReads(t, before, k);
      RunKeeps(t, before);
      OpenStaysOpen(Run(t, before), steps[|steps|-1], k);
    }
    RunKeeps(t, steps);
    OpenReads(Run(t, steps), k);
  }

  /** The identity that a registration creates, or finds. */
  function RegisteredKey(op: Op): IdKey
    requires op.RegisterInitial? || op.BootstrapLegacy?
  {
    if op.RegisterInitial? then IdKey(op.company, Minted(op.token)) else IdKey(op.company, Legacy(op.company, op.row))
  }

  lemma RegistrationOpens(t: Tables, s: Step)
    requires Inv(t) && Do(t, s).Ok? && (s.op.RegisterInitial? || s.op.BootstrapLegacy?)
    requires t.ids.facts[s.op.row].Open()
    ensures OpenIdentity(After(t, s).ids, RegisteredKey(s.op))
  {
    InvParts(t);
    hide Inv;
    var row := s.op.row;
    if row in t.ids.rowIndex {
      var k := RegisteredKey(s.op);
      assert IndexInv(t.ids, row) && ChainInv(t.ids, k);
      assert RevisionInv(t.ids, k, t.ids.rowIndex[row].position);
    }
  }

  /** An identity registered for an open row can be read at every later point of every run
      in which only append_revision closes mapped rows. */
  lemma RegisteredOpenAlwaysReads(t: Tables, s: Step, steps: seq<Step>)
    requires Inv(t) && Do(t, s).Ok? && (s.op.RegisterInitial? || s.op.BootstrapLegacy?)
    requires t.ids.facts[s.op.row].Open() && RunSparesMapped(After(t, s), steps)
    ensures
      var r := ResolveSpec(Run(After(t, s), steps), RegisteredKey(s.op));
      r.Ok? && r.value.Some?
  {
    hide ResolveSpec, OpenIdentity, Inv, Grows, RunSparesMapped;
    RegistrationOpens(t, s);
    StepKeeps(t, s);
    OpenIdentityAlwaysReads(After(t, s), steps, RegisteredKey(s.op));
  }

  lemma OpenReads(t: Tables, k: IdKey)
    requires Inv(t) && OpenIdentity(t.ids, k)
    ensures ResolveSpec(t, k).Ok? && ResolveSpec(t, k).value.Some?
  {
    hide ResolveSpec, Inv;
    ReaderAccepts(t, k);
  }

  lemma SparesMappedBefore(t: Tables, steps: seq<Step>)
    requires steps != [] && RunSparesMapped(t, steps)
    ensures RunSparesMapped(t, steps[..|steps|-1])
    ensures SparesMapped(Run(t, steps[..|steps|-1]).ids, steps[|steps|-1].op)
  {
    hide SparesMapped, Run;
    var before := steps[..|steps|-1];
    forall n | 0 <= n < |before| ensures SparesMapped(Run(t, before[..n]).ids, before[n].op) {
      assert before[..n] == steps[..n];
    }
  }

  /** A correction starts without a placement; the old version keeps its own history. */
  lemma CorrectionStartsUnplaced(t: Tables, k: IdKey, row: RowId, actor: string, reason: string, at: Stamp)
    requires Inv(t) && AppendAllowed(t.ids, k, row)
    ensures row in t.ids.facts
    ensures
      var u := After(t, Step(map[], AppendRevision(k, row, actor, reason, at)));
      && u.places == t.places
      && ResolveSpec(u, k) == Ok(Some(Resolved(k, |Chain(t.ids, k)| + 1, row, Sha256(t.ids.facts[row].body),
                                               Correction, None)))
  {
    hide Inv;
    InvParts(t);
    UnmappedUnplaced(t, FactKey(k.company, row));
    hide IdentityInv, PlacementInv, AppendSpec, ResolveSpec, Grows, WriteSpec, CloseRow,
      CompanyBinding.RegisterSpec, BindPackSpec, MarkLockedSpec, FactIdentity.RegisterSpec, BootstrapSpec,
      LineageSpec, OtherWriter;
    AppendOutcome(t.ids, k, row, actor, reason, at);
    StepKeeps(t, Step(map[], AppendRevision(k, row, actor, reason, at)));
    UnplacedReads(After(t, Step(map[], AppendRevision(k, row, actor, reason, at))), k, row);
  }

  lemma InvParts(t: Tables)
    requires Inv(t)
    ensures BindingInv(t.bind) && IdentityInv(t.ids) && PlacementInv(t)
  {
  }

  lemma UnplacedReads(t: Tables, k: IdKey, row: RowId)
    requires Inv(t) && OpenIdentity(t.ids, k) && CurrentRow(t.ids, k) == row
    requires History(t.places, FactKey(k.company, row)) == []
    ensures
      var r := Chain(t.ids, k)[|Chain(t.ids, k)|-1];
      ResolveSpec(t, k) == Ok(Some(Resolved(k, |Chain(t.ids, k)|, row, r.digest, r.kind, None)))
  {
    hide ResolveSpec, Inv;
    ReaderAccepts(t, k);
  }

  lemma UnmappedUnplaced(t: Tables, k: FactKey)
    requires PlacementInv(t) && k.row !in t.ids.rowIndex
    ensures History(t.places, k) == []
  {
    hide HistoryChain, HistoryProven;
    assert k in t.places.histories ==> OwnedRow(t.ids, k);
  }

  // ---- Frozen bindings ----------------------------------------------------

  predicate OwnEmptiness(op: Op) {
    op.BindPack? ==> op.hook.OwnCheck?
  }

  predicate SameBinding(b: BindingTables, u: BindingTables, c: Company) {
    && c in b.meta && c in u.meta
    && u.meta[c].ident == b.meta[c].ident && u.meta[c].revision == b.meta[c].revision
  }

  /** With the store's own emptiness check, a company that owns any fact keeps its binding
      identity and revision through every operation. */
  lemma BindingFreezes(t: Tables, s: Step, c: Company)
    requires Inv(t) && OwnEmptiness(s.op) && c in t.bind.meta && HasFacts(t.ids, c)
    ensures SameBinding(t.bind, After(t, s).bind, c) && HasFacts(After(t, s).ids, c)
  {
    hide Inv, Grows, HasFacts, CompanyBinding.RegisterSpec, BindPackSpec, MarkLockedSpec, WriteSpec, SameBinding,
      FactIdentity.RegisterSpec, BootstrapSpec, AppendSpec, LineageSpec, OtherWriter;
    StepKeeps(t, s);
    FactsRemain(t, After(t, s), c);
    SameBindingRefl(t.bind, c);
    if Do(t, s).Ok? {
      match s.op
      case Register(d, name, pack) =>
        RegisterKeepsOthers(t, s.packs, d, name, pack, c);
      case BindPack(d, pack, hook) =>
        BindPackKeepsNonempty(t, s.packs, d, pack, c);
      case MarkLocked(d) =>
        LockKeepsBinding(t, s.packs, d, c);
      case Place(q) =>
        PlaceKeepsBinding(t, q);
      case _ =>
    }
  }

  lemma SameBindingRefl(b: BindingTables, c: Company)
    ensures c in b.meta ==> SameBinding(b, b, c)
  {
  }

  lemma BindPackKeepsNonempty(t: Tables, packs: Packs, d: Company, pack: string, c: Company)
    requires Inv(t) && c in t.bind.meta && HasFacts(t.ids, c)
    requires BindPackSpec(t.bind, packs, IsEmpty(t.ids, d), d, pack).Ok?
    ensures SameBinding(t.bind, BindPackSpec(t.bind, packs, IsEmpty(t.ids, d), d, pack).value, c)
  {
    assert BindingInv(t.bind);
    hide BindPackSpec, Inv, BindingInv;
    BindPackKeeps(t.bind, packs, IsEmpty(t.ids, d), d, pack);
  }

  lemma LockKeepsBinding(t: Tables, packs: Packs, d: Company, c: Company)
    requires Inv(t) && c in t.bind.meta && MarkLockedSpec(t.bind, packs, d).Ok?
    ensures SameBinding(t.bind, MarkLockedSpec(t.bind, packs, d).value, c)
  {
    assert BindingInv(t.bind);
    hide MarkLockedSpec, Inv, BindingInv;
    MarkLockedOutcome(t.bind, packs, d);
  }

  lemma PlaceKeepsBinding(t: Tables, q: Request)
    requires Inv(t) && WriteSpec(t, q).Ok? && (q.expected.Some? ==> q.expected.value >= 1)
    ensures WriteSpec(t, q).value.0.bind == t.bind && WriteSpec(t, q).value.0.ids == t.ids
  {
    hide Inv, WriteSpec, WriteAllowed;
    WriteOutcome(t, q);
  }

  lemma RegisterKeepsOthers(t: Tables, packs: Packs, d: Company, name: string, pack: string, c: Company)
    requires Inv(t) && c in t.bind.meta && CompanyBinding.RegisterSpec(t.bind, packs, d, name, pack).Ok?
    ensures SameBinding(t.bind, CompanyBinding.RegisterSpec(t.bind, packs, d, name, pack).value, c)
  {
    assert BindingInv(t.bind);
    hide Inv, BindingInv, CompanyBinding.RegisterSpec;
    CompanyBinding.RegisterOutcome(t.bind, packs, d, name, pack);
  }

  lemma FactsRemain(t: Tables, u: Tables, c: Company)
    requires Grows(t, u) && HasFacts(t.ids, c)
    ensures HasFacts(u.ids, c)
  {
    var r :| r in t.ids.facts && t.ids.facts[r].company == c;
    assert r in u.ids.facts;
  }

  lemma {:induction false} BindingStaysFrozen(t: Tables, steps: seq<Step>, c: Company)
    requires Inv(t) && c in t.bind.meta && HasFacts(t.ids, c)
    requires forall n :: 0 <= n < |steps| ==> OwnEmptiness(steps[n].op)
    ensures SameBinding(t.bind, Run(t, steps).bind, c) && HasFacts(Run(t, steps).ids, c)
  {
    hide Inv, After, HasFacts;
    if steps != [] {
      BindingStaysFrozen(t, steps[..|steps|-1], c);
      RunKeeps(t, steps[..|steps|-1]);
      BindingFreezes(Run(t, steps[..|steps|-1]), steps[|steps|-1], c);
    }
  }

  /** Hence every placement event of every fact names exactly the current binding. */
  lemma FrozenStep(t: Tables, s: Step)
    requires Inv(t) && FrozenInv(t) && OwnEmptiness(s.op)
    ensures FrozenInv(After(t, s))
  {
    hide Inv, WriteSpec, WriteAllowed, HasFacts, CompanyBinding.RegisterSpec, BindPackSpec, MarkLockedSpec,
      FactIdentity.RegisterSpec, BootstrapSpec, AppendSpec, LineageSpec, OtherWriter, Grows, OwnEmptiness;
    var u := After(t, s);
    if Do(t, s).Ok? && s.op.Place? {
      WriteOutcome(t, s.op.request);
      WriteKeeps(t, s.op.request);
    } else {
      forall k | k in u.places.histories ensures Frozen(u.bind, k.company, u.places.histories[k]) {
        assert Frozen(t.bind, k.company, t.places.histories[k]);
        PlacedCompanyHasFacts(t, k);
        BindingFreezes(t, s, k.company);
      }
    }
  }

  lemma PlacedCompanyHasFacts(t: Tables, k: FactKey)
    requires Inv(t) && k in t.places.histories
    ensures HasFacts(t.ids, k.company)
  {
    assert OwnedRow(t.ids, k);
    var o := t.ids.rowIndex[k.row];
    assert IndexInv(t.ids, k.row);
    assert ChainInv(t.ids, o.key);
    assert RevisionInv(t.ids, o.key, o.position);
  }

  lemma {:induction false} EventsOnCurrentBinding(t: Tables, steps: seq<Step>)
    requires Inv(t) && FrozenInv(t)
    requires forall n :: 0 <= n < |steps| ==> OwnEmptiness(steps[n].op)
    ensures FrozenInv(Run(t, steps))
  {
    hide Inv, FrozenInv, After;
    if steps != [] {
      EventsOnCurrentBinding(t, steps[..|steps|-1]);
      RunKeeps(t, steps[..|steps|-1]);
      FrozenStep(Run(t, steps[..|steps|-1]), steps[|steps|-1]);
    }
  }

  // ---- No lost update -----------------------------------------------------

  lemma HistoryGrows(t: Tables, u: Tables, k: FactKey)
    requires Grows(t, u)
    ensures History(t.places, k) <= History(u.places, k)
  {
  }

  /** Of all writers that saw the same state of a fact's placements, whatever happens between
      their read and their write, at most one can succeed: once a request with this token has
      been granted, no later request with the same token is. */
  lemma NoLostUpdate(t: Tables, first: Request, between: seq<Step>, second: Request)
    requires Inv(t) && Do(t, Step(map[], Place(first))).Ok?
    requires second.Key() == first.Key() && second.expected == first.expected
    ensures Do(Run(After(t, Step(map[], Place(first))), between), Step(map[], Place(second))).Err?
  {
    hide Inv, Grows, WriteSpec, TargetDeclared, CurrentVersion, GrantedEvent;
    var s := Step(map[], Place(first));
    var u := After(t, s);
    var v := Run(u, between);
    WriteOutcome(t, first);
    StepKeeps(t, s);
    RunKeeps(u, between);
    WriteOutcome(v, second);
    HistoryGrows(u, v, first.Key());
  }
}
