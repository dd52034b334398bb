/** What a caller of the placement store sees: exactly which requests are granted, on sound tables, and
    what the writer and the verified reader guarantee on any tables at all
    (app/facts_tree/fact_placements.py). */
module PlacementOutcomes {
  import opened Wrappers
  import opened LedgerTables
  import opened Connections
  import opened Text
  import opened CompanyBinding
  import opened FactPlacements

  // ---- Granted requests ---------------------------------------------------

  /** A well-formed request to a writable store of its company: named actor and reason, a positive row,
      a named trunk and leaf, a named migration if any, and a positive token if any. */
  predicate RequestOk(store: FactPlacementStore, q: Request) {
    && !IsBlank(q.actor) && !IsBlank(q.reason)
    && q.row >= 1 && !IsBlank(q.trunk) && !IsBlank(q.leaf)
    && (q.migration.Some? ==> !IsBlank(q.migration.value))
    && (q.expected.Some? ==> q.expected.value >= 1)
    && (store.scope == None || store.scope == Some(q.company))
    && !store.readOnly
  }

  lemma ArgsExactly(store: FactPlacementStore, q: Request, needsMigration: bool)
    ensures store.Args(q, needsMigration).Ok? <==>
      RequestOk(store, q) && (needsMigration ==> q.migration.Some?)
  {
  }

  /** On an idle connection a placement or reassignment commits exactly for a well-formed request whose
      target is declared, whose row is current and whose token is the length of the history: it then
      appends the granted event and moves the pointer. Otherwise it raises and changes nothing. */
  lemma WriteCommits(store: FactPlacementStore, t: Tables, q: Request)
    requires Inv(t)
    ensures WriteAllowed(t, q) ==> q.company in t.bind.meta && t.bind.meta[q.company].ident.digest.Some?
    ensures Owned(t, [], store.Args(q, false), WriteSpec(t, q)).outcome.Ok? <==> RequestOk(store, q) && WriteAllowed(t, q)
    ensures
      var seen := Owned(t, [], store.Args(q, false), WriteSpec(t, q));
      if RequestOk(store, q) && WriteAllowed(t, q)
      then seen == Seen(Appended(t, q), [], Ok(GrantedEvent(t, q)))
      else seen.tables == t && seen.open == []
  {
    ArgsExactly(store, q, false);
    GrantedExactly(t, q);
    hide Inv, WriteSpec, WriteAllowed, RequestOk, Appended, GrantedEvent;
  }

  lemma GrantedExactly(t: Tables, q: Request)
    requires Inv(t)
    ensures WriteAllowed(t, q) ==> q.company in t.bind.meta && t.bind.meta[q.company].ident.digest.Some?
    ensures (q.expected.Some? ==> q.expected.value >= 1) ==>
      && (WriteSpec(t, q).Ok? <==> WriteAllowed(t, q))
      && (WriteAllowed(t, q) ==> WriteSpec(t, q) == Ok((Appended(t, q), GrantedEvent(t, q))))
  {
    hide Inv, WriteSpec, WriteAllowed;
    if q.expected.Some? ==> q.expected.value >= 1 {
      WriteOutcome(t, q);
    }
    AllowedIsBound(t, q);
  }

  lemma AllowedIsBound(t: Tables, q: Request)
    requires Inv(t)
    ensures WriteAllowed(t, q) ==> q.company in t.bind.meta && t.bind.meta[q.company].ident.digest.Some?
  {
    BoundDigest(t.bind, q.company);
  }

  /** Inside a caller's transaction the same requests are granted, provided that a write that is no
      publication names its migration; the transaction stays open, and a refusal leaves it untouched. */
  lemma WriteJoins(store: FactPlacementStore, t: Tables, open: seq<Tables>, q: Request, publication: bool)
    requires Inv(t) && open != []
    ensures WriteAllowed(t, q) ==> q.company in t.bind.meta && t.bind.meta[q.company].ident.digest.Some?
    ensures
      var seen := Joined(t, open, store.Args(q, !publication), WriteSpec(t, q));
      if RequestOk(store, q) && (publication || q.migration.Some?) && WriteAllowed(t, q)
      then seen == Seen(Appended(t, q), open, Ok(GrantedEvent(t, q)))
      else seen.tables == t && seen.open == open && seen.outcome.Err?
  {
    ArgsExactly(store, q, !publication);
    GrantedExactly(t, q);
    hide Inv, WriteSpec, WriteAllowed, RequestOk, Appended, GrantedEvent;
  }

  /** A placed, current fact can always be moved: with the token its last event carries, a reassignment
      to a declared target is granted, and one with any other token is not. */
  lemma ReassignNeedsLatestToken(store: FactPlacementStore, t: Tables, q: Request)
    requires Inv(t) && RequestOk(store, q) && q.expected.Some?
    requires TargetDeclared(t.bind, q) && CurrentVersion(t.ids, q.company, q.row)
    ensures Owned(t, [], store.Args(q, false), WriteSpec(t, q)).outcome.Ok? <==>
      LastEvent(t.places, q.Key()).Some? && LastEvent(t.places, q.Key()).value.seqNo == q.expected.value
  {
    WriteCommits(store, t, q);
    LastSeqNo(t, q.Key());
    hide Inv, WriteSpec, RequestOk, TargetDeclared, CurrentVersion;
  }

  lemma LastSeqNo(t: Tables, k: FactKey)
    requires Inv(t)
    ensures LastEvent(t.places, k).Some? ==> LastEvent(t.places, k).value.seqNo == |History(t.places, k)|
  {
    if History(t.places, k) != [] {
      LatestPlaced(t, k);
    }
  }

  // ---- Failing closed -----------------------------------------------------

  /** The latest revision of a complete chain of the company, with the row open. */
  ghost predicate VerifiedVersion(d: IdentityTables, c: Company, row: RowId) {
    && row in d.facts && d.facts[row].company == c && row in d.rowIndex && d.rowIndex[row].key.company == c
    && var rows := Chain(d, d.rowIndex[row].key);
       && rows != [] && (forall i :: 0 <= i < |rows| ==> rows[i].version == i + 1) && rows[|rows|-1].row == row
       && d.facts[row].supersededBy.None? && d.facts[row].validTo.None?
  }

  /** A manifest stored under its own hash, of the given digest, that declares the target. */
  ghost predicate VerifiedTarget(b: BindingTables, pack: string, version: int, digest: Digest, trunk: string, leaf: string) {
    && PackKey(pack, version) in b.manifests
    && b.manifests[PackKey(pack, version)].digest == digest == Sha256(b.manifests[PackKey(pack, version)].text)
    && Declares(b.manifests[PackKey(pack, version)].text, trunk, leaf)
  }

  lemma VersionFailsClosed(d: IdentityTables, c: Company, row: RowId)
    requires ValidateFactVersion(d, c, row).Ok?
    ensures VerifiedVersion(d, c, row)
  {
  }

  lemma LeafFailsClosed(text: ManifestText, trunk: string, leaf: string)
    requires VerifyLeaf(text, trunk, leaf).Ok?
    ensures Declares(text, trunk, leaf)
  {
  }

  /** The writer fails closed: on any tables, sound or corrupt, a write is granted only on a complete
      binding history whose archived manifest hashes to the bound digest and declares the target, for a
      verified version, and with the token of the latest event to which the pointer agrees. */
  lemma WriteFailsClosed(t: Tables, q: Request)
    requires WriteSpec(t, q).Ok?
    ensures q.company in t.bind.meta
    ensures
      var m := t.bind.meta[q.company];
      && BindingChain(BindingHistory(t.bind, q.company), m)
      && VerifiedTarget(t.bind, m.ident.pack, m.ident.version, m.ident.digest.value, q.trunk, q.leaf)
    ensures VerifiedVersion(t.ids, q.company, q.row)
    ensures
      var h, pointer := History(t.places, q.Key()), PointerOf(t.places, q.Key());
      if q.expected.None? then h == [] && pointer.None?
      else
        && h != [] && h[|h|-1].seqNo == q.expected.value && h[|h|-1].spot.revision.Some?
        && pointer == Some(Pointer(q.expected.value, h[|h|-1].spot))
  {
    var m := t.bind.meta[q.company];
    HistoryExactly(BindingHistory(t.bind, q.company), m);
    VersionFailsClosed(t.ids, q.company, q.row);
    LeafFailsClosed(VerifyBinding(t.bind, q.company).value.text, q.trunk, q.leaf);
    hide CheckHistory, BindingChain, VerifyLeaf, Declares, ValidateFactVersion, VerifiedVersion;
  }

  /** The spot names a revision of the company's binding history and a leaf that the manifest archived
      under that revision's digest declares. */
  ghost predicate VerifiedSpot(b: BindingTables, c: Company, s: Spot) {
    && s.revision.Some? && 1 <= s.revision.value <= |BindingHistory(b, c)|
    && BindingHistory(b, c)[s.revision.value - 1].revision == s.revision.value
    && BindingHistory(b, c)[s.revision.value - 1].ident == Ident(s.pack, s.version, Some(s.digest))
    && VerifiedTarget(b, s.pack, s.version, s.digest, s.trunk, s.leaf)
  }

  lemma SpotFailsClosed(b: BindingTables, c: Company, s: Spot)
    requires VerifyArchivedSpot(b, c, s).Ok?
    ensures VerifiedSpot(b, c, s)
  {
  }

  ghost predicate VerifiedEvent(b: BindingTables, c: Company, h: seq<Event>, i: int)
    requires 0 <= i < |h|
  {
    && h[i].seqNo == i + 1 && VerifiedSpot(b, c, h[i].spot)
    && h[i].prev == if i == 0 then None else Some(h[i-1].spot)
  }

  lemma EventFailsClosed(b: BindingTables, c: Company, h: seq<Event>, i: nat)
    requires i < |h| && CheckEvent(b, c, h, i).Ok?
    ensures VerifiedEvent(b, c, h, i)
  {
    hide VerifyArchivedSpot, VerifiedSpot;
    SpotFailsClosed(b, c, h[i].spot);
  }

  lemma {:induction false} EventsFailClosed(b: BindingTables, c: Company, h: seq<Event>, n: nat)
    requires n <= |h| && CheckEvents(b, c, h, n).Ok?
    ensures forall i :: 0 <= i < n ==> VerifiedEvent(b, c, h, i)
  {
    hide CheckEvent, VerifiedEvent;
    if n > 0 {
      EventsFailClosed(b, c, h, n - 1);
      EventFailsClosed(b, c, h, n - 1);
    }
  }

  /** A complete, linked history of verified spots, at whose last event the pointer stands. */
  ghost predicate VerifiedHistory(t: Tables, k: FactKey) {
    && PointerOf(t.places, k).Some?
    && HistoryChain(History(t.places, k), PointerOf(t.places, k).value)
    && forall i :: 0 <= i < |History(t.places, k)| ==> VerifiedSpot(t.bind, k.company, History(t.places, k)[i].spot)
  }

  lemma PlacementFailsClosed(t: Tables, k: FactKey)
    requires CurrentPlacement(t, k).Ok?
    ensures CurrentPlacement(t, k).value == LastEvent(t.places, k)
    ensures if History(t.places, k) == [] then PointerOf(t.places, k).None? else VerifiedHistory(t, k)
  {
    hide CheckEvents, VerifiedSpot;
    var h := History(t.places, k);
    if h != [] {
      EventsFailClosed(t.bind, k.company, h, |h|);
      assert VerifiedEvent(t.bind, k.company, h, 0);
      forall i | 0 <= i < |h|
        ensures h[i].seqNo == i + 1 && VerifiedSpot(t.bind, k.company, h[i].spot)
      {
        assert VerifiedEvent(t.bind, k.company, h, i);
      }
      forall i {:trigger h[i].prev} | 0 < i < |h| ensures h[i].prev == Some(h[i-1].spot) {
        assert VerifiedEvent(t.bind, k.company, h, i);
      }
    }
  }

  /** The reader fails closed: whatever the tables hold, it returns an identity only when it is active
      with a complete chain, its latest row is open and unchanged since its digest was taken, and the
      row's placement history is complete, linked, verified event by event and pointed at, or absent;
      and what it returns is exactly that revision and the last of those events. */
  lemma ResolveFailsClosed(t: Tables, k: IdKey)
    requires ResolveSpec(t, k).Ok?
    ensures ResolveSpec(t, k).value.None? <==> k !in t.ids.identities
    ensures k in t.ids.identities ==>
      var rows := Chain(t.ids, k);
      && t.ids.identities[k] == Active
      && rows != [] && (forall i :: 0 <= i < |rows| ==> rows[i].version == i + 1)
      && var r := rows[|rows|-1];
         && VerifiedVersion(t.ids, k.company, r.row) && r.digest == Sha256(t.ids.facts[r.row].body)
         && var f := FactKey(k.company, r.row);
            && (if History(t.places, f) == [] then PointerOf(t.places, f).None? else VerifiedHistory(t, f))
            && ResolveSpec(t, k).value == Some(Resolved(k, |rows|, r.row, r.digest, r.kind, LastEvent(t.places, f)))
  {
    if k in t.ids.identities {
      var rows := Chain(t.ids, k);
      var r := rows[|rows|-1];
      VersionFailsClosed(t.ids, k.company, r.row);
      hide ValidateFactVersion, VerifiedHistory, CurrentPlacement;
      PlacementFailsClosed(t, FactKey(k.company, r.row));
    }
  }
}
