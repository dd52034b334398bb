/** A caller's transaction of joined placement writes against the same writes made one by
    one as store-owned transactions (app/facts_tree/fact_placements.py). */
module LedgerTransactions {
  import opened Wrappers
  import opened LedgerTables
  import opened Connections
  import opened Text
  import opened FactPlacements

  // ---- Ledgers up to timestamps and record type ---------------------------

  /** An event without what a joining write may record differently: its timestamp, its record
      type and the migration it is attributed to. */
  function Plain(e: Event): Event {
    e.(at := 0, kind := InitialPlacement, migration := None)
  }

  ghost predicate SameHistory(h: seq<Event>, g: seq<Event>) {
    |h| == |g| && forall i :: 0 <= i < |h| ==> Plain(h[i]) == Plain(g[i])
  }

  ghost predicate SamePlaces(p: PlacementTables, r: PlacementTables) {
    && p.pointers == r.pointers
    && p.histories.Keys == r.histories.Keys
    && forall k :: k in p.histories ==> SameHistory(p.histories[k], r.histories[k])
  }

  /** Equal bindings, identities and pointers; placement histories equal event by event. */
  ghost predicate SameLedgers(t: Tables, u: Tables) {
    t.bind == u.bind && t.ids == u.ids && SamePlaces(t.places, u.places)
  }

  /** The same placement asked for at another time, perhaps for another migration or none. */
  predicate SameRequest(q: Request, r: Request) {
    && r == q.(migration := r.migration, at := r.at)
    && (r.migration.Some? ==> !IsBlank(r.migration.value))
  }

  lemma SlotIgnoresAttribution(p: PlacementTables, r: PlacementTables, q: Request, q': Request)
    requires SamePlaces(p, r) && SameRequest(q, q')
    ensures NextSlot(p, q) == NextSlot(r, q')
  {
    assert SameHistory(History(p, q.Key()), History(r, q.Key()));
    var h, g := History(p, q.Key()), History(r, q.Key());
    if h != [] {
      assert Plain(h[|h|-1]) == Plain(g[|g|-1]);
    }
  }

  lemma PlacedAlike(t: Tables, u: Tables, q: Request, q': Request, seqNo: int, spot: Spot, prev: Option<Spot>)
    requires SameLedgers(t, u) && SameRequest(q, q')
    ensures SameLedgers(Placed(t, q, seqNo, spot, prev).0, Placed(u, q', seqNo, spot, prev).0)
  {
    var t', u' := Placed(t, q, seqNo, spot, prev).0, Placed(u, q', seqNo, spot, prev).0;
    forall k | k in t'.places.histories ensures SameHistory(t'.places.histories[k], u'.places.histories[k]) {
      if k == q.Key() {
        assert SameHistory(History(t.places, k), History(u.places, k));
      }
    }
  }

  /** A write is granted on one ledger exactly when it is on the other, for the same fault
      otherwise, and leaves ledgers that still agree. */
  lemma WriteAlike(t: Tables, u: Tables, q: Request, q': Request)
    requires SameLedgers(t, u) && SameRequest(q, q')
    ensures WriteSpec(t, q).Ok? <==> WriteSpec(u, q').Ok?
    ensures WriteSpec(t, q).Err? ==> WriteSpec(u, q') == Err(WriteSpec(t, q).error)
    ensures WriteSpec(t, q).Ok? ==> SameLedgers(WriteSpec(t, q).value.0, WriteSpec(u, q').value.0)
  {
    hide SameLedgers, SamePlaces, NextSlot, Placed, VerifyBinding, VerifyLeaf, ValidateFactVersion;
    SlotAlike(t, u, q, q');
    if WriteSpec(t, q).Ok? {
      var slot := NextSlot(t.places, q).value;
      PlacedAlike(t, u, q, q', slot.0, CurrentSpot(VerifyBinding(t.bind, q.company).value.meta, q.trunk, q.leaf), slot.1);
    }
  }

  lemma SlotAlike(t: Tables, u: Tables, q: Request, q': Request)
    requires SameLedgers(t, u) && SameRequest(q, q')
    ensures t.bind == u.bind && t.ids == u.ids && NextSlot(t.places, q) == NextSlot(u.places, q')
  {
    SlotIgnoresAttribution(t.places, u.places, q, q');
  }

  // ---- Runs ---------------------------------------------------------------

  /** What the caller's open transaction sees after its joined writes; `open` is not empty. */
  function JoinedRun(store: FactPlacementStore, open: seq<Tables>, t: Tables, qs: seq<Request>,
                     publication: bool): Seen<Event> {
    if qs == [] then Seen(t, open, Err(NoTransaction))
    else
      var s := JoinedRun(store, open, t, qs[..|qs|-1], publication);
      var q := qs[|qs|-1];
      Joined(s.tables, s.open, store.Args(q, !publication), WriteSpec(s.tables, q))
  }

  /** The requests of the run that succeed, in order. */
  function Granted(store: FactPlacementStore, open: seq<Tables>, t: Tables, qs: seq<Request>,
                   publication: bool): seq<Request> {
    if qs == [] then []
    else
      Granted(store, open, t, qs[..|qs|-1], publication) +
      if JoinedRun(store, open, t, qs, publication).outcome.Ok? then [qs[|qs|-1]] else []
  }

  /** The committed tables after store-owned writes on an idle connection. */
  function OwnedRun(store: FactPlacementStore, t: Tables, qs: seq<Request>): Tables {
    if qs == [] then t
    else
      var u := OwnedRun(store, t, qs[..|qs|-1]);
      Owned(u, [], store.Args(qs[|qs|-1], false), WriteSpec(u, qs[|qs|-1])).tables
  }

  ghost predicate OwnedSucceeds(store: FactPlacementStore, t: Tables, qs: seq<Request>, i: nat)
    requires i < |qs|
  {
    var u := OwnedRun(store, t, qs[..i]);
    Owned(u, [], store.Args(qs[i], false), WriteSpec(u, qs[i])).outcome.Ok?
  }

  /** A failed joined write leaves the caller's open transaction exactly as it was. */
  lemma FailedJoinUndone(store: FactPlacementStore, open: seq<Tables>, t: Tables, qs: seq<Request>, publication: bool)
    requires open != [] && qs != []
    ensures
      var before := JoinedRun(store, open, t, qs[..|qs|-1], publication);
      var after := JoinedRun(store, open, t, qs, publication);
      after.outcome.Err? ==> after.tables == before.tables && after.open == before.open
  {
  }

  lemma {:induction false} JoinedKeepsOpen(store: FactPlacementStore, open: seq<Tables>, t: Tables,
                                           qs: seq<Request>, publication: bool)
    requires open != []
    ensures JoinedRun(store, open, t, qs, publication).open == open
  {
    if qs != [] {
      JoinedKeepsOpen(store, open, t, qs[..|qs|-1], publication);
    }
  }

  /** A joining write's accepted arguments are accepted by the store-owned write. */
  lemma ArgsAlike(store: FactPlacementStore, q: Request, q': Request, publication: bool)
    requires SameRequest(q, q') && store.Args(q, !publication).Ok?
    ensures store.Args(q', false).Ok?
  {
  }

  /** Committing a transaction of joined writes leaves the ledgers that the granted ones leave
      when made one by one, at other times and attributed otherwise, as store-owned writes;
      and each of those succeeds. */
  lemma {:induction false} JoinedRefinesOwned(store: FactPlacementStore, open: seq<Tables>, t: Tables, qs: seq<Request>,
                                              publication: bool, owned: seq<Request>)
    requires open != []
    requires |owned| == |Granted(store, open, t, qs, publication)|
    requires forall i :: 0 <= i < |owned| ==> SameRequest(Granted(store, open, t, qs, publication)[i], owned[i])
    ensures SameLedgers(JoinedRun(store, open, t, qs, publication).tables, OwnedRun(store, t, owned))
    ensures forall i :: 0 <= i < |owned| ==> OwnedSucceeds(store, t, owned, i)
  {
    hide SameRequest, WriteSpec, SameLedgers;
    if qs == [] {
      SameRefl(t);
    } else {
      JoinedKeepsOpen(store, open, t, qs[..|qs|-1], publication);
      var before := JoinedRun(store, open, t, qs[..|qs|-1], publication);
      var q := qs[|qs|-1];
      var last := JoinedRun(store, open, t, qs, publication);
      if last.outcome.Ok? {
        var n := |owned| - 1;
        var granted := Granted(store, open, t, qs, publication);
        assert granted[..n] == Granted(store, open, t, qs[..|qs|-1], publication);
        assert SameRequest(granted[n], owned[n]) && granted[n] == q;
        JoinedRefinesOwned(store, open, t, qs[..|qs|-1], publication, owned[..n]);
        ArgsAlike(store, q, owned[n], publication);
        WriteAlike(before.tables, OwnedRun(store, t, owned[..n]), q, owned[n]);
        forall i | 0 <= i < |owned| ensures OwnedSucceeds(store, t, owned, i) {
          if i < n {
            assert OwnedSucceeds(store, t, owned[..n], i);
            assert owned[..n][..i] == owned[..i];
          }
        }
      } else {
        JoinedRefinesOwned(store, open, t, qs[..|qs|-1], publication, owned);
      }
    }
  }

  lemma SameRefl(t: Tables)
    ensures SameLedgers(t, t)
  {
  }
}
