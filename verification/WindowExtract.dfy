/** The extract loop of one window: candidate identities, the context tool's counters and the
    no-progress streak (app/document_read/service.py, _prepare_notes_window). */
module WindowExtract {
  import opened Wrappers

  /** The canonical text of a candidate's fields and coordinates. */
  type Identity = string

  /** A delivered fact: the identity of a verified candidate, or None for a rejected one. */
  type Verdict = Option<Identity>

  /** What the loop keeps in prepared and in the window's record. */
  datatype Prepared = Prepared(keys: seq<Identity>, streak: nat, toolRejections: nat, stalls: nat, revisits: nat, complete: bool)

  const FRESH := Prepared([], 0, 0, 0, 0, false)

  /** One answer of the employee; a grant names windows that were not displayed yet. */
  datatype Turn =
    | BadTool
    | RepeatedTool
    | NewContext(windows: nat)
    | Delivery(facts: seq<Verdict>, complete: bool)

  /** After a turn the loop goes on, or the run stops at this window. */
  datatype Result = Going(p: Prepared) | Stopped(p: Prepared)

  // ---- Specification ------------------------------------------------------

  /** The identities after a delivery: each new one once, in order. */
  function Collect(keys: seq<Identity>, facts: seq<Verdict>): (r: seq<Identity>)
    ensures keys <= r && |r| <= |keys| + |facts|
    ensures NoDuplicates(keys) ==> NoDuplicates(r)
    ensures forall i :: 0 <= i < |facts| && facts[i].Some? ==> facts[i].value in r
    ensures forall i :: |keys| <= i < |r| ==> Some(r[i]) in facts && r[i] !in keys
  {
    if facts == [] then keys
    else
      var before := Collect(keys, facts[..|facts|-1]);
      var last := facts[|facts|-1];
      if last.None? || last.value in before then before else before + [last.value]
  }

  /** A delivery that adds a candidate, or claims that the window is complete. */
  predicate Progress(p: Prepared, t: Turn) {
    t.Delivery? && (Collect(p.keys, t.facts) != p.keys || t.complete)
  }

  function TakeTurn(p: Prepared, t: Turn): Result {
    match t
    case BadTool => RefuseTool(p)
    case RepeatedTool =>
      var q := p.(stalls := p.stalls + 1);
      if q.stalls >= 2 then Stopped(q) else Going(q)
    case NewContext(n) =>
      if n == 0 || p.revisits + n > 2 then RefuseTool(p)
      else Going(p.(revisits := p.revisits + n, stalls := 0, streak := 0))
    case Delivery(facts, complete) =>
      var keys := Collect(p.keys, facts);
      var q := p.(keys := keys, complete := complete && !(facts != [] && keys == p.keys));
      if keys != p.keys || complete then Going(q.(streak := 0))
      else if p.streak + 1 >= 2 then Stopped(q.(streak := p.streak + 1))
      else Going(q.(streak := p.streak + 1))
  }

  function RefuseTool(p: Prepared): Result {
    var q := p.(toolRejections := p.toolRejections + 1);
    if q.toolRejections >= 2 then Stopped(q) else Going(q)
  }

  /** The loop over the employee's answers; it ends with the window complete, or stopped. */
  function Loop(p: Prepared, turns: seq<Turn>): Result {
    if turns == [] then Going(p)
    else
      match Loop(p, turns[..|turns|-1])
      case Stopped(q) => Stopped(q)
      case Going(q) => if q.complete then Going(q) else TakeTurn(q, turns[|turns|-1])
  }

  /** The state in which the i-th turn is taken. */
  function Before(p: Prepared, turns: seq<Turn>, i: nat): Prepared
    requires i <= |turns|
  {
    Loop(p, turns[..i]).p
  }

  // ---- Bounded turns without progress -------------------------------------

  ghost predicate PreparedInv(p: Prepared) {
    p.revisits <= 2 && NoDuplicates(p.keys)
  }

  function Margin(n: nat): nat {
    if n < 2 then 2 - n else 0
  }

  /** What is left of the grant cap and of the three counters. */
  function Slack(p: Prepared): nat
    requires p.revisits <= 2
  {
    5 * (2 - p.revisits) + Margin(p.toolRejections) + Margin(p.stalls) + Margin(p.streak)
  }

  lemma TurnKeeps(p: Prepared, t: Turn)
    requires PreparedInv(p)
    ensures PreparedInv(TakeTurn(p, t).p) && p.keys <= TakeTurn(p, t).p.keys
  {
  }

  /** A turn without progress uses up slack, or stops the loop. */
  lemma NoProgressCosts(p: Prepared, t: Turn)
    requires PreparedInv(p) && !Progress(p, t) && TakeTurn(p, t).Going?
    ensures Slack(TakeTurn(p, t).p) < Slack(p)
  {
  }

  lemma {:induction false} LoopKeeps(p: Prepared, turns: seq<Turn>)
    requires PreparedInv(p)
    ensures PreparedInv(Loop(p, turns).p) && p.keys <= Loop(p, turns).p.keys
  {
    if turns != [] {
      LoopKeeps(p, turns[..|turns|-1]);
      TurnKeeps(Loop(p, turns[..|turns|-1]).p, turns[|turns|-1]);
    }
  }

  ghost predicate NeverProgress(p: Prepared, turns: seq<Turn>) {
    forall i :: 0 <= i < |turns| ==> !Progress(Before(p, turns, i), turns[i])
  }

  lemma {:induction false} SlackPays(p: Prepared, turns: seq<Turn>)
    requires PreparedInv(p) && !p.complete && NeverProgress(p, turns) && Loop(p, turns).Going?
    ensures PreparedInv(Loop(p, turns).p) && !Loop(p, turns).p.complete
    ensures |turns| + Slack(Loop(p, turns).p) <= Slack(p)
  {
    if turns != [] {
      var before := turns[..|turns|-1];
      forall i | 0 <= i < |before| ensures !Progress(Before(p, before, i), before[i]) {
        assert before[..i] == turns[..i];
      }
      SlackPays(p, before);
      assert turns[..|turns|-1] == before;
      assert !Progress(Before(p, turns, |turns| - 1), turns[|turns|-1]);
      NoProgressCosts(Loop(p, before).p, turns[|turns|-1]);
      TurnKeeps(Loop(p, before).p, turns[|turns|-1]);
    }
  }

  /** Between two deliveries that make progress the loop takes at most sixteen turns before it stops,
      whatever the employee sends and from whatever checkpoint it resumed. */
  lemma BoundedNoProgress(p: Prepared, turns: seq<Turn>)
    requires PreparedInv(p) && !p.complete && NeverProgress(p, turns) && |turns| > 16
    ensures Loop(p, turns).Stopped?
  {
    if Loop(p, turns).Going? {
      SlackPays(p, turns);
    }
  }

  /** Accepted candidates keep pairwise distinct identities, and none is ever dropped. */
  lemma CandidatesDistinct(turns: seq<Turn>)
    ensures NoDuplicates(Loop(FRESH, turns).p.keys)
  {
    LoopKeeps(FRESH, turns);
  }

  /** An answer that claims completion with nothing but rejected facts leaves the window open and
      resets the streak, so any number of them goes on: only the call budget bounds that case. */
  lemma {:induction false} EmptyClaimsGoOn(p: Prepared, n: nat)
    requires !p.complete && p.streak == 0
    ensures Loop(p, seq(n, i => Delivery([None], true))) == Going(p)
  {
    if n > 0 {
      var turns := seq(n, i => Delivery([None], true));
      assert turns[..n-1] == seq(n - 1, i => Delivery([None], true));
      EmptyClaimsGoOn(p, n - 1);
      var rejected: seq<Verdict> := [None];
      assert rejected[..0] == [];
      assert Collect(p.keys, rejected) == p.keys;
    }
  }

  // ---- Completion and stopping --------------------------------------------

  /** Some fact of the delivery is a candidate that was not known before. */
  predicate AddsCandidate(keys: seq<Identity>, facts: seq<Verdict>) {
    exists i :: 0 <= i < |facts| && facts[i].Some? && facts[i].value !in keys
  }

  /** A delivery that closes the window: it claims completion, and it is empty or adds a candidate. */
  predicate Closes(keys: seq<Identity>, t: Turn) {
    t.Delivery? && t.complete && (t.facts == [] || AddsCandidate(keys, t.facts))
  }

  lemma CollectsNew(keys: seq<Identity>, facts: seq<Verdict>)
    ensures Collect(keys, facts) != keys <==> AddsCandidate(keys, facts)
    ensures forall k :: k in Collect(keys, facts) <==> k in keys || Some(k) in facts
  {
    var all := Collect(keys, facts);
    if all != keys {
      assert Some(all[|keys|]) in facts;
      var i :| 0 <= i < |facts| && facts[i] == Some(all[|keys|]);
    }
    forall k ensures k in all <==> k in keys || Some(k) in facts {
      if k in all {
        var i :| 0 <= i < |all| && all[i] == k;
        assert i < |keys| ==> keys[i] == k;
      }
      if k in keys {
        var i :| 0 <= i < |keys| && keys[i] == k;
        assert all[i] == k;
      }
    }
  }

  /** One turn, by what it brings. A delivery completes the window exactly when it closes it; one that adds
      a candidate or claims completion forgets the streak, and the second in a row that does neither stops
      the run. A new context within the cap forgets stalls and streak; the second repeated request and the
      second refused one stop the run. */
  lemma TurnExactly(p: Prepared, t: Turn)
    ensures
      match t
      case Delivery(facts, complete) =>
        var q := TakeTurn(p, t).p;
        && p.keys <= q.keys && (forall k :: k in q.keys <==> k in p.keys || Some(k) in facts)
        && q.complete == Closes(p.keys, t)
        && q.streak == (if AddsCandidate(p.keys, facts) || complete then 0 else p.streak + 1)
        && (TakeTurn(p, t).Stopped? <==> !AddsCandidate(p.keys, facts) && !complete && p.streak >= 1)
        && q == p.(keys := q.keys, complete := q.complete, streak := q.streak)
      case RepeatedTool =>
        TakeTurn(p, t) == if p.stalls == 0 then Going(p.(stalls := 1)) else Stopped(p.(stalls := p.stalls + 1))
      case NewContext(n) =>
        if n >= 1 && p.revisits + n <= 2 then TakeTurn(p, t) == Going(p.(revisits := p.revisits + n, stalls := 0, streak := 0))
        else TakeTurn(p, t) == TakeTurn(p, BadTool)
      case BadTool =>
        TakeTurn(p, t) == if p.toolRejections == 0 then Going(p.(toolRejections := 1))
                          else Stopped(p.(toolRejections := p.toolRejections + 1))
  {
    if t.Delivery? { CollectsNew(p.keys, t.facts); }
  }

  /** The i-th turn found the window open and closed it. */
  ghost predicate ClosedAt(p: Prepared, turns: seq<Turn>, i: nat)
    requires i < |turns|
  {
    !Before(p, turns, i).complete && Closes(Before(p, turns, i).keys, turns[i])
  }

  lemma ClosedBefore(p: Prepared, turns: seq<Turn>, n: nat, i: nat)
    requires i < n <= |turns|
    ensures ClosedAt(p, turns[..n], i) <==> ClosedAt(p, turns, i)
  {
    assert turns[..n][..i] == turns[..i];
  }

  /** The window is complete exactly when one of the deliveries closed it: neither an earlier turn nor a
      claim with nothing but rejected or known facts completes it, and no later turn reopens it. */
  lemma {:induction false} CompletesExactly(p: Prepared, turns: seq<Turn>)
    requires !p.complete && Loop(p, turns).Going?
    ensures Loop(p, turns).p.complete <==> exists i :: 0 <= i < |turns| && ClosedAt(p, turns, i)
  {
    if turns == [] {
      assert Loop(p, turns) == Going(p);
    } else {
      hide Loop, ClosedAt;
      var n := |turns| - 1;
      LastTurnCompletes(p, turns);
      CompletesExactly(p, turns[..n]);
      forall i | 0 <= i < n ensures ClosedAt(p, turns[..n], i) <==> ClosedAt(p, turns, i) {
        ClosedBefore(p, turns, n, i);
      }
      if Loop(p, turns[..n]).p.complete {
        var i :| 0 <= i < n && ClosedAt(p, turns[..n], i);
        assert ClosedAt(p, turns, i);
      }
    }
  }

  lemma LastTurnCompletes(p: Prepared, turns: seq<Turn>)
    requires turns != [] && Loop(p, turns).Going?
    ensures Loop(p, turns[..|turns|-1]).Going?
    ensures Loop(p, turns).p.complete <==> Loop(p, turns[..|turns|-1]).p.complete || ClosedAt(p, turns, |turns| - 1)
  {
    var q := Loop(p, turns[..|turns|-1]);
    if q.Going? && !q.p.complete { TurnExactly(q.p, turns[|turns|-1]); }
  }

  // ---- The loop body ------------------------------------------------------

  /** The mutable preparation of one window. */
  class Preparation {
    var keys: seq<Identity>
    var streak: nat
    var toolRejections: nat
    var stalls: nat
    var revisits: nat
    var complete: bool

    constructor ()
      ensures View() == FRESH
    {
      keys, streak, toolRejections, stalls, revisits, complete := [], 0, 0, 0, 0, false;
    }

    ghost function View(): Prepared
      reads this
    {
      Prepared(keys, streak, toolRejections, stalls, revisits, complete)
    }

    /** The loop over a delivery's facts: every verified identity that is not known yet is kept. */
    method AdmitCandidates(facts: seq<Verdict>) returns (accepted: nat, duplicates: seq<nat>)
      modifies this`keys
      ensures keys == Collect(old(keys), facts) && accepted == |keys| - |old(keys)|
      ensures forall i :: i in duplicates ==> i < |facts| && facts[i].Some?
    {
      var known := set i | 0 <= i < |keys| :: keys[i];
      accepted, duplicates := 0, [];
      var n := 0;
      while n < |facts|
        invariant 0 <= n <= |facts|
        invariant keys == Collect(old(keys), facts[..n]) && accepted == |keys| - |old(keys)|
        invariant forall k :: k in known <==> k in keys
        invariant forall i :: i in duplicates ==> i < n && facts[i].Some?
      {
        assert facts[..n+1][..n] == facts[..n];
        if facts[n].Some? {
          var identity := facts[n].value;
          if identity in known {
            duplicates := duplicates + [n];
          } else {
            known := known + {identity};
            keys := keys + [identity];
            accepted := accepted + 1;
          }
        }
        n := n + 1;
      }
      assert facts[..n] == facts;
    }

    /** One extract delivery and what it does to completion and streak. */
    method Deliver(facts: seq<Verdict>, claimsComplete: bool) returns (goesOn: bool, duplicates: seq<nat>)
      modifies this
      ensures (if goesOn then Going(View()) else Stopped(View())) == TakeTurn(old(View()), Delivery(facts, claimsComplete))
      ensures forall i :: i in duplicates ==> i < |facts| && facts[i].Some?
    {
      var accepted: nat;
      accepted, duplicates := AdmitCandidates(facts);
      assert accepted > 0 <==> keys != old(keys);
      complete := claimsComplete && !(facts != [] && accepted == 0);
      if accepted > 0 || claimsComplete {
        streak := 0;
        goesOn := true;
      } else {
        streak := streak + 1;
        goesOn := streak < 2;
      }
    }
  }
}
