/** Read grants and the literal evidence guards: range_is_granted (app/facts_tree/grants.py),
    field_evidence (app/facts_tree/reading_context.py) and the primary check of the note
    store (app/document_read/notes.py). */
module Evidence {
  import opened Wrappers
  import opened Text

  /** The number of the granted window; the source writes it in decimal. */
  type GrantId = int

  /** A displayed window: its coordinates and its granted lines by absolute line number. */
  datatype Grant = Grant(company: string, fileHash: string, fingerprint: string, originalName: string,
                         sourceLoc: string, lines: map<int, string>)

  /** The grants of one decision, by grant id. */
  type Grants = map<GrantId, Grant>

  datatype Fact = Fact(entity: string, attribute: string, period: string, value: string, unit: string, valueType: string)

  datatype Primary = Primary(grantId: GrantId, fileHash: string, fingerprint: string, originalName: string,
                             sourceLoc: string, start: int, end: int, quote: string)

  datatype Field = Period | Unit | Entity

  /** A field witness as submitted; an unlisted field name is None. */
  datatype Witness = Witness(field: Option<Field>, grantId: GrantId, company: string, fileHash: string,
                             fingerprint: string, sourceLoc: string, start: int, end: int, quote: string)

  /** A verified witness. */
  datatype Proof = Proof(field: Field, company: string, grantId: GrantId, fileHash: string, fingerprint: string,
                         originalName: string, sourceLoc: string, start: int, end: int, quote: string)

  const UNKNOWN_PERIODS: set<string> := {"", "unknown", "unspecified", "未知"}

  predicate RangeGranted(lines: map<int, string>, start: int, end: int) {
    && start <= end
    && end - start + 1 <= |lines|
    && forall i :: start <= i <= end ==> i in lines
  }

  lemma {:induction false} RangeSize(keys: set<int>, start: int, end: int)
    requires start <= end + 1 && forall i :: start <= i <= end ==> i in keys
    ensures |keys| >= end - start + 1
    decreases end - start + 1
  {
    if start <= end {
      RangeSize(keys - {end}, start, end - 1);
    }
  }

  /** A range is granted exactly when it is not empty and every line of it was displayed: comparing its
      length with the number of displayed lines refuses nothing more. */
  lemma RangeGrantedExactly(lines: map<int, string>, start: int, end: int)
    ensures RangeGranted(lines, start, end) <==> start <= end && forall i :: start <= i <= end ==> i in lines
  {
    if start <= end && forall i :: start <= i <= end ==> i in lines {
      RangeSize(lines.Keys, start, end);
    }
  }

  /** '\n'.join of the granted lines start..end. */
  function Joined(lines: map<int, string>, start: int, end: int): string
    requires start <= end && forall i :: start <= i <= end ==> i in lines
    decreases end - start
  {
    if start == end then lines[start] else Joined(lines, start, end - 1) + "\n" + lines[end]
  }

  predicate OccursAt(text: string, q: string, k: int) {
    0 <= k <= |text| - |q| && text[k..k+|q|] == q
  }

  /** q in text */
  predicate Contains(text: string, q: string) {
    exists k :: 0 <= k <= |text| - |q| && OccursAt(text, q, k)
  }

  /** A nonempty quote that occurs in the granted lines when white space is disregarded. */
  predicate Verbatim(lines: map<int, string>, start: int, end: int, quote: string) {
    && RangeGranted(lines, start, end)
    && !IsBlank(quote)
    && Contains(Squeeze(Joined(lines, start, end)), Squeeze(quote))
  }

  predicate PrimaryAccepted(p: Primary, g: Grant) {
    && p.fileHash == g.fileHash && p.fingerprint == g.fingerprint
    && p.sourceLoc == g.sourceLoc && p.originalName == g.originalName
    && Verbatim(g.lines, p.start, p.end, p.quote)
  }

  function FieldOf(f: Fact, field: Field): string {
    match field
    case Period => f.period
    case Unit => f.unit
    case Entity => f.entity
  }

  /** One witness: in scope, verbatim in its own grant, and literally carrying the field value. */
  predicate WitnessAccepted(w: Witness, f: Fact, current: Grant, allowed: Grants, company: string) {
    && w.field.Some? && w.grantId in allowed
    && var g := allowed[w.grantId];
       && w.company == company && w.fileHash == current.fileHash && w.fingerprint == current.fingerprint
       && w.sourceLoc == g.sourceLoc
       && Verbatim(g.lines, w.start, w.end, w.quote)
       && var value := FieldOf(f, w.field.value);
          !IsBlank(value) && Contains(Squeeze(w.quote), Squeeze(value))
  }

  function Proven(w: Witness, allowed: Grants, company: string): Proof
    requires w.field.Some? && w.grantId in allowed
  {
    var g := allowed[w.grantId];
    Proof(w.field.value, company, w.grantId, g.fileHash, g.fingerprint, g.originalName, g.sourceLoc,
          w.start, w.end, w.quote)
  }

  /** The loop over the witnesses: each accepted, no field witnessed twice. */
  function CheckWitnesses(ws: seq<Witness>, f: Fact, current: Grant, allowed: Grants,
                          company: string): (r: Option<seq<Proof>>)
  {
    if ws == [] then Some([])
    else
      var w := ws[|ws|-1];
      match CheckWitnesses(ws[..|ws|-1], f, current, allowed, company)
      case None => None
      case Some(before) =>
        if !WitnessAccepted(w, f, current, allowed, company) || Witnessed(before, w.field.value) then None
        else Some(before + [Proven(w, allowed, company)])
  }

  predicate Witnessed(proofs: seq<Proof>, field: Field) {
    exists i :: 0 <= i < |proofs| && proofs[i].field == field
  }

  /** The value stands in the primary quote itself, or a witness was declared for it. */
  predicate Qualified(value: string, quote: string, proofs: seq<Proof>, field: Field) {
    Contains(Squeeze(quote), Squeeze(value)) || Witnessed(proofs, field)
  }

  function FieldEvidence(f: Fact, quote: string, ws: seq<Witness>, current: Grant, allowed: Grants,
                         company: string): Option<seq<Proof>> {
    if |ws| > 3 then None
    else
      match CheckWitnesses(ws, f, current, allowed, company)
      case None => None
      case Some(proofs) =>
        if f.period !in UNKNOWN_PERIODS && !Qualified(f.period, quote, proofs, Period) then None
        else if f.unit != "" && !Qualified(f.unit, quote, proofs, Unit) then None
        else Some(proofs)
  }

  /** What a verified witness guarantees: a displayed grant's own lines carry its quote, and the
      quote carries the literal field value. */
  predicate ProofSound(p: Proof, f: Fact, allowed: Grants) {
    && p.grantId in allowed
    && Verbatim(allowed[p.grantId].lines, p.start, p.end, p.quote)
    && Contains(Squeeze(p.quote), Squeeze(FieldOf(f, p.field)))
  }

  lemma {:induction false} WitnessesSound(ws: seq<Witness>, f: Fact, current: Grant, allowed: Grants, company: string)
    requires CheckWitnesses(ws, f, current, allowed, company).Some?
    ensures
      var proofs := CheckWitnesses(ws, f, current, allowed, company).value;
      && |proofs| == |ws|
      && (forall i :: 0 <= i < |proofs| ==> ProofSound(proofs[i], f, allowed))
      && (forall i, j :: 0 <= i < j < |proofs| ==> proofs[i].field != proofs[j].field)
  {
    hide Verbatim, Contains;
    if ws != [] {
      WitnessesSound(ws[..|ws|-1], f, current, allowed, company);
    }
  }

  /** A witness the guard accepts: in the host's scope, at the coordinates of a displayed grant, quoting
      that grant verbatim, with the named field's literal value inside the quote. */
  predicate Stands(w: Witness, f: Fact, current: Grant, allowed: Grants, company: string) {
    && w.field.Some? && w.grantId in allowed
    && w.company == company && w.fileHash == current.fileHash && w.fingerprint == current.fingerprint
    && w.sourceLoc == allowed[w.grantId].sourceLoc
    && Verbatim(allowed[w.grantId].lines, w.start, w.end, w.quote)
    && var value := match w.field.value case Period => f.period case Unit => f.unit case Entity => f.entity;
       !IsBlank(value) && Contains(Squeeze(w.quote), Squeeze(value))
  }

  /** The proof records a standing witness under the coordinates of its displayed grant. */
  predicate Proves(p: Proof, w: Witness, allowed: Grants, company: string) {
    && w.field.Some? && w.grantId in allowed
    && var g := allowed[w.grantId];
       p == Proof(w.field.value, company, w.grantId, g.fileHash, g.fingerprint, g.originalName,
                  g.sourceLoc, w.start, w.end, w.quote)
  }

  lemma OneWitness(w: Witness, f: Fact, current: Grant, allowed: Grants, company: string)
    ensures WitnessAccepted(w, f, current, allowed, company) <==> Stands(w, f, current, allowed, company)
    ensures Stands(w, f, current, allowed, company) ==>
      w.field.Some? && w.grantId in allowed && Proves(Proven(w, allowed, company), w, allowed, company)
  {
    hide Verbatim, Contains;
  }

  ghost predicate AllStand(ws: seq<Witness>, f: Fact, current: Grant, allowed: Grants, company: string) {
    && (forall i :: 0 <= i < |ws| ==> Stands(ws[i], f, current, allowed, company))
    && (forall i, j :: 0 <= i < j < |ws| ==> ws[i].field != ws[j].field)
  }

  ghost predicate ProofsOf(proofs: seq<Proof>, ws: seq<Witness>, allowed: Grants, company: string) {
    |proofs| == |ws| && forall i :: 0 <= i < |ws| ==> Proves(proofs[i], ws[i], allowed, company)
  }

  /** The witnesses pass exactly when each stands and no field is witnessed twice; the proofs are then
      theirs, one by one, under the coordinates of the displayed grants. */
  lemma {:induction false} WitnessesExactly(ws: seq<Witness>, f: Fact, current: Grant, allowed: Grants, company: string)
    ensures CheckWitnesses(ws, f, current, allowed, company).Some? <==> AllStand(ws, f, current, allowed, company)
    ensures CheckWitnesses(ws, f, current, allowed, company).Some? ==>
      ProofsOf(CheckWitnesses(ws, f, current, allowed, company).value, ws, allowed, company)
  {
    hide Stands, WitnessAccepted;
    if ws != [] {
      var n := |ws| - 1;
      WitnessesExactly(ws[..n], f, current, allowed, company);
      OneWitness(ws[n], f, current, allowed, company);
      AllStandSplit(ws, f, current, allowed, company);
      if CheckWitnesses(ws[..n], f, current, allowed, company).Some? {
        FieldsWitnessed(CheckWitnesses(ws[..n], f, current, allowed, company).value, ws[..n], allowed, company);
      }
      hide AllStand, Proven, Witnessed;
      forall i | 0 <= i < n ensures ws[..n][i] == ws[i] {
      }
    }
  }

  lemma AllStandSplit(ws: seq<Witness>, f: Fact, current: Grant, allowed: Grants, company: string)
    requires ws != []
    ensures AllStand(ws, f, current, allowed, company) <==>
      var n := |ws| - 1;
      && AllStand(ws[..n], f, current, allowed, company) && Stands(ws[n], f, current, allowed, company)
      && forall i :: 0 <= i < n ==> ws[..n][i].field != ws[n].field
  {
    hide Stands;
    var n := |ws| - 1;
    forall i | 0 <= i < n ensures ws[..n][i] == ws[i] {
    }
    if AllStand(ws[..n], f, current, allowed, company) && Stands(ws[n], f, current, allowed, company)
       && forall i :: 0 <= i < n ==> ws[..n][i].field != ws[n].field {
      forall i, j | 0 <= i < j < |ws| ensures ws[i].field != ws[j].field {
        assert ws[i] == ws[..n][i];
        if j < n { assert ws[j] == ws[..n][j]; }
      }
    }
  }

  /** A field is witnessed by the proofs exactly when one of their witnesses names it. */
  lemma FieldsWitnessed(proofs: seq<Proof>, ws: seq<Witness>, allowed: Grants, company: string)
    requires ProofsOf(proofs, ws, allowed, company)
    ensures forall field :: Witnessed(proofs, field) <==> exists i :: 0 <= i < |ws| && ws[i].field == Some(field)
  {
    forall field ensures Witnessed(proofs, field) <==> exists i :: 0 <= i < |ws| && ws[i].field == Some(field) {
      forall i | 0 <= i < |ws| ensures proofs[i].field == field <==> ws[i].field == Some(field) {
        assert Proves(proofs[i], ws[i], allowed, company);
      }
    }
  }

  /** The literal guard accepts exactly at most three standing witnesses for different fields, with every
      known qualifier of the fact standing in the primary quote or witnessed. */
  lemma EvidenceExactly(f: Fact, quote: string, ws: seq<Witness>, current: Grant, allowed: Grants, company: string)
    ensures FieldEvidence(f, quote, ws, current, allowed, company).Some? <==>
      && |ws| <= 3
      && (forall i :: 0 <= i < |ws| ==> Stands(ws[i], f, current, allowed, company))
      && (forall i, j :: 0 <= i < j < |ws| ==> ws[i].field != ws[j].field)
      && (f.period !in {"", "unknown", "unspecified", "未知"} ==>
            Contains(Squeeze(quote), Squeeze(f.period)) || exists i :: 0 <= i < |ws| && ws[i].field == Some(Period))
      && (f.unit != "" ==>
            Contains(Squeeze(quote), Squeeze(f.unit)) || exists i :: 0 <= i < |ws| && ws[i].field == Some(Unit))
    ensures FieldEvidence(f, quote, ws, current, allowed, company).Some? ==>
      ProofsOf(FieldEvidence(f, quote, ws, current, allowed, company).value, ws, allowed, company)
  {
    WitnessesExactly(ws, f, current, allowed, company);
    hide CheckWitnesses, Stands, Contains;
    if CheckWitnesses(ws, f, current, allowed, company).Some? {
      FieldsWitnessed(CheckWitnesses(ws, f, current, allowed, company).value, ws, allowed, company);
    }
  }

  /** No qualifier is ever inferred: a known period and a nonempty unit occur literally in the
      primary quote, or in a quote that a displayed grant carries verbatim. */
  lemma EvidenceSound(f: Fact, quote: string, ws: seq<Witness>, current: Grant, allowed: Grants, company: string,
                      field: Field)
    requires FieldEvidence(f, quote, ws, current, allowed, company).Some?
    requires (field == Period && f.period !in UNKNOWN_PERIODS) || (field == Unit && f.unit != "")
    ensures
      var proofs := FieldEvidence(f, quote, ws, current, allowed, company).value;
      || Contains(Squeeze(quote), Squeeze(FieldOf(f, field)))
      || exists i :: 0 <= i < |proofs| && proofs[i].field == field && ProofSound(proofs[i], f, allowed)
  {
    WitnessesSound(ws, f, current, allowed, company);
    hide ProofSound, Contains, CheckWitnesses;
  }

  /** The witness a verified proof came from; the note store hands it to the same guard again. */
  function AsWitness(p: Proof): Witness {
    Witness(Some(p.field), p.grantId, p.company, p.fileHash, p.fingerprint, p.sourceLoc, p.start, p.end, p.quote)
  }

  function AsWitnesses(ps: seq<Proof>): seq<Witness> {
    seq(|ps|, i requires 0 <= i < |ps| => AsWitness(ps[i]))
  }

  /** Re-verification is stable: the guard accepts its own output, and returns it unchanged, on the
      same grants and on any that extend them. */
  lemma {:induction false} WitnessesStable(ws: seq<Witness>, f: Fact, current: Grant, allowed: Grants, more: Grants,
                                           company: string)
    requires CheckWitnesses(ws, f, current, allowed, company).Some?
    requires forall k :: k in allowed ==> k in more && more[k] == allowed[k]
    requires forall k :: k in allowed ==> allowed[k].fileHash == current.fileHash && allowed[k].fingerprint == current.fingerprint
    ensures
      var proofs := CheckWitnesses(ws, f, current, allowed, company).value;
      CheckWitnesses(AsWitnesses(proofs), f, current, more, company) == Some(proofs)
  {
    hide Verbatim, Contains;
    if ws != [] {
      WitnessesStable(ws[..|ws|-1], f, current, allowed, more, company);
      var proofs := CheckWitnesses(ws, f, current, allowed, company).value;
      var before := CheckWitnesses(ws[..|ws|-1], f, current, allowed, company).value;
      assert AsWitnesses(proofs)[..|proofs|-1] == AsWitnesses(before);
    }
  }

  lemma EvidenceStable(f: Fact, quote: string, ws: seq<Witness>, current: Grant, allowed: Grants, more: Grants,
                       company: string)
    requires FieldEvidence(f, quote, ws, current, allowed, company).Some?
    requires forall k :: k in allowed ==> k in more && more[k] == allowed[k]
    requires forall k :: k in allowed ==> allowed[k].fileHash == current.fileHash && allowed[k].fingerprint == current.fingerprint
    ensures
      var proofs := FieldEvidence(f, quote, ws, current, allowed, company).value;
      && |proofs| <= 3 && (forall i :: 0 <= i < |proofs| ==> proofs[i].grantId in more)
      && FieldEvidence(f, quote, AsWitnesses(proofs), current, more, company) == Some(proofs)
  {
    WitnessesStable(ws, f, current, allowed, more, company);
    WitnessesSound(ws, f, current, allowed, company);
    hide CheckWitnesses, Qualified, Verbatim, Contains;
    var proofs := FieldEvidence(f, quote, ws, current, allowed, company).value;
    assert forall i :: 0 <= i < |proofs| ==> ProofSound(proofs[i], f, allowed);
  }
}
