/** The reading loop of the notebook, commit by commit (app/document_read/notes.py, run). */
module ReadingLoop {
  import opened Wrappers
  import opened Evidence
  import opened NoteLedger
  import opened NoteRules
  import opened Notebook

  /** What the employee answers, or what happens to the worker. */
  datatype Event =
    | Start
    | Crash
    | Advance
    | Tool(ids: seq<GrantId>)
    | ExtractStalled
    | BadReceipt
    | Receipt(outcome: Outcome, creates: seq<Create>, revisions: seq<Revision>, candidates: seq<Candidate>,
              chosen: seq<GrantId>, fence: Fence)

  // ---- Steps --------------------------------------------------------------

  /** The records with a pending one at the cursor. */
  function WithHead(p: Progress): (rs: seq<Record>)
    requires p.cursor <= |p.records|
    ensures |rs| > p.cursor
  {
    if |p.records| <= p.cursor then p.records + [FreshRecord(p.cursor)] else p.records
  }

  function SetHead(p: Progress, r: Record): Progress
    requires p.cursor <= |p.records|
  {
    p.(records := WithHead(p)[p.cursor := r])
  }

  function Head(p: Progress): Record
    requires p.cursor <= |p.records|
  {
    WithHead(p)[p.cursor]
  }

  /** The context displayed at the cursor, when the prefix passes its checks. */
  function HeadContext(job: Job, p: Progress): Option<seq<Shown>>
    requires p.cursor <= |p.records|
  {
    match Replay(job, p.records[..p.cursor], p.cursor)
    case None => None
    case Some(c) => Some(Displayed(c.history, c.retained))
  }

  /** From the loop head to the next commit. */
  function Enter(job: Job, s: State): State
    requires Load(s).cursor <= |Load(s).records| && Load(s).cursor < |job.doc|
  {
    var p := Load(s);
    var r := Head(p);
    if job.doc[p.cursor].unavailable then
      Save(s, SetHead(p, r.(status := AsUnresolved)).(cursor := p.cursor + 1), Top)
    else
      match HeadContext(job, p)
      case None => Stop(s)
      case Some(contexts) =>
        if !Bounded(job, contexts) then Stop(s)
        else if r.status != ReadPending then
          Save(s, SetHead(p, r.(rolling := Some(contexts))).(cursor := p.cursor + 1), Top)
        else if r.toolBlocked || r.extractBlocked then Stop(s)
        else
          match RevisitAll(job, p, r.revisits)
          case None => Stop(s)
          case Some(shown) =>
            if r.views.Some? && r.views.value != shown then Stop(s)
            else Save(s, SetHead(p, r.(rolling := Some(contexts), grant := Some(job.Grant(p.cursor)))), Reading)
  }

  /** The end of the loop: coverage is checked, then reading is complete. */
  function Finish(job: Job, s: State): State {
    var p := Load(s);
    if |p.records| != |job.doc| || exists i :: 0 <= i < |p.records| && p.records[i].status == ReadPending then Stop(s)
    else Save(s, p.(complete := true, openNotes := Some(CountOpen(s.ledger, |s.ledger.order|))), ReviewStart)
  }

  /** The requested windows that are not displayed yet. */
  function Unseen(owned: seq<GrantId>, ids: seq<GrantId>): (r: seq<GrantId>)
    ensures |r| <= |ids|
    ensures forall i :: 0 <= i < |r| ==> r[i] in ids && r[i] !in owned
    ensures NoDuplicates(ids) ==> NoDuplicates(r)
    ensures r == [] ==> forall i :: 0 <= i < |ids| ==> ids[i] in owned
  {
    if ids == [] then []
    else
      var before := Unseen(owned, ids[..|ids|-1]);
      if ids[|ids|-1] in owned then before else before + [ids[|ids|-1]]
  }

  /** request_context: a refusal changes nothing, a repeat counts as a stall and the second stall
      blocks the window, and a new grant is recorded with its view. */
  function RequestContext(job: Job, s: State, ids: seq<GrantId>): State
    requires Load(s).cursor < |Load(s).records|
  {
    var p := Load(s);
    var r := p.records[p.cursor];
    if !(1 <= |ids| <= 2) || !NoDuplicates(ids) then s
    else
      var unseen := Unseen(r.revisits, ids);
      if unseen == [] then
        Save(s, SetHead(p, r.(stalls := r.stalls + 1)), if r.stalls + 1 >= 2 then Blocking else Reading)
      else if |r.revisits| + |unseen| > 2 then s
      else
        var contexts, shown, granted := HeadContext(job, p), RevisitAll(job, p, r.revisits), RevisitAll(job, p, unseen);
        if contexts.None? || shown.None? || granted.None? then s
        else
          var combined := Dedup(contexts.value + shown.value + granted.value);
          if |combined| > 6 || !job.fits(combined) then s
          else
            Save(s, SetHead(p, r.(revisits := r.revisits + unseen, views := Some(shown.value + granted.value), stalls := 0)),
                 Reading)
  }

  /** The second malformed receipt leaves the window blocked at its next turn. */
  function Malformed(s: State): State
    requires Load(s).cursor < |Load(s).records|
  {
    var p := Load(s);
    var r := p.records[p.cursor];
    if r.formatAttempts >= 2 then Save(s, SetHead(p, r.(formatBlocked := true)), Idle)
    else Save(s, SetHead(p, r.(formatAttempts := r.formatAttempts + 1)), Reading)
  }

  predicate ReceiptShapeOk(e: Event)
    requires e.Receipt?
  {
    && (e.outcome == NoContent ==> e.creates == [] && e.revisions == [])
    && (e.outcome == Noted ==> e.creates != [] || e.revisions != [])
    && SelectionOk(e.chosen)
  }

  function RequestOf(job: Job, p: Progress, e: Event, grants: Grants): WindowRequest
    requires e.Receipt?
  {
    WindowRequest(p.cursor, Some(e.outcome), Some(e.creates), Some(e.revisions), grants, e.candidates, job.key(p.cursor))
  }

  /** A well-formed receipt: the retention must have been displayed, then the ledger decides. */
  function Submit(job: Job, s: State, e: Event): State
    requires e.Receipt? && Load(s).cursor < |Load(s).records| && Load(s).cursor < |job.doc|
  {
    var p := Load(s);
    var r := p.records[p.cursor];
    if r.formatAttempts >= 2 || !ReceiptShapeOk(e) then Malformed(s)
    else
      var contexts, shown := HeadContext(job, p), RevisitAll(job, p, r.revisits);
      if contexts.None? || shown.None? then Stop(s)
      else
        var retained := Retained(e.chosen, job.Grant(p.cursor), contexts.value);
        if retained.None? || !Bounded(job, retained.value) then Stop(s)
        else
          var grants := GrantMap([job.Grant(p.cursor)] + Dedup(contexts.value + shown.value));
          match WindowSpec(job.host, s.ledger, RequestOf(job, p, e, grants), e.fence)
          case Ok(done) => State(s.disk, done.0, Applied(Ok(done.1), e.outcome, e.chosen, retained.value))
          case Err(refusal) =>
            if refusal == NoteRejected then s.(phase := Applied(Err(refusal), e.outcome, e.chosen, retained.value))
            else Stop(s)
  }

  function StatusFor(outcome: Outcome): RecordStatus {
    match outcome
    case Noted => AsNoted
    case NoContent => AsNoContent
    case Unresolved => AsUnresolved
  }

  /** The first commit after the ledger's answer: a refusal closes the window as a technical
      rejection, a receipt is recorded before the cursor moves. */
  function Commit(s: State): State
    requires s.phase.Applied? && Load(s).cursor < |Load(s).records|
  {
    var p := Load(s);
    var r := p.records[p.cursor].(chosen := Some(s.phase.chosen), retained := Some(s.phase.retained));
    match s.phase.result
    case Ok(receipt) => Save(s, SetHead(p, r.(receipt := Some(receipt), status := StatusFor(s.phase.outcome))), Recorded)
    case Err(_) => Save(s, SetHead(p, r.(technical := true, status := AsUnresolved)).(cursor := p.cursor + 1), Top)
  }

  function MoveOn(s: State): State {
    Save(s, Load(s).(cursor := Load(s).cursor + 1), Top)
  }

  /** An explicit retry clears the stop markers of every blocked window, and moves the cursor to
      the first window that is blocked or still to be read. */
  function Unblock(r: Record): Record {
    if r.toolBlocked || r.extractBlocked then
      r.(formatAttempts := if r.formatBlocked then 0 else r.formatAttempts, formatBlocked := false,
         toolBlocked := false, extractBlocked := false, stalls := 0)
    else r.(formatAttempts := if r.formatBlocked then 0 else r.formatAttempts, formatBlocked := false)
  }

  predicate Reopens(r: Record) {
    r.formatBlocked || r.toolBlocked || r.extractBlocked || r.status == ReadPending
  }

  function UnblockAll(rs: seq<Record>): seq<Record> {
    seq(|rs|, i requires 0 <= i < |rs| => Unblock(rs[i]))
  }

  /** The first position to retry, or the number of records when there is none. */
  function FirstReopened(rs: seq<Record>): (n: nat)
    ensures n <= |rs|
    ensures n < |rs| ==> Reopens(rs[n])
    ensures forall i :: 0 <= i < n ==> !Reopens(rs[i])
  {
    if rs == [] then 0
    else
      var n := FirstReopened(rs[..|rs|-1]);
      if n < |rs| - 1 then n else if Reopens(rs[|rs|-1]) then |rs| - 1 else |rs|
  }

  function RetryReading(p: Progress): Progress {
    var n := FirstReopened(p.records);
    if n == |p.records| then p.(records := UnblockAll(p.records))
    else p.(records := UnblockAll(p.records), cursor := n, complete := false)
  }

  /** The cursor stands on a window that the worker is reading. */
  predicate Ready(job: Job, s: State) {
    && Load(s).cursor <= |Load(s).records| && Load(s).cursor <= |job.doc|
    && (s.phase.Reading? || s.phase.Blocking? || s.phase.Applied? ==>
          Load(s).cursor < |Load(s).records| && Load(s).cursor < |job.doc|)
  }

  /** The candidates of a window were extracted from that window. */
  predicate OwnCandidates(s: State, e: Event)
    requires e.Receipt?
  {
    forall i :: 0 <= i < |e.candidates| ==> e.candidates[i].grantId == Load(s).cursor
  }

  /** Reading steps. An event that does not fit the phase changes nothing. */
  function Step(job: Job, s: State, e: Event): State
    requires Ready(job, s)
  {
    match e
    case Crash => Stop(s)
    case Start => if !s.phase.Idle? then s else s.(phase := if Load(s).complete then ReviewStart else Top)
    case Tool(ids) => if s.phase.Reading? then RequestContext(job, s, ids) else s
    case ExtractStalled =>
      if !s.phase.Reading? then s
      else Save(s, SetHead(Load(s), Head(Load(s)).(extractBlocked := true)), Idle)
    case BadReceipt => if s.phase.Reading? then Malformed(s) else s
    case Receipt(_, _, _, _, _, _) => if s.phase.Reading? && OwnCandidates(s, e) then Submit(job, s, e) else s
    case Advance =>
      match s.phase
      case Top => if Load(s).cursor < |job.doc| then Enter(job, s) else Finish(job, s)
      case Blocking => Save(s, SetHead(Load(s), Head(Load(s)).(toolBlocked := true)), Idle)
      case Applied(_, _, _, _) => Commit(s)
      case Recorded => MoveOn(s)
      case _ => s
  }
}
