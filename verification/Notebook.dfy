/** The resumable notebook of one file: reading checkpoint, review checkpoint, note ledger and
    the volatile position of the worker (app/document_read/notes.py, MappedNotesService).

    A step runs from one durable commit to the next: what a run changes in memory in between is
    lost with it, so a crash between two steps loses nothing that the step model does not. */
module Notebook {
  import opened Wrappers
  import opened Evidence
  import opened NoteLedger

  /** A grant as displayed: its id and content. */
  datatype Shown = Shown(id: GrantId, grant: Grant)

  /** A mapped window; an unavailable one exceeds the window bound and is never granted. */
  datatype Window = Window(unavailable: bool, grant: Grant)

  /** The job: scope, mapped document, byte bound of a context, request keys. */
  datatype Job = Job(host: Host, doc: seq<Window>, fits: seq<Shown> -> bool,
                     key: WindowId -> string, reviewKey: (NoteId, int) -> string)
  {
    /** Request keys are digests, never empty, and every window is granted in the host's own scope. */
    ghost predicate Valid() {
      && (forall n :: 0 <= n < |doc| ==> key(n) != "")
      && (forall id, round :: reviewKey(id, round) != "")
      && (forall n :: 0 <= n < |doc| ==>
            && doc[n].grant.company == host.company && doc[n].grant.fileHash == host.fileHash
            && doc[n].grant.fingerprint == host.fingerprint)
    }

    function Grant(n: int): Shown
      requires 0 <= n < |doc|
    {
      Shown(n, doc[n].grant)
    }
  }

  datatype RecordStatus = ReadPending | AsNoted | AsNoContent | AsUnresolved

  /** One entry of progress['records']; absent keys are None. */
  datatype Record = Record(
    window: int, status: RecordStatus, grant: Option<Shown>, rolling: Option<seq<Shown>>,
    chosen: Option<seq<GrantId>>, retained: Option<seq<Shown>>,
    revisits: seq<GrantId>, views: Option<seq<Shown>>, stalls: nat, toolBlocked: bool, extractBlocked: bool,
    formatAttempts: nat, formatBlocked: bool, receipt: Option<WindowReceipt>, technical: bool)

  /** An entry of the review's list of revisited windows: the tool compares numbers with the
      grant ids it has stored, and those are text. */
  datatype Ref = Number(n: int) | Text(n: int)

  datatype Item = Item(attempts: nat, toolRejections: nat, stalls: nat, revisits: seq<Ref>, views: seq<Shown>,
                       blocked: bool, round: Option<int>, receipt: Option<ReviewReceipt>)

  datatype Review = Review(order: seq<NoteId>, items: map<NoteId, Item>, cursor: nat, complete: bool)

  /** openNotes is written when reading ends and when the review ends. */
  datatype Progress = Progress(cursor: nat, records: seq<Record>, complete: bool, openNotes: Option<nat>,
                               review: Option<Review>, reviewComplete: bool)

  const FRESH := Progress(0, [], false, None, None, false)
  const FRESH_REVIEW := Review([], map[], 0, false)
  const FRESH_ITEM := Item(0, 0, 0, [], [], false, None, None)

  function FreshRecord(n: int): Record {
    Record(n, ReadPending, None, None, None, None, [], None, 0, false, false, 0, false, None, false)
  }

  /** Where the worker stands; everything but Idle is lost in a crash. */
  datatype Phase =
    | Idle
    | Top
    | Reading
    | Blocking
    | Applied(result: Result<WindowReceipt, Refusal>, outcome: Outcome, chosen: seq<GrantId>, retained: seq<Shown>)
    | Recorded
    | ReviewStart
    | ReviewTop
    | Reviewing(round: int, shown: seq<Shown>)
    | ReviewBlocking
    | ReviewApplied(receipt: ReviewReceipt)
    | Gate

  /** Two durable stores that commit separately, and the volatile phase. */
  datatype State = State(disk: Option<Progress>, ledger: Ledger, phase: Phase)

  function Load(s: State): Progress {
    if s.disk.None? then FRESH else s.disk.value
  }

  function Save(s: State, p: Progress, phase: Phase): State {
    State(Some(p), s.ledger, phase)
  }

  /** An exception, a stop or a crash: only what is durable remains. */
  function Stop(s: State): State {
    s.(phase := Idle)
  }

  // ---- Rolling and retained context ---------------------------------------

  function Find(shown: seq<Shown>, id: GrantId): Option<Shown> {
    if shown == [] then None
    else if shown[|shown|-1].id == id then Some(shown[|shown|-1])
    else Find(shown[..|shown|-1], id)
  }

  /** list({g['grant_id']: g for g in ...}.values()) */
  function Dedup(shown: seq<Shown>): (r: seq<Shown>)
    ensures |r| <= |shown|
  {
    if shown == [] then []
    else
      var before := Dedup(shown[..|shown|-1]);
      if Find(before, shown[|shown|-1].id).Some? then before else before + [shown[|shown|-1]]
  }

  function LastTwo(history: seq<Shown>): (r: seq<Shown>)
    ensures |r| <= 2
  {
    if |history| <= 2 then history else history[|history|-2..]
  }

  function Displayed(history: seq<Shown>, retained: seq<Shown>): seq<Shown> {
    Dedup(LastTwo(history) + retained)
  }

  predicate SelectionOk(ids: seq<GrantId>) {
    |ids| <= 2 && NoDuplicates(ids)
  }

  /** The retained grants of a selection, or None when it was not displayed or currently read. */
  function Retained(ids: seq<GrantId>, current: Shown, displayed: seq<Shown>): (r: Option<seq<Shown>>)
    ensures r.Some? ==> |r.value| == |ids|
  {
    if !SelectionOk(ids) || exists i :: 0 <= i < |ids| && Find(displayed + [current], ids[i]).None? then None
    else Some(seq(|ids|, i requires 0 <= i < |ids| => Find(displayed + [current], ids[i]).value))
  }

  /** What the completed prefix of records rebuilds. */
  datatype Context = Context(history: seq<Shown>, retained: seq<Shown>)

  /** One record of the prefix: None when a "persisted ... differs" check fails. */
  function ReplayOne(job: Job, c: Context, r: Record, limit: nat): Option<Context> {
    if r.grant.None? then Some(c)
    else if !(0 <= r.window < limit <= |job.doc|) || r.grant.value != job.Grant(r.window) then None
    else
      var displayed := Displayed(c.history, c.retained);
      if r.rolling != Some(displayed) then None
      else if r.chosen.None? then Some(Context(c.history + [r.grant.value], c.retained))
      else
        var retained := Retained(r.chosen.value, r.grant.value, displayed);
        if retained.None? || r.retained != retained then None
        else Some(Context(c.history + [r.grant.value], retained.value))
  }

  function Replay(job: Job, rs: seq<Record>, limit: nat): Option<Context> {
    if rs == [] then Some(Context([], []))
    else
      match Replay(job, rs[..|rs|-1], limit)
      case None => None
      case Some(c) => ReplayOne(job, c, rs[|rs|-1], limit)
  }

  /** bounded_context: at most four grants within the byte bound. */
  predicate Bounded(job: Job, shown: seq<Shown>) {
    |shown| <= 4 && job.fits(shown)
  }

  // ---- Revisits -----------------------------------------------------------

  predicate Revisitable(p: Progress, n: int) {
    && 0 <= n < p.cursor && n < |p.records|
    && p.records[n].grant.Some? && p.records[n].status != ReadPending
  }

  /** _revisit_grant: an earlier, truly read window, rebuilt from the document. */
  function Revisit(job: Job, p: Progress, n: int): Option<Shown> {
    if !Revisitable(p, n) || n >= |job.doc| || p.records[n].grant.value != job.Grant(n) then None
    else Some(job.Grant(n))
  }

  function RevisitAll(job: Job, p: Progress, ids: seq<int>): (r: Option<seq<Shown>>)
    ensures r.Some? ==> |r.value| == |ids|
  {
    if exists i :: 0 <= i < |ids| && Revisit(job, p, ids[i]).None? then None
    else Some(seq(|ids|, i requires 0 <= i < |ids| => Revisit(job, p, ids[i]).value))
  }

  function GrantMap(shown: seq<Shown>): Grants {
    if shown == [] then map[]
    else GrantMap(shown[..|shown|-1])[shown[|shown|-1].id := shown[|shown|-1].grant]
  }

  function CountOpen(l: Ledger, n: nat): nat
    requires n <= |l.order|
  {
    if n == 0 then 0
    else CountOpen(l, n - 1) + if l.order[n-1] in l.notes && l.notes[l.order[n-1]].status == NeedsCheck then 1 else 0
  }
}
