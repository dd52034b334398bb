/** A concrete run that leaves a review which can never be resumed (app/document_read/notes.py):
    two windows are read, the first gives a note, the review of that note displays the second
    window again, and the worker stops. */
module WedgeExample {
  import opened Wrappers
  import opened Text
  import opened Evidence
  import opened NoteLedger
  import opened Notebook
  import opened ReadingLoop
  import opened ReviewLoop
  import opened NotebookSafety
  import opened NotebookTheorems

  const FIRST := Grant("company", "file", "print", "name", "loc", map[1 := "a"])
  const SECOND := Grant("company", "file", "print", "name", "loc", map[2 := "b"])

  const JOB := Job(Host("company", "file", "print", (id: string) => true),
                   [Notebook.Window(false, FIRST), Notebook.Window(false, SECOND)],
                   (shown: seq<Shown>) => true, (w: WindowId) => "key", (id: NoteId, round: int) => "key")

  const HELD := Fence(true, true)
  const FACT := Fact("e", "a", "", "a", "", "text")
  const CANDIDATE := Candidate(0, FACT, "a", "loc", 1, 1, [])
  const CREATE := NoteLedger.Create("n", Some(0), false, Omitted, None, [], [])

  const NOTED_RECEIPT := Receipt(Noted, [CREATE], [], [CANDIDATE], [], HELD)
  const EMPTY_RECEIPT := Receipt(NoContent, [], [], [], [], HELD)

  // ---- The note of the first window ---------------------------------------

  const PAYLOAD := Payload("n", Verified, FACT, Primary(0, "file", "print", "name", "loc", 1, 1, "a"), [], [], [], None)
  const FIRST_STORED := StoredWindow("key", WindowReceipt(0, Noted, ["n"], []))
  const SECOND_STORED := StoredWindow("key", WindowReceipt(1, NoContent, [], []))
  const ONE_NOTE := Ledger(["n"], map["n" := Note(0, Verified, 1, PAYLOAD)], map["n" := [AuditRow(1, Created(PAYLOAD))]],
                           map[0 := FIRST_STORED], map[])
  const BOTH_READ := ONE_NOTE.(windows := map[0 := FIRST_STORED, 1 := SECOND_STORED])

  lemma QuoteAccepted()
    ensures PrimaryAccepted(PrimaryOf(CANDIDATE, FIRST), FIRST)
    ensures PrimaryOf(CANDIDATE, FIRST) == PAYLOAD.primary
  {
    assert Joined(FIRST.lines, 1, 1) == "a";
    assert "a"[..0] == "";
    assert Squeeze("a") == "a";
    assert OccursAt("a", "a", 0);
    assert !IsSpace("a"[0]);
  }

  lemma EvidenceAccepted(grants: Grants)
    requires 0 in grants && grants[0] == FIRST
    ensures ReverifiedProofs(JOB.host, CANDIDATE, grants) == Some([])
  {
    assert AsWitnesses(CANDIDATE.proofs) == [];
  }

  lemma NoteAdmitted(available: set<NoteId>)
    ensures InsertOne(JOB.host, EMPTY, 0, Noted, PAYLOAD, [], available) == Ok(ONE_NOTE.(windows := map[]))
  {
    var none: seq<RawRelation> := [];
    assert KeptAll(none) == [];
    assert ValidateRelations(JOB.host, none, available - {"n"}) == Ok([]);
    assert PAYLOAD.(status := Verified, relations := []) == PAYLOAD;
    assert Audit(EMPTY, "n") + [AuditRow(1, Created(PAYLOAD))] == [AuditRow(1, Created(PAYLOAD))];
    assert EMPTY.order + ["n"] == ["n"];
    assert Admit(EMPTY, 0, PAYLOAD) == Ok(ONE_NOTE.(windows := map[]));
  }

  lemma NoteInserted(available: set<NoteId>)
    ensures InsertAll(JOB.host, EMPTY, 0, Noted, [PAYLOAD], [CREATE], available) == Ok(ONE_NOTE.(windows := map[]))
  {
    hide InsertOne;
    NoteAdmitted(available);
    assert [PAYLOAD][..0] == [] && [CREATE][..0] == [];
    assert InsertAll(JOB.host, EMPTY, 0, Noted, [], [], available) == Ok(EMPTY);
  }

  lemma NoteStaged(grants: Grants)
    requires 0 in grants && grants[0] == FIRST
    ensures Stage(JOB.host, EMPTY.notes, [CREATE], [CANDIDATE], grants) == Ok([PAYLOAD])
  {
    hide PrimaryAccepted, ReverifiedProofs, QuestionsOk;
    QuoteAccepted();
    EvidenceAccepted(grants);
    assert QuestionsOk([]) by { NoQuestions(); }
    assert BuildPayload(JOB.host, EMPTY.notes, CREATE, [CANDIDATE], grants) == Ok(PAYLOAD);
    hide BuildPayload;
    var cs := [CREATE];
    assert cs[..|cs|-1] == [] && cs[|cs|-1] == CREATE;
    assert Stage(JOB.host, EMPTY.notes, cs[..|cs|-1], [CANDIDATE], grants) == Ok([]);
    var none: seq<Payload> := [];
    assert none + [PAYLOAD] == [PAYLOAD];
    assert Stage(JOB.host, EMPTY.notes, cs, [CANDIDATE], grants) == Ok(none + [PAYLOAD]);
  }

  lemma NoQuestions()
    ensures QuestionsOk([])
  {
  }

  lemma NoteStored(grants: Grants)
    requires 0 in grants && grants[0] == FIRST && InScope(JOB.host, grants)
    ensures WindowSpec(JOB.host, EMPTY, WindowRequest(0, Some(Noted), Some([CREATE]), Some([]), grants, [CANDIDATE], "key"), HELD)
         == Ok((ONE_NOTE, FIRST_STORED.receipt))
  {
    hide Stage, InsertAll, InScope;
    NoteStaged(grants);
    NoteInserted(Available(EMPTY, ["n"]));
    assert Ids([PAYLOAD]) == ["n"];
    var none: seq<Revision> := [];
    assert RevisedIds(none) == [];
    assert map[][0 := FIRST_STORED] == ONE_NOTE.windows;
  }

  lemma NothingStored(grants: Grants)
    requires InScope(JOB.host, grants)
    ensures WindowSpec(JOB.host, ONE_NOTE, WindowRequest(1, Some(NoContent), Some([]), Some([]), grants, [], "key"), HELD)
         == Ok((BOTH_READ, SECOND_STORED.receipt))
  {
    hide InScope;
    var none: seq<Payload> := [];
    assert Ids(none) == [];
    var unrevised: seq<Revision> := [];
    assert RevisedIds(unrevised) == [];
  }

  // ---- The run ------------------------------------------------------------

  const SHOWN_FIRST := Shown(0, FIRST)
  const SHOWN_SECOND := Shown(1, SECOND)

  function OpenRecord(w: int, grant: Shown, rolling: seq<Shown>): Record {
    FreshRecord(w).(rolling := Some(rolling), grant := Some(grant))
  }

  function ClosedRecord(r: Record, status: RecordStatus, receipt: WindowReceipt): Record {
    r.(status := status, receipt := Some(receipt), chosen := Some([]), retained := Some([]))
  }

  const R0 := OpenRecord(0, SHOWN_FIRST, [])
  const R1 := OpenRecord(1, SHOWN_SECOND, [SHOWN_FIRST])
  const C0 := ClosedRecord(R0, AsNoted, FIRST_STORED.receipt)
  const C1 := ClosedRecord(R1, AsNoContent, SECOND_STORED.receipt)

  const READ_FIRST := Progress(0, [R0], false, None, None, false)
  const CLOSED_FIRST := Progress(0, [C0], false, None, None, false)
  const PAST_FIRST := Progress(1, [C0], false, None, None, false)
  const READ_SECOND := Progress(1, [C0, R1], false, None, None, false)
  const CLOSED_SECOND := Progress(1, [C0, C1], false, None, None, false)
  const PAST_SECOND := Progress(2, [C0, C1], false, None, None, false)
  const READING_DONE := Progress(2, [C0, C1], true, Some(0), None, false)
  const REVIEW_OPEN := READING_DONE.(review := Some(Review(["n"], map[], 0, false)))

  lemma NoContext(p: Progress)
    requires p.cursor == 0
    ensures HeadContext(JOB, p) == Some([]) && RevisitAll(JOB, p, []) == Some([])
  {
    var none: seq<Record> := [];
    assert p.records[..0] == none;
    assert Replay(JOB, none, 0) == Some(Context([], []));
    assert Displayed([], []) == [];
    NoRevisits(p);
  }

  lemma NoRevisits(p: Progress)
    ensures RevisitAll(JOB, p, []) == Some([])
  {
  }

  lemma FirstAsContext(p: Progress)
    requires p.cursor == 1 && |p.records| >= 1 && p.records[0] == C0
    ensures HeadContext(JOB, p) == Some([SHOWN_FIRST]) && RevisitAll(JOB, p, []) == Some([])
  {
    var prefix := p.records[..1];
    assert prefix == [C0] && prefix[..0] == [] && |prefix| - 1 == 0;
    var none: seq<Shown> := [];
    assert Displayed(none, none) == none && none + [SHOWN_FIRST] == [SHOWN_FIRST];
    assert JOB.Grant(0) == SHOWN_FIRST && C0.grant == Some(SHOWN_FIRST) && C0.rolling == Some(none);
    SingleShown(SHOWN_FIRST);
    assert ReplayOne(JOB, Context(none, none), C0, 1) == Some(Context([SHOWN_FIRST], []));
    assert Replay(JOB, prefix, 1) == Some(Context([SHOWN_FIRST], []));
    var shown: seq<Shown> := [SHOWN_FIRST];
    assert LastTwo(shown) + none == shown;
    NoRevisits(p);
  }

  lemma SingleShown(g: Shown)
    ensures Dedup([g]) == [g] && GrantMap([g]) == map[g.id := g.grant] && Retained([], g, []) == Some([])
  {
    var shown := [g];
    assert shown[..0] == [];
    assert Dedup([]) == [] && GrantMap([]) == map[];
  }

  lemma ReadFirst()
    ensures Next(JOB, State(None, EMPTY, Top), Read(Advance)) == State(Some(READ_FIRST), EMPTY, Reading)
  {
    hide HeadContext, RevisitAll;
    NoContext(FRESH);
    assert WithHead(FRESH) == [FreshRecord(0)];
    assert SetHead(FRESH, R0) == READ_FIRST;
  }

  lemma SubmitFirst()
    ensures Next(JOB, State(Some(READ_FIRST), EMPTY, Reading), Read(NOTED_RECEIPT))
         == State(Some(READ_FIRST), ONE_NOTE, Applied(Ok(FIRST_STORED.receipt), Noted, [], []))
  {
    hide HeadContext, RevisitAll, WindowSpec, Retained, Dedup, GrantMap;
    NoContext(READ_FIRST);
    SingleShown(SHOWN_FIRST);
    NoneShown();
    NoteStored(map[0 := FIRST]);
  }

  lemma NoneShown()
    ensures Dedup([] + []) == [] && forall g :: [g] + Dedup([] + []) == [g]
  {
    var none: seq<Shown> := [];
    assert none + none == none;
  }

  lemma CloseFirst()
    ensures Next(JOB, State(Some(READ_FIRST), ONE_NOTE, Applied(Ok(FIRST_STORED.receipt), Noted, [], [])), Read(Advance))
         == State(Some(CLOSED_FIRST), ONE_NOTE, Recorded)
    ensures Next(JOB, State(Some(CLOSED_FIRST), ONE_NOTE, Recorded), Read(Advance))
         == State(Some(PAST_FIRST), ONE_NOTE, Top)
  {
    hide HeadContext, RevisitAll;
    assert SetHead(READ_FIRST, C0) == CLOSED_FIRST;
  }

  lemma ReadSecond()
    ensures Next(JOB, State(Some(PAST_FIRST), ONE_NOTE, Top), Read(Advance)) == State(Some(READ_SECOND), ONE_NOTE, Reading)
  {
    hide HeadContext, RevisitAll;
    FirstAsContext(PAST_FIRST);
    assert WithHead(PAST_FIRST) == [C0, FreshRecord(1)];
    assert SetHead(PAST_FIRST, R1) == READ_SECOND;
  }

  lemma SubmitSecond()
    ensures Next(JOB, State(Some(READ_SECOND), ONE_NOTE, Reading), Read(EMPTY_RECEIPT))
         == State(Some(READ_SECOND), BOTH_READ, Applied(Ok(SECOND_STORED.receipt), NoContent, [], []))
  {
    hide HeadContext, RevisitAll, WindowSpec, Retained, Dedup, GrantMap;
    FirstAsContext(READ_SECOND);
    NothingRetained(SHOWN_SECOND, [SHOWN_FIRST]);
    var shown := [SHOWN_FIRST];
    SingleShown(SHOWN_FIRST);
    var none: seq<Shown> := [];
    assert shown + none == shown;
    BothScoped();
    NothingStored(GrantMap([SHOWN_SECOND] + shown));
  }

  lemma NothingRetained(current: Shown, displayed: seq<Shown>)
    ensures Retained([], current, displayed) == Some([])
  {
  }

  lemma BothScoped()
    ensures InScope(JOB.host, GrantMap([SHOWN_SECOND] + [SHOWN_FIRST]))
  {
    var shown := [SHOWN_SECOND] + [SHOWN_FIRST];
    assert shown[..|shown|-1] == [SHOWN_SECOND];
    SingleShown(SHOWN_SECOND);
  }

  lemma CloseSecond()
    ensures Next(JOB, State(Some(READ_SECOND), BOTH_READ, Applied(Ok(SECOND_STORED.receipt), NoContent, [], [])), Read(Advance))
         == State(Some(CLOSED_SECOND), BOTH_READ, Recorded)
    ensures Next(JOB, State(Some(CLOSED_SECOND), BOTH_READ, Recorded), Read(Advance))
         == State(Some(PAST_SECOND), BOTH_READ, Top)
  {
    hide HeadContext, RevisitAll;
    assert SetHead(READ_SECOND, C1) == CLOSED_SECOND;
  }

  lemma FinishReading()
    ensures Next(JOB, State(Some(PAST_SECOND), BOTH_READ, Top), Read(Advance))
         == State(Some(READING_DONE), BOTH_READ, ReviewStart)
  {
    hide HeadContext, RevisitAll;
    assert CountOpen(BOTH_READ, 1) == 0;
  }

  lemma BeginReview()
    ensures Next(JOB, State(Some(READING_DONE), BOTH_READ, ReviewStart), Judge(Proceed))
         == State(Some(REVIEW_OPEN), BOTH_READ, ReviewTop)
  {
    assert OpenOrder(BOTH_READ, 0) == [];
    assert OpenOrder(BOTH_READ, 1) == ["n"];
  }

  lemma EnterReview()
    ensures Next(JOB, State(Some(REVIEW_OPEN), BOTH_READ, ReviewTop), Judge(Proceed))
         == State(Some(REVIEW_OPEN), BOTH_READ, Reviewing(1, []))
  {
    assert Revisit(JOB, REVIEW_OPEN, 0) == Some(SHOWN_FIRST);
  }

  const REVISITED := FRESH_ITEM.(revisits := [Text(1)], views := [SHOWN_SECOND], round := Some(1))
  const REVIEW_REVISITED := READING_DONE.(review := Some(Review(["n"], map["n" := REVISITED], 0, false)))

  lemma AskForSecond()
    ensures Next(JOB, State(Some(REVIEW_OPEN), BOTH_READ, Reviewing(1, [])), Judge(ReviewTool([1])))
         == State(Some(REVIEW_REVISITED), BOTH_READ, Reviewing(1, [SHOWN_SECOND]))
  {
    hide Dedup, RevisitAll, Revisit, UnseenRefs, TextRefs;
    Unseen();
    Displayable();
    TwoShown();
    var none: seq<Shown> := [];
    assert none + [SHOWN_SECOND] == [SHOWN_SECOND];
  }

  lemma Unseen()
    ensures UnseenRefs([], 0, [1]) == [1] && TextRefs([SHOWN_SECOND]) == [Text(1)]
  {
    var asked: seq<int> := [1];
    assert asked[..|asked|-1] == [];
    assert UnseenRefs([], 0, asked[..|asked|-1]) == [];
  }

  lemma Displayable()
    ensures Revisit(JOB, REVIEW_OPEN, 0) == Some(SHOWN_FIRST)
    ensures RevisitAll(JOB, REVIEW_OPEN, [1]) == Some([SHOWN_SECOND])
  {
    var asked: seq<int> := [1];
    assert Revisit(JOB, REVIEW_OPEN, asked[0]) == Some(SHOWN_SECOND);
    hide Revisit;
    var shown := RevisitAll(JOB, REVIEW_OPEN, asked);
    assert shown.Some? && shown.value[0] == SHOWN_SECOND;
    assert shown.value == [SHOWN_SECOND];
  }

  lemma TwoShown()
    ensures |Dedup([SHOWN_FIRST] + [] + [SHOWN_SECOND])| <= 4
  {
  }

  /** The acts of the run; the last one is the crash. */
  const ACTS: seq<Act> := [
    Read(Start), Read(Advance), Read(NOTED_RECEIPT), Read(Advance), Read(Advance),
    Read(Advance), Read(EMPTY_RECEIPT), Read(Advance), Read(Advance), Read(Advance),
    Judge(Proceed), Judge(Proceed), Judge(ReviewTool([1])), Read(Crash)]

  lemma RunOne(n: nat)
    requires n < |ACTS|
    ensures RunAll(JOB, BLANK, ACTS[..n+1]) == Next(JOB, RunAll(JOB, BLANK, ACTS[..n]), ACTS[n])
  {
    assert ACTS[..n+1][..n] == ACTS[..n];
  }

  lemma FirstWindowRead()
    ensures RunAll(JOB, BLANK, ACTS[..5]) == State(Some(PAST_FIRST), ONE_NOTE, Top)
  {
    hide Next;
    RunOne(0); RunOne(1); RunOne(2); RunOne(3); RunOne(4);
    StartRun();
    ReadFirst();
    SubmitFirst();
    CloseFirst();
  }

  lemma StartRun()
    ensures RunAll(JOB, BLANK, ACTS[..0]) == BLANK && Next(JOB, BLANK, Read(Start)) == State(None, EMPTY, Top)
  {
  }

  lemma SecondWindowRead()
    ensures RunAll(JOB, BLANK, ACTS[..10]) == State(Some(READING_DONE), BOTH_READ, ReviewStart)
  {
    hide Next;
    FirstWindowRead();
    RunOne(5); RunOne(6); RunOne(7); RunOne(8); RunOne(9);
    ReadSecond();
    SubmitSecond();
    CloseSecond();
    FinishReading();
  }

  /** The run ends in a state that no continuation can publish from. */
  lemma WedgeReached()
    ensures JOB.Valid() && Wedged(Reached(JOB, ACTS))
    ensures forall more :: !PublishAllowed(Load(RunAll(JOB, Reached(JOB, ACTS), more)))
  {
    hide Next, NotebookInv;
    SecondWindowRead();
    RunOne(10); RunOne(11); RunOne(12); RunOne(13);
    BeginReview();
    EnterReview();
    AskForSecond();
    CrashWedges();
    assert ACTS[..14] == ACTS;
    ReachedInv(JOB, ACTS);
    forall more ensures !PublishAllowed(Load(RunAll(JOB, Reached(JOB, ACTS), more))) {
      WedgedForever(JOB, Reached(JOB, ACTS), more);
    }
  }

  lemma CrashWedges()
    ensures Next(JOB, State(Some(REVIEW_REVISITED), BOTH_READ, Reviewing(1, [SHOWN_SECOND])), Read(Crash))
         == State(Some(REVIEW_REVISITED), BOTH_READ, Idle)
    ensures Wedged(State(Some(REVIEW_REVISITED), BOTH_READ, Idle))
  {
  }
}
