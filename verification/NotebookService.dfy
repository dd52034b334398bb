/** The reading service object (app/document_read/notes.py, MappedNotesService.run): it changes its
    progress dictionary in memory, saves it, and drives the note store. */
module NotebookService {
  import opened Wrappers
  import opened NoteLedger
  import opened NoteStores
  import opened Notebook
  import opened ReadingLoop
  import opened ReadingResume

  class MappedNotesService {
    const job: Job
    const notes: NoteStore
    var progress: Progress
    var disk: Option<Progress>
    var phase: Phase

    /** A service starts from the saved checkpoint, or from a fresh one. */
    constructor (job: Job, notes: NoteStore, disk: Option<Progress>)
      requires notes.host == job.host
      ensures this.job == job && this.notes == notes && this.disk == disk
      ensures Valid() && View() == State(disk, notes.ledger, Top)
    {
      this.job, this.notes, this.disk := job, notes, disk;
      progress := if disk.None? then FRESH else disk.value;
      phase := Top;
    }

    ghost function View(): State
      reads this, notes
    {
      State(disk, notes.ledger, phase)
    }

    /** While the service runs, its dictionary is what was loaded or last saved. */
    ghost predicate Valid()
      reads this, notes
    {
      notes.host == job.host && (phase != Idle ==> progress == Load(View()))
    }

    method SaveProgress()
      modifies this
      ensures disk == Some(progress) && progress == old(progress) && phase == old(phase)
    {
      disk := Some(progress);
    }

    /** The loop over the completed prefix: rebuild the history and the retained context, comparing
        every persisted grant and context on the way. */
    method RebuildContext() returns (contexts: Option<seq<Shown>>)
      requires progress.cursor <= |progress.records|
      ensures contexts == HeadContext(job, progress)
    {
      hide Displayed, Retained;
      var history: seq<Shown> := [];
      var retained: seq<Shown> := [];
      var n := progress.cursor;
      var records := progress.records[..n];
      var i := 0;
      while i < n
        invariant 0 <= i <= n == |records|
        invariant Replay(job, records[..i], n) == Some(Context(history, retained))
      {
        assert records[..i+1][..i] == records[..i];
        var previous := records[i];
        if previous.grant.Some? {
          if !(0 <= previous.window < n <= |job.doc|) || previous.grant.value != job.Grant(previous.window) {
            ReplayFails(job, records, i + 1, n);
            return None;
          }
          var displayed := Displayed(history, retained);
          if previous.rolling != Some(displayed) {
            ReplayFails(job, records, i + 1, n);
            return None;
          }
          if previous.chosen.Some? {
            var again := Retained(previous.chosen.value, previous.grant.value, displayed);
            if again.None? || previous.retained != again {
              ReplayFails(job, records, i + 1, n);
              return None;
            }
            retained := again.value;
          }
          history := history + [previous.grant.value];
        }
        i := i + 1;
      }
      assert records[..n] == records;
      return Some(Displayed(history, retained));
    }

    method SetRecord(r: Record)
      requires progress.cursor <= |progress.records|
      modifies this`progress
      ensures progress == SetHead(old(progress), r)
    {
      progress := SetHead(progress, r);
    }

    /** From the loop head to the next save, or to an exception. */
    method EnterWindow()
      requires Valid() && phase == Top
      requires progress.cursor <= |progress.records| && progress.cursor < |job.doc|
      modifies this
      ensures Valid() && View() == Enter(job, old(View()))
    {
      hide HeadContext, RevisitAll, Bounded;
      if |progress.records| <= progress.cursor {
        progress := progress.(records := progress.records + [FreshRecord(progress.cursor)]);
      }
      var r := progress.records[progress.cursor];
      if job.doc[progress.cursor].unavailable {
        SetRecord(r.(status := AsUnresolved));
        progress := progress.(cursor := progress.cursor + 1);
        SaveProgress();
        return;
      }
      var contexts := RebuildContext();
      SamePrefix(job, Load(old(View())), progress);
      if contexts.None? || !Bounded(job, contexts.value) {
        phase := Idle;
        return;
      }
      r := r.(rolling := contexts);
      if r.status == ReadPending {
        if r.toolBlocked || r.extractBlocked {
          phase := Idle;
          return;
        }
        var shown := RevisitAll(job, progress, r.revisits);
        if shown.None? || (r.views.Some? && r.views.value != shown.value) {
          phase := Idle;
          return;
        }
        SetRecord(r.(grant := Some(job.Grant(progress.cursor))));
        phase := Reading;
      } else {
        SetRecord(r);
        progress := progress.(cursor := progress.cursor + 1);
      }
      SaveProgress();
    }

    /** One call of the context tool inside a reading turn. */
    method RequestEarlier(ids: seq<int>)
      requires Valid() && phase == Reading && progress.cursor < |progress.records|
      modifies this
      ensures Valid() && View() == RequestContext(job, old(View()), ids)
    {
      var r := progress.records[progress.cursor];
      if !(1 <= |ids| <= 2) || !NoDuplicates(ids) {
        return;
      }
      var unseen := Unseen(r.revisits, ids);
      if unseen == [] {
        SetRecord(r.(stalls := r.stalls + 1));
        SaveProgress();
        if r.stalls + 1 >= 2 {
          phase := Blocking;
        }
        return;
      }
      if |r.revisits| + |unseen| > 2 {
        return;
      }
      var contexts := RebuildContext();
      var shown := RevisitAll(job, progress, r.revisits);
      var granted := RevisitAll(job, progress, unseen);
      if contexts.None? || shown.None? || granted.None? {
        return;
      }
      var combined := Dedup(contexts.value + shown.value + granted.value);
      if |combined| > 6 || !job.fits(combined) {
        return;
      }
      SetRecord(r.(revisits := r.revisits + unseen, views := Some(shown.value + granted.value), stalls := 0));
      SaveProgress();
    }

    method RejectFormat()
      requires Valid() && phase == Reading && progress.cursor < |progress.records|
      modifies this
      ensures Valid() && View() == Malformed(old(View()))
    {
      var r := progress.records[progress.cursor];
      if r.formatAttempts >= 2 {
        SetRecord(r.(formatBlocked := true));
        phase := Idle;
      } else {
        SetRecord(r.(formatAttempts := r.formatAttempts + 1));
      }
      SaveProgress();
    }

    /** A receipt is checked, then the note store commits it in its own transaction. */
    method SubmitReceipt(e: Event)
      requires Valid() && phase == Reading && e.Receipt?
      requires progress.cursor < |progress.records| && progress.cursor < |job.doc|
      modifies this, notes
      ensures Valid() && View() == Submit(job, old(View()), e)
    {
      var r := progress.records[progress.cursor];
      if r.formatAttempts >= 2 || !ReceiptShapeOk(e) {
        RejectFormat();
        return;
      }
      var contexts := RebuildContext();
      var shown := RevisitAll(job, progress, r.revisits);
      if contexts.None? || shown.None? {
        phase := Idle;
        return;
      }
      var retained := Retained(e.chosen, job.Grant(progress.cursor), contexts.value);
      if retained.None? || !Bounded(job, retained.value) {
        phase := Idle;
        return;
      }
      var grants := GrantMap([job.Grant(progress.cursor)] + Dedup(contexts.value + shown.value));
      var receipt := notes.ApplyWindow(RequestOf(job, progress, e, grants), e.fence);
      match receipt
      case Ok(stored) => phase := Applied(Ok(stored), e.outcome, e.chosen, retained.value);
      case Err(refusal) =>
        phase := if refusal == NoteRejected then Applied(Err(refusal), e.outcome, e.chosen, retained.value) else Idle;
    }

    /** The first save after the note store answered. */
    method RecordAnswer()
      requires Valid() && phase.Applied? && progress.cursor < |progress.records|
      modifies this
      ensures Valid() && View() == Commit(old(View()))
    {
      var r := progress.records[progress.cursor].(chosen := Some(phase.chosen), retained := Some(phase.retained));
      if phase.result.Ok? {
        SetRecord(r.(receipt := Some(phase.result.value), status := StatusFor(phase.outcome)));
        phase := Recorded;
      } else {
        SetRecord(r.(technical := true, status := AsUnresolved));
        progress := progress.(cursor := progress.cursor + 1);
        phase := Top;
      }
      SaveProgress();
    }

    /** The cursor moves in a save of its own. */
    method MoveCursor()
      requires Valid() && phase == Recorded
      modifies this
      ensures Valid() && View() == MoveOn(old(View()))
    {
      progress := progress.(cursor := progress.cursor + 1);
      phase := Top;
      SaveProgress();
    }
  }

  /** A check that fails at a record fails the replay of every longer prefix. */
  lemma {:induction false} ReplayFails(job: Job, rs: seq<Record>, n: nat, limit: nat)
    requires n <= |rs| && Replay(job, rs[..n], limit).None?
    ensures Replay(job, rs, limit).None?
    decreases |rs|
  {
    if n < |rs| {
      assert rs[..|rs|-1][..n] == rs[..n];
      ReplayFails(job, rs[..|rs|-1], n, limit);
    } else {
      assert rs[..n] == rs;
    }
  }

  /** Records from the cursor on do not matter to the context and the revisits. */
  lemma SamePrefix(job: Job, p: Progress, q: Progress)
    requires p.cursor == q.cursor <= |p.records| <= |q.records| && q.records[..p.cursor] == p.records[..p.cursor]
    ensures HeadContext(job, q) == HeadContext(job, p)
    ensures forall ids :: RevisitAll(job, q, ids) == RevisitAll(job, p, ids)
  {
    HeadContextFrame(job, p, q);
  }
}
