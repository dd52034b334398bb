# Verified model of the FactsTree ledgers, the V4 notebook, the job lease, the parse queue and batched attribution

This project models the parts of the repository whose correctness rests on
append-only ledgers, readers that re-verify everything they read, and drivers
that survive crashes and competing workers. It is checked with
`dafny verify dfyconfig.toml`.

## What is modelled

**FactsTree ledgers.** `LedgerTables.dfy` holds the tables that three stores
share in one database and the joint invariant they keep. `CompanyBinding.dfy`,
`FactIdentity.dfy` and `FactPlacements.dfy` give each operation twice: as a
function on the tables (what it does, with every fault in the order in which it
is raised) and as a method of the store object, which changes the tables of a
`Connection` step by step under `BEGIN` or a savepoint and is proved equal to
that function. `LedgerRuns.dfy` runs the stores together with other writers of
the facts table and with changing template packs. `LedgerTransactions.dfy`
compares joined writes with store-owned ones. `PlacementOutcomes.dfy` says exactly
which writes commit and what they leave behind, and that writer and reader fail
closed on tables that no store wrote.

**The V4 notebook.** `Evidence.dfy` is the literal evidence guard.
`NoteLedger.dfy`, `NoteRules.dfy` and `NoteStore.dfy` are the event-sourced note
store: the rules of one window receipt and of one review decision, what they keep,
and the store object. `NoteOutcomes.dfy` states the same two calls on the
submitted fields: exactly which are accepted, and the exact rows they commit.
`Notebook.dfy`, `ReadingLoop.dfy` and `ReviewLoop.dfy` are the resumable drivers
over two stores that commit separately (the checkpoint and the note ledger); one
step runs from one durable commit to the next, and a crash may fall between any
two. `ReadingResume.dfy`, `NotebookSafety.dfy` and `NotebookTheorems.dfy` prove
what every run keeps; `ReadingTurns.dfy`, `ReviewTurns.dfy` and
`ExplicitRetries.dfy` say what each step does in every state a run can reach: what
is displayed, what the ledger decides on, which answers are accepted, and what is
saved. `NotebookService.dfy` is the service object whose methods are proved equal
to the reading steps; `WedgeExample.dfy` runs a small concrete job.
`QuoteLocator.dfy` and `WindowExtract.dfy` are the extract loop of one window. The
employee (the model) is an arbitrary adversary: every answer is an unconstrained
input.

**Leases and charged calls.** `JobLease.dfy` is the lease object and the charged
model channel; `ChargedCalls.dfy` interleaves any number of workers under an
arbitrary clock, and `LeaseTenure.dfy` shows that a holder keeps its lease while
the clock does not go back.

**The parse queue.** `ParseJobs.dfy` holds the manager's lock regions as methods
over its fields; `ParseInterleavings.dfy` interleaves threads, timers and
callbacks at the granularity of one lock region or one row access, and
`ParseOutcomes.dfy` says how jobs end.

**Batched attribution.** `AttributionBatches.dfy` is the batching loop, the
validation of one batch answer and the stored artifact.

## Where the code differs from its documentation

The model follows the code.

- The review's context tool keeps displayed windows as text and looks requested
  windows up as numbers (`app/document_read/notes.py:1173-1174` and 1201). A
  repeated request for a displayed window is therefore granted again instead of
  counting as a stall: `NotebookTheorems.StallsExactly` gives the exact
  condition and `RepeatNotStalled` a concrete request. For the same reason
  saved revisits cannot be looked up again (lines 1073 and 1156): a review that
  stops after a grant and before a receipt can never be resumed, and its job can
  never be published (`StopWedges`, `WedgedForever`); `WedgeExample.WedgeReached`
  is such a run of a two-window job.
- The reading loop handles `NoteRejected` around `bounded_context`
  (`app/document_read/notes.py:876-881`), but that function raises the base class
  `LeafRejected`, so an oversized rolling context stops the run instead of
  closing the window. `ReadingLoop.Enter` stops there.
- An extract answer that claims completion with nothing but rejected facts resets
  the no-progress streak (`app/document_read/service.py:1062`), so that case is
  bounded by the call budget alone: `WindowExtract.EmptyClaimsGoOn`.
- `register_initial` accepts a closed facts row; an identity opened on one can
  never be resolved. `FactPlacements.ReaderAccepts` gives the exact condition.

## Model

| member | source | states |
|---|---|---|
| CompanyBinding.GetFailsOnlyOnTemplate | app/facts_tree/company_binding.py:253-262 | on every reachable binding the reader returns it exactly when the template loadable today is the document archived for the bound version, and otherwise names the fault of that template; history and archive never stand in its way |
| CompanyBinding.GetFailsClosed | app/facts_tree/company_binding.py:191-262 | on any tables, sound or corrupt, the reader returns a binding exactly when its history is complete, linked and ends in it, and its template loads and is archived unchanged under its own hash |
| CompanyBinding.VerifiedExactly | app/facts_tree/company_binding.py:191-205 | the check of a bound identity passes exactly when the pack loadable today has the bound version and is the archived document |
| CompanyBinding.HistoryExactly | app/facts_tree/company_binding.py:213-243 | the history rules accept exactly the gap-free, linked histories that begin without a predecessor and end in the bound identity and revision |
| CompanyBinding.ArchivingOutcome | app/facts_tree/manifest_registry.py:40-75 | archiving succeeds exactly for a version without an archive, which it adds, and for one archived with this very document, which stays as it is |
| CompanyBinding.RegisterOutcome | app/facts_tree/company_binding.py:279-303 | a registration succeeds exactly for an unbound company, a nonblank name and a loadable generic pack under whose version nothing else is archived, and then binds revision 1 and archives the template |
| CompanyBinding.SecondCompanyRegisters | app/facts_tree/company_binding.py:279-303 | any other unbound company can register the template that one company registered |
| CompanyBinding.RegisterCommits | app/facts_tree/company_binding.py:170-303 | on an idle connection a registration commits exactly when the store is writable and covers the company and the registration is allowed; otherwise every table stays as it was |
| CompanyBinding.BindSameTarget | app/facts_tree/company_binding.py:305-348 | binding the version already bound changes nothing, and fails exactly for a template that is no longer the archived one or a locked or nonempty company |
| CompanyBinding.RebindOutcome | app/facts_tree/company_binding.py:305-348 | a rebind to another version succeeds exactly for an unlocked, empty company and a version under which nothing else is archived, even when the old template is gone; it keeps the name, stays unlocked and appends one linked revision |
| CompanyBinding.BindPackOutcome | app/facts_tree/company_binding.py:305-348 | a bind succeeds exactly for a registered, unlocked and empty company, a loadable generic pack, and a version that is still current where it is the bound one and has no other archive where it is not; the tables afterwards are written out |
| CompanyBinding.BindPackCommits | app/facts_tree/company_binding.py:305-348 | the same for a bind: exactly which companies and packs commit, and the tables afterwards |
| CompanyBinding.MarkLockedOutcome | app/facts_tree/company_binding.py:350-359 | locking succeeds exactly when the template loadable today is the archived one, and changes only the lock and its projection |
| CompanyBinding.LockCommits | app/facts_tree/company_binding.py:350-359 | the same for a lock |
| CompanyBinding.BindPackKeeps | app/facts_tree/company_binding.py:305-348 | whatever the emptiness hook answers, the invariant holds; a company it calls nonempty keeps its binding |
| CompanyBinding.CheckHistoryRows | app/facts_tree/company_binding.py:213-243 | the two loops over the history rows accept exactly the gap-free, linked histories that end in the current identity, with the first fault reported |
| CompanyBinding.CompanyBindingStore.Register | app/facts_tree/company_binding.py:279-303 | the store object commits exactly the specified registration, or rolls back to the tables it found |
| CompanyBinding.CompanyBindingStore.BindPack | app/facts_tree/company_binding.py:305-348 | the store object commits exactly the specified binding, or rolls back |
| CompanyBinding.CompanyBindingStore.MarkLocked | app/facts_tree/company_binding.py:350-359 | the store object commits exactly the specified lock, or rolls back |
| CompanyBinding.CompanyBindingStore.GetBinding | app/facts_tree/company_binding.py:253-262 | the reading method follows the checks of the reader in their order, for its own company only |
| FactIdentity.RegisterOutcome | app/facts_tree/fact_identity.py:159-170 | an initial registration succeeds exactly for an existing, unmapped row of the company, open or closed, creates revision 1 under the fresh identity and touches no other chain |
| FactIdentity.RegisterCommits | app/facts_tree/fact_identity.py:137-170 | on an idle connection a registration commits exactly for a named writer in scope and an unmapped row of the company; otherwise nothing changes |
| FactIdentity.RegisterJoins | app/facts_tree/fact_identity.py:145-186 | inside a caller's transaction the same conditions decide, and a refusal leaves that transaction untouched |
| FactIdentity.BootstrapOutcome | app/facts_tree/fact_identity.py:188-200 | the legacy bootstrap is idempotent: it succeeds exactly for unmapped rows and rows it mapped itself, and only the first call writes |
| FactIdentity.BootstrapWrites | app/facts_tree/fact_identity.py:188-200 | the first bootstrap of a row writes exactly the legacy identity of that row with one revision by the system |
| FactIdentity.BootstrapCommits | app/facts_tree/fact_identity.py:188-200 | which bootstraps commit on an idle connection, and that a second one changes nothing |
| FactIdentity.AppendOutcome | app/facts_tree/fact_identity.py:202-268 | a correction succeeds exactly for an open, unmapped row and an identity whose current row is open; it closes that row with the new one, appends one revision and its supersedes edge, and changes nothing else |
| FactIdentity.AppendCommits | app/facts_tree/fact_identity.py:202-268 | on an idle connection a correction commits exactly for a named writer in scope, an open unmapped row of the company and an identity whose current row is open; otherwise nothing changes |
| FactIdentity.AppendFailsClosed | app/facts_tree/fact_identity.py:202-268 | on any tables, sound or corrupt, a correction extends only a gap-free chain whose last row is open |
| FactIdentity.AppendKeeps | app/facts_tree/fact_identity.py:202-268 | a correction keeps every chain, index entry and recorded step of the identity ledger |
| FactIdentity.LineageOutcome | app/facts_tree/fact_identity.py:270-355 | a lineage event is recorded exactly when its edges normalize and every endpoint is a version of an identity of the company, and changes nothing else |
| FactIdentity.LineageCommits | app/facts_tree/fact_identity.py:270-355 | a lineage event commits exactly for a named writer in scope, well-formed distinct edges in the shape of the event, and endpoints that are versions of the company's identities; it appends that one event |
| FactIdentity.ShapeExactly | app/facts_tree/fact_identity.py:316-331 | the accepted shapes on the edges themselves: one correction or retraction; a split of one shared parent over at least two identities; a merge of at least two identities into one shared child; any migration |
| FactIdentity.LineageArgsExactly | app/facts_tree/fact_identity.py:281-331 | the arguments of an event are accepted exactly for a named actor and reason and well-formed, distinct edges of that shape |
| FactIdentity.NormalizeMeaning | app/facts_tree/fact_identity.py:270-318 | edges normalize exactly when each has the fields its event asks for, and then keep the submitted endpoints and carry the relation of the event, with a child exactly when it is no retraction |
| FactIdentity.WalkVisitsChain | app/facts_tree/fact_identity.py:235-250 | following superseded_by from version i visits exactly the later versions in order and stops at the current row |
| FactIdentity.OneOwner | app/facts_tree/fact_identity.py:95-98 | no facts row belongs to two identities, nor twice to one |
| FactIdentity.FactIdentityStore.RegisterInitial | app/facts_tree/fact_identity.py:137-170 | the store-owned registration commits exactly the specified tables or rolls back; inside a foreign transaction it raises and loses that transaction |
| FactIdentity.FactIdentityStore.RegisterInitialInTransaction | app/facts_tree/fact_identity.py:145-186 | the joined registration changes the caller's open transaction exactly as specified, or leaves it exactly as it was |
| FactIdentity.FactIdentityStore.BootstrapLegacy | app/facts_tree/fact_identity.py:188-200 | the store object commits exactly the specified bootstrap, or rolls back |
| FactIdentity.FactIdentityStore.AppendRevision | app/facts_tree/fact_identity.py:202-268 | closing the old row, the revision and the lineage event commit together as specified, or not at all |
| FactIdentity.FactIdentityStore.RecordLineage | app/facts_tree/fact_identity.py:270-355 | the edge loop and the endpoint loop accept exactly the specified events |
| FactPlacements.ReaderAccepts | app/facts_tree/fact_placements.py:549-694 | on every reachable state the verified read raises exactly when the identity's current facts row is closed; otherwise it returns the latest revision with the last event of that row's history |
| FactPlacements.BindingVerifies | app/facts_tree/fact_placements.py:168-252 | the writer's binding and leaf checks pass exactly when the company is bound and its archived manifest declares the target |
| FactPlacements.VersionValidates | app/facts_tree/fact_placements.py:254-281 | the fact-version check passes exactly for the open current row of an identity of the company |
| FactPlacements.SlotGranted | app/facts_tree/fact_placements.py:356-399 | the compare-and-swap is granted exactly when the history has as many events as the caller expects, and yields the next sequence and the spot it replaces |
| FactPlacements.WriteOutcome | app/facts_tree/fact_placements.py:338-431 | a placement write succeeds exactly under those three conditions; it appends one event on the current binding with the predecessor's spot and moves the pointer to it |
| FactPlacements.WriteKeeps | app/facts_tree/fact_placements.py:338-431 | a placement keeps the joint invariant of all three stores, only appends, and keeps every event on the current binding |
| FactPlacements.FactPlacementStore.Write | app/facts_tree/fact_placements.py:299-307 | the store-owned write commits exactly the specified tables, or rolls back even a half-written event |
| FactPlacements.FactPlacementStore.WriteJoined | app/facts_tree/fact_placements.py:309-336 | the joined write changes the caller's open transaction as specified, or leaves it exactly as it was |
| PlacementOutcomes.ArgsExactly | app/facts_tree/fact_placements.py:132-164 | the argument checks pass exactly for a named actor and reason, a positive row, a named trunk and leaf, a named migration where one is given or needed, a token of at least 1 if any, and a writable store that covers the company |
| PlacementOutcomes.WriteCommits | app/facts_tree/fact_placements.py:299-468 | on an idle connection a placement or reassignment commits exactly for such a request, a declared target, a current row and a token that is the length of the history; it appends the granted event and moves the pointer, and otherwise nothing changes |
| PlacementOutcomes.WriteJoins | app/facts_tree/fact_placements.py:309-531 | inside a caller's transaction the same requests are granted, given a migration or a publication; a refusal leaves that transaction untouched |
| PlacementOutcomes.ReassignNeedsLatestToken | app/facts_tree/fact_placements.py:356-399 | a current fact is moved to a declared target exactly when the token is the sequence number of its last event |
| PlacementOutcomes.WriteFailsClosed | app/facts_tree/fact_placements.py:168-399 | on any tables, sound or corrupt, a write is granted only on a complete binding history, an archive that hashes to the bound digest and declares the target, a verified version, and the token of the event at which the pointer stands |
| FactPlacements.FactPlacementStore.ResolveCurrentIdentity | app/facts_tree/fact_placements.py:588-662 | the reader's checks, in their order, give exactly the specified resolution or fault |
| FactPlacements.FactPlacementStore.ReadPlacement | app/facts_tree/fact_placements.py:625-662 | the loop over the events reports the first sequence, predecessor or archive fault of the history |
| PlacementOutcomes.ResolveFailsClosed | app/facts_tree/fact_placements.py:549-694 | on any tables, sound or corrupt, the read returns an active identity with a complete chain and an open, unrewritten current row, whose placement history is complete, linked and verified event by event, or absent; and exactly its last revision and event |
| LedgerRuns.StepKeeps | app/facts_tree/fact_placements.py:338-431 | no operation of any store, no other writer and no template change leaves the joint invariant or changes what is recorded |
| LedgerRuns.StepExactly | app/facts_tree/fact_placements.py:338-431 | for each operation of a run, which state it leaves behind and when it is refused, in terms of the tables it found |
| LedgerRuns.RunKeeps | app/facts_tree/company_binding.py:279-359 | the joint invariant holds after every run, and every ledger only grew |
| LedgerRuns.ReaderNeverRejects | app/facts_tree/fact_placements.py:549-662 | after any run from an empty database the verified read raises exactly for an identity whose current row was closed |
| LedgerRuns.OpenIdentityAlwaysReads | app/facts_tree/fact_placements.py:588-662 | an identity open at some point of a run in which only append_revision closes mapped rows can be read at every later point |
| LedgerRuns.RegisteredOpenAlwaysReads | app/facts_tree/fact_identity.py:159-200 | an identity registered for an open row can be read ever after, in every such run |
| LedgerRuns.CorrectionStartsUnplaced | app/facts_tree/fact_placements.py:549-587 | just after a correction the read returns the new version without a placement, and the old history is untouched |
| LedgerRuns.BindingFreezes | app/facts_tree/company_binding.py:264-348 | with the store's own emptiness check no operation changes the binding identity or revision of a company that owns a fact |
| LedgerRuns.BindingStaysFrozen | app/facts_tree/company_binding.py:264-348 | the same over every run |
| LedgerRuns.EventsOnCurrentBinding | app/facts_tree/fact_placements.py:347-387 | over every run each placement event of each fact carries exactly its company's current pack, version, digest and binding revision |
| LedgerRuns.NoLostUpdate | app/facts_tree/fact_placements.py:338-423 | once a write with an expected sequence was granted, no later write with the same token is, whatever runs in between |
| LedgerTransactions.WriteAlike | app/facts_tree/fact_placements.py:299-336 | ledgers that agree up to timestamps, record type and migration grant the same writes for the same faults and still agree afterwards |
| LedgerTransactions.FailedJoinUndone | app/facts_tree/fact_placements.py:309-336 | a failed joined write leaves the caller's open transaction exactly as before it |
| LedgerTransactions.JoinedRefinesOwned | app/facts_tree/fact_placements.py:299-336 | committing a transaction of joined writes gives the ledgers of its granted writes made one by one as store-owned transactions, each of which succeeds |
| Evidence.WitnessesSound | app/facts_tree/reading_context.py:65-89 | every verified witness quotes its own displayed grant verbatim, carries the literal field value, and no field is witnessed twice |
| Evidence.EvidenceSound | app/facts_tree/reading_context.py:65-97 | a known period and a nonempty unit occur literally in the primary quote or in a verified witness: nothing is inferred |
| Evidence.EvidenceStable | app/document_read/notes.py:107-138 | handing verified proofs back to the guard accepts them unchanged, also on more grants |
| Evidence.RangeGrantedExactly | app/facts_tree/grants.py:4-7 | a range is granted exactly when it is not empty and each of its lines was displayed |
| Evidence.WitnessesExactly | app/facts_tree/reading_context.py:58-92 | the witnesses pass exactly when each stands in a displayed grant and no field is witnessed twice; the proofs are then theirs, one by one |
| Evidence.EvidenceExactly | app/facts_tree/reading_context.py:58-97 | the guard accepts exactly at most three standing witnesses of different fields, with every known qualifier standing in the quote or witnessed |
| NoteRules.AuditExtends | app/document_read/notes.py:451-459 | an update with its audit row keeps the audit an exact history of the payload |
| NoteRules.WindowKeeps | app/document_read/notes.py:366-479 | a window receipt keeps the ledger invariant and only appends |
| NoteOutcomes.WindowCommitted | app/document_read/notes.py:366-479 | what a fresh receipt commits, on the submitted fields: each create becomes one note, open in an unresolved window and otherwise with the status it listed (verified when it listed none), with its candidate's fact, quote and re-verified proofs, its own edges, questions and hint, and one create row; each older note carries exactly the revisions that name it |
| NoteOutcomes.WindowAccepted | app/document_read/notes.py:366-479 | a fresh receipt is accepted exactly with the lease held and well-formed creates and revisions: new distinct identifiers, listed statuses, bounded texts, candidates that stand in what was displayed, edges to notes of the job, and revisions that fit their note as the ones before them leave it |
| NoteOutcomes.StageExactly | app/document_read/notes.py:257-314 | the creates are staged exactly when each fits, with the payload it submitted |
| NoteOutcomes.ReviseAllExactly | app/document_read/notes.py:411-456 | the revisions are accepted exactly when each fits its note in turn, and change each note by exactly those that name it |
| NoteRules.WindowAudits | app/document_read/notes.py:411-461 | each existing note's audit grows by exactly the revisions submitted for it, in order |
| NoteRules.ReviewKeeps | app/document_read/notes.py:492-642 | a review decision keeps the ledger invariant and only appends |
| NoteRules.ReviewRounds | app/document_read/notes.py:519-554 | a review is accepted exactly for the next round with an acceptable decision, or for the last round under its own key; never for a missing or rejected note |
| NoteRules.ReviewReplays | app/document_read/notes.py:540-552 | an exact replay of the last round changes nothing and returns the stored receipt |
| NoteRules.ReviewIsolated | app/document_read/notes.py:492-642 | a review changes no other note, audit, review row or window receipt |
| NoteRules.ReviewMeaning | app/document_read/notes.py:555-627 | what each accepted action does to its note, and that nothing else of the note changes |
| NoteOutcomes.ReviewAccepted | app/document_read/notes.py:492-642 | a decision is accepted exactly for an undiscarded note with the lease held: as the next round when it fits the note, or as the last round again under its own key |
| NoteOutcomes.ReviewCommitted | app/document_read/notes.py:555-642 | what a new round commits: the note, its one audit entry and its receipt are exactly those of the decision as submitted |
| NoteOutcomes.ReviewRefused | app/document_read/notes.py:492-642 | a next round that does not fit is refused as a rejected note, and one without the lease as a lost lease |
| NoteRules.ReviewUpgrade | app/document_read/notes.py:555-617 | within review an open note becomes verified only by a successful fact revision |
| NoteRules.RevisedLiteral | app/document_read/notes.py:577-617 | a revised fact has a known period that occurs literally in the re-verified origin quote or a displayed witness |
| NoteRules.RunKeeps | app/document_read/notes.py:366-642 | over every run of both calls the invariant holds, and audits, receipts and rejected notes are final |
| NoteRules.AuditRebuilds | app/document_read/notes.py:366-642 | in every reachable ledger folding the audit rebuilds the payload, revisions are 1..rev with one create, each fact revision snapshots what the rows before it rebuild, and relations lead to notes |
| NoteStores.NoteStore.CheckRelations | app/document_read/notes.py:339-364 | the one-pass check with its set of seen edges accepts exactly the bounded, distinct relations to available notes |
| NoteStores.NoteStore.ApplyWindow | app/document_read/notes.py:366-479 | writing row by row with rollback commits exactly the specified ledger, or leaves it as it was |
| NoteStores.NoteStore.ApplyReview | app/document_read/notes.py:492-642 | the same for a review decision |
| ReadingResume.ContextBound | app/document_read/notes.py:847-875 | the rolling context never exceeds four grants |
| ReadingResume.SixNeverExceeded | app/document_read/notes.py:926-930 | the branch for more than six grants is unreachable |
| ReadingResume.ResumeAccepts | app/document_read/notes.py:841-897 | the loop head stops only for the byte bound or a block: no persisted value ever differs |
| ReadingTurns.ContextExactly | app/document_read/notes.py:847-875 | the displayed context is exactly the last two windows read and what the last of them chose to retain, each once and as the document has it |
| ReadingTurns.ReplayFromDocument | app/document_read/notes.py:847-875 | whatever a checkpoint holds, sound or tampered with, the context rebuilt from it shows windows of the document only |
| ReadingTurns.RevisitFromDocument | app/document_read/notes.py:1068-1083 | whatever a checkpoint holds, a revisit shows the document's window, and only of an earlier record that was read |
| ReadingTurns.RevisitExactly | app/document_read/notes.py:1068-1083 | every earlier readable window can be displayed again, and no other |
| ReadingTurns.EntersExactly | app/document_read/notes.py:841-897 | the loop head passes an unavailable or finished window, stops for a blocked one or one over the byte bound, and opens any other with its grant and context |
| ReadingTurns.ToolExactly | app/document_read/notes.py:899-948 | which context requests are refused, stall or are granted in a reached state, and what each saves |
| ReadingTurns.SubmitsExactly | app/document_read/notes.py:984-1035 | the ledger decides on exactly the current window, the displayed context and the revisits, with the document's content; a retention of anything else stops the run |
| ReadingTurns.MalformedExactly | app/document_read/notes.py:1004-1021 | a malformed receipt costs an attempt, and after two the window is blocked |
| ReadingTurns.RecordsExactly | app/document_read/notes.py:1023-1047 | the save after the ledger's answer closes the window with the status of its outcome, or as an unresolved technical rejection |
| ReadingTurns.EmptyAnswerCloses | app/document_read/notes.py:984-1047 | an empty answer is accepted in every reached window while the lease holds, so a window can always be closed |
| ReadingTurns.MarksExactly | app/document_read/notes.py:833-1047 | the steps that only mark, stop or move |
| ReadingResume.WindowStored | app/document_read/notes.py:376-382 | resubmitting a stored window is never refused and changes nothing; a first success stores exactly its receipt |
| ReadingResume.RetryStays | app/document_read/service.py:239-268 | only the window at the cursor can be blocked or pending, so an explicit retry never moves the reading cursor |
| ReadingResume.StepKeeps | app/document_read/notes.py:841-1047 | every reading step, crash included, keeps checkpoint and note ledger in agreement |
| NotebookService.MappedNotesService.RebuildContext | app/document_read/notes.py:854-875 | the loop over the completed prefix rebuilds the displayed context, or fails at the first persisted value that differs |
| NotebookService.MappedNotesService.EnterWindow | app/document_read/notes.py:841-950 | from the loop head to the next save, the service's dictionary and checkpoint change exactly as specified |
| NotebookService.MappedNotesService.RequestEarlier | app/document_read/notes.py:899-948 | the context tool refuses, stalls or grants exactly as specified and saves each change |
| NotebookService.MappedNotesService.SubmitReceipt | app/document_read/notes.py:984-1035 | a receipt is checked and committed by the note store before the checkpoint hears of it |
| NotebookService.MappedNotesService.RecordAnswer | app/document_read/notes.py:1025-1045 | the first save after the ledger's answer closes the window with its receipt or as a technical rejection |
| NotebookSafety.EnterItemOutcome | app/document_read/notes.py:1138-1158 | a note is entered for review exactly when it is not blocked, not reviewed and has no saved revisits; its origin window can always be rebuilt |
| ReviewTurns.DecidesOnDisplayed | app/document_read/notes.py:1310-1328 | in every reached review turn the ledger decides on exactly the note's own window and the displayed revisits, with the document's content |
| ReviewTurns.DecisionAccepted | app/document_read/notes.py:1263-1334 | a decision with a bounded reason that fits the note over those windows is accepted as round 1; any other costs an attempt, and a lost lease ends the run |
| ReviewTurns.PlainDecisionAccepted | app/document_read/notes.py:1310-1334 | confirming a verified note, doubting it or rejecting it with a bounded reason is accepted in every reached turn, revisits displayed or not |
| ReviewTurns.RevisionAccepted | app/document_read/notes.py:1310-1334 | a fact revision whose evidence stands in the note's own window or a displayed revisit is accepted in every reached turn and verifies the note |
| ReviewTurns.ReachedTurns | app/document_read/notes.py:1085-1345 | every run reaches only states whose display, order and quotes these results rest on |
| ReviewTurns.ReviewToolExactly | app/document_read/notes.py:1160-1208 | which context requests of the review are refused, stall or are granted, and what each saves |
| ReviewTurns.AttemptsExactly | app/document_read/notes.py:1263-1309 | two failed attempts block the note before anything else is asked of it |
| ReviewTurns.BeginsExactly | app/document_read/notes.py:1091-1112 | a review freezes the order of the undiscarded notes once, resumes in it, and is not entered again once complete |
| ReviewTurns.EntersReviewExactly | app/document_read/notes.py:1134-1158 | the head of the review loop stops for a blocked note or one with saved revisits, passes one with a receipt, and reviews any other |
| ReviewTurns.AppliedExactly | app/document_read/notes.py:1329-1334 | the save after an accepted decision records its receipt and passes the note |
| NotebookSafety.FirstRound | app/document_read/notes.py:1150-1152 | the first accepted decision of a note stores exactly one receipt, for that note alone |
| NotebookSafety.RetryReviewKeeps | app/document_read/service.py:272-304 | an explicit retry of the review reopens exactly the note at the cursor |
| ExplicitRetries.RetryExactly | app/document_read/service.py:236-310 | an explicit retry clears exactly the stop marks and counters of blocked windows and notes; cursors, answers, receipts and displayed windows stay |
| ExplicitRetries.RetryReopens | app/document_read/service.py:236-310 | after it the window at the cursor is opened again unless its context breaks the byte bound |
| NotebookSafety.RunKeeps | app/document_read/notes.py:790-1345 | every run, whatever the employee answers and wherever it crashes, keeps the notebook invariant and only appends to the ledger |
| NotebookTheorems.GuardsHold | app/document_read/notes.py:841-1345 | in every reached state the cursors stand where the worker's phase says |
| NotebookTheorems.ResumeSelfConsistent | app/document_read/notes.py:833-897 | any checkpoint that a run leaves passes every persisted-differs check on resume |
| NotebookTheorems.ExactlyOnce | app/document_read/notes.py:1023-1047 | every processed window has exactly one of ledger receipt and technical rejection, and its record shows the ledger's receipt |
| NotebookTheorems.CreatedOnce | app/document_read/notes.py:462-477 | over every run each note has exactly one create row and belongs to exactly the receipt of its own window |
| NotebookTheorems.ReplayedAnswer | app/document_read/notes.py:376-382 | when the ledger committed before a crash, a different answer gets the stored receipt and changes nothing |
| NotebookTheorems.PublicationGate | app/document_read/service.py:1225-1252 | publication is entered only when every note is verified or rejected and every note open at review start has its one review receipt |
| ReviewTurns.GateExactly | app/document_read/service.py:1225-1252 | in every reached state publication is allowed exactly when the review is complete and no note needs a check |
| ReviewTurns.FinishesExactly | app/document_read/notes.py:1048-1065 | at the end of the reading no window is missing or pending, and the notes that need a check are counted |
| ReviewTurns.CompletesExactly | app/document_read/notes.py:1336-1345 | at the end of the review it is complete, and those notes are counted again |
| NotebookTheorems.StallsExactly | app/document_read/notes.py:1173-1189 | which requests count as stalls, and exactly when that meets the documented bound |
| NotebookTheorems.RepeatNotStalled | app/document_read/notes.py:1173-1189 | a concrete repeated request that is granted again |
| NotebookTheorems.StopWedges | app/document_read/notes.py:1155-1158 | a worker that stops in a review turn leaves a resumable note exactly when no revisit was granted to it |
| NotebookTheorems.WedgedForever | app/document_read/notes.py:1155-1158 | otherwise no continuation of the job ever passes the publication gate |
| WedgeExample.WedgeReached | app/document_read/notes.py:1138-1201 | a concrete two-window job reaches such a state by reading, one granted revisit and a crash |
| QuoteLocator.Find | app/document_read/service.py:1016-1017 | str.find: the first occurrence, or -1 exactly when there is none |
| QuoteLocator.OverlappingLines | app/document_read/service.py:1018-1024 | the first and last line that overlap the occurrence, and every overlapping line between them |
| QuoteLocator.Locate | app/document_read/service.py:1010-1025 | the first attributed range that contains the quote gives the located lines; none exactly when the quote is blank or in no range |
| QuoteLocator.LocatedSpells | app/document_read/service.py:1018-1024 | the located lines alone spell the whole quote |
| QuoteLocator.LocatedAccepted | app/document_read/notes.py:316-329 | a located range always passes the primary check of the note store |
| QuoteLocator.ExtractedAccepted | app/document_read/notes.py:272-314 | an extracted candidate passes every evidence check of the note store: only the create's own fields can refuse it |
| WindowExtract.BoundedNoProgress | app/document_read/service.py:963-1091 | between deliveries that make progress at most sixteen turns pass before the loop stops, from any checkpoint |
| WindowExtract.CompletesExactly | app/document_read/service.py:1056-1065 | the window is complete exactly when some delivery found it open, claimed completion and was empty or brought a new candidate |
| WindowExtract.TurnExactly | app/document_read/service.py:963-1091 | what each turn does to identities, completion, streak and counters, and exactly which turns stop the run |
| WindowExtract.CandidatesDistinct | app/document_read/service.py:1035-1046 | accepted candidates keep pairwise distinct identities |
| WindowExtract.EmptyClaimsGoOn | app/document_read/service.py:1058-1065 | completion claims with only rejected facts can go on for ever |
| WindowExtract.Preparation.AdmitCandidates | app/document_read/service.py:1001-1056 | the loop over a delivery keeps each new identity once, in order, and names the duplicates |
| WindowExtract.Preparation.Deliver | app/document_read/service.py:1056-1091 | one delivery updates identities, completion and streak exactly as specified |
| JobLeases.JobLease.Take | app/document_read/execution.py:20-40 | a lease is taken exactly for 240 to 900 seconds, a job in scope and no row or an expired one; the row then carries the next generation, the new owner and an expiry that many seconds ahead |
| JobLeases.JobLease.CheckHeld | app/document_read/execution.py:42-53 | a check passes exactly for the unexpired row of this owner, generation and company, and then sets its expiry the lease's own seconds ahead |
| JobLeases.JobLease.Release | app/document_read/execution.py:55-58 | a release sets the expiry of its own generation to zero and leaves any other row as it is |
| JobLeases.ModelChannel.Call | app/document_read/service.py:62-91 | a call is refused without budget, with nothing changed; otherwise it is counted and saved under the lease before its one transport, and a lost lease saves and sends nothing |
| LeaseTenure.HolderKeepsLease | app/document_read/execution.py:20-58 | over every run whose clock does not go back, a holder that has not released keeps the row and passes its checks until the expiry it last wrote: no other worker takes the lease |
| LeaseTenure.TakenExactlyWhenFree | app/document_read/execution.py:20-40 | a worker takes the job exactly when there is no row or its expiry has passed, under the next generation, and changes nothing otherwise |
| LeaseTenure.ReleaseFrees | app/document_read/execution.py:55-58 | after a holder's release the next worker can take the job at once |
| ChargedCalls.StepKeeps | app/document_read/execution.py:19-58 | every interleaving of takes, loads, charges, saves, transports, releases and crashes keeps the lease, write and count invariants |
| ChargedCalls.CallGoesThrough | app/document_read/service.py:62-91 | a call with budget left and the lease held is counted, saved and sent exactly once; otherwise the run ends before anything is saved or sent |
| ChargedCalls.OtherStepsExactly | app/document_read/service.py:55-60 | another fenced write passes exactly while the row stands, and a load returns what was saved last |
| ChargedCalls.FencingOrder | app/document_read/execution.py:27-58 | committed fenced writes come in generation order with one owner per generation, whatever the clock does |
| ChargedCalls.ChargedBeforeCall | app/document_read/service.py:62-80 | at every point the saved count of a phase covers its transports, and no step lowers a saved count |
| ChargedCalls.RunIsBounded | app/document_read/service.py:62-80 | each charge uses up exactly one of the calls that a run's limits left when it loaded, so they bound its transports |
| ChargedCalls.BudgetNeverExceeded | app/document_read/service.py:62-80 | over any workers, crashes and retries the transports of a phase never exceed the largest limit any run was given |
| ParseJobs.ParseJobManager.RegisterRetry | app/parse_jobs.py:177-184 | a retry claims a job exactly when no event of it remains, with a new event and a fresh retry count |
| ParseJobs.ParseJobManager.FlagForCancel | app/parse_jobs.py:145-147 | a cancel finds or creates the event and sets it |
| ParseJobs.ParseJobManager.NextAttempt | app/parse_jobs.py:216-218 | the runtime failure counter of the job grows by one |
| ParseJobs.ParseJobManager.LeaveRun | app/parse_jobs.py:246-252 | the end of a run removes its own event only, and nothing when it was rescheduled |
| ParseJobs.ParseJobManager.OnTimer | app/parse_jobs.py:254-261 | a timer submits again exactly for the current, unset event |
| ParseJobs.ParseJobManager.BeginCritical | app/parse_jobs.py:300-305 | the critical section is entered exactly when the event is not set |
| ParseInterleavings.NextKeeps | app/parse_jobs.py:98-318 | every step of every thread keeps one token per job and the attempt count of its generation |
| ParseInterleavings.OneRunInWorker | app/parse_jobs.py:177-261 | over every interleaving at most one run of a job is inside the worker, and it holds the job's event |
| ParseInterleavings.GenerationBounded | app/parse_jobs.py:213-238 | one generation invokes the worker at most the retry limit plus one times |
| ParseInterleavings.RetryWaits | app/parse_jobs.py:177-184 | a retry can be claimed only when no submit, run or timer of the job is left |
| ParseOutcomes.RunWritesVerdict | app/parse_jobs.py:191-246 | a run whose worker call ended writes canceled if its event was set when it looked, otherwise done or the status of its failure, whatever other threads do in between |
| ParseOutcomes.GivenUpExactly | app/parse_jobs.py:213-238 | after a runtime failure a generation is rescheduled while it entered the worker at most the limit, and given up as failed exactly when it entered once more |
| ParseOutcomes.TimerExactly | app/parse_jobs.py:254-261 | a timer submits again exactly for the current, unset event, and a canceled one clears it |
| ParseOutcomes.RunEndFrees | app/parse_jobs.py:246-252 | the end of a run removes its own event only, so a retry can be claimed |
| ParseOutcomes.CancelExactly | app/parse_jobs.py:135-158 | what a cancel does to event and row across the steps of other threads |
| ParseOutcomes.CanceledOnlyIfAsked | app/parse_jobs.py:98-318 | over every interleaving a row reads canceled only if that job was asked to be canceled |
| ParseOutcomes.CriticalExactly | app/parse_jobs.py:300-305 | over every interleaving a worker enters the critical section exactly when its event is not set |
| ParseOutcomes.ReportExactly | app/parse_jobs.py:269-293 | the last-resort report writes failed exactly when it read an active row and no newer generation owned the job |
| ParseOutcomes.CreatedRuns | app/parse_jobs.py:98-116 | an undisturbed new job is queued, gets its event and reads parsing before its one worker call |
| ParseOutcomes.RetriedRuns | app/parse_jobs.py:160-189 | a retry is refused while an event is left, and otherwise starts a new generation with no failures counted |
| AttributionBatches.BatchesDisjoint | app/entities/bridge.py:247-277 | consecutive batches share no block |
| AttributionBatches.FillBatch | app/entities/bridge.py:248-258 | a batch is the longest run of blocks within both bounds |
| AttributionBatches.Validate | app/employees/semantic.py:95-104 | an answer is usable exactly when it decides every block of the batch once and nothing else |
| AttributionBatches.AttributeAll | app/entities/bridge.py:246-277 | the loop fails exactly when a transport failed, the budget was exhausted after a usable answer, or a block alone exceeds the character bound; the batches are consecutive and greedy, only the last reply can end it, and exactly the blocks decided so far have results |
| AttributionBatches.StoredPrefix | app/entities/bridge.py:278-286 | the stored blocks are the results in document order up to the first block without one |
| AttributionBatches.RunAttribution | app/entities/bridge.py:246-369 | an artifact is completed exactly when the attribution did not fail and its batches cover the document; it stores exactly the decided blocks, each as its batch was answered |

## Left out

- LedgerRuns.OpenIdentityAlwaysReads: assumes that other writers of the facts table never close a mapped row; without that ReaderNeverRejects states exactly when the read raises.
- LedgerRuns.RunKeeps: other writers insert rows under new ids, close rows that nothing supersedes and change documents; they do not delete facts or rewrite their bodies.
- FactIdentity.RegisterOutcome: takes the minted identifier as an input that is not in use; a collision raises an integrity error in the model.
- NotebookSafety.RunKeeps: one worker at a time writes checkpoint and note ledger, as the lease enforces; competing workers are the subject of ChargedCalls.
- WindowExtract.BoundedNoProgress: verification of a delivered fact is an arbitrary verdict, and the tool's refusals for scope or bytes count as refused requests.
- ReviewTurns.RevisionAccepted: the fact of a revision is what verify_candidate returned for it; one which that check refuses counts as an absent fact.
- ReadingTurns.SubmitsExactly: the candidates of a receipt are those extracted from the current window, which alone are ever stored for it.
- QuoteLocator.ExtractedAccepted: the part of candidate verification in verify_candidate is not modelled; the located quote, the witnesses and the coordinates are what the guard needs.
- ParseInterleavings.GenerationBounded: the retry limit is one value for a whole run, although the source reads its environment variable at each failure.
- Finality and liveness of parse jobs: a cancel reads, checks and sets in separate steps, so a finished or critical job can still be marked canceled and an unused event can stay behind; ParseOutcomes.CancelExactly says what the steps do, and nothing more is claimed about that.
- Acyclic lineage: record_lineage accepts an edge whose parent equals its child.
- A verified note without a known period: reading can create one and a confirmation accepts it; only a fact revision checks the period.
- Imperative form of the review loop and of the parse threads: modelled as steps between commits and lock regions, because a crash or another thread may come between any two of them.
- Splitting a mapped document into windows, the byte size of a displayed context and the syntax of identifiers: parameters.
- SQL text, schema creation, the legacy digest migration, connections and busy waiting: a table is a map or a sequence, a transaction is one atomic step.
- The read of a facts row before BEGIN: bodies never change, so reading it inside the transaction is the same.
- The prior-receipt lookup before the window transaction: taken as part of the call, since only the lease holder writes.
- Times, random identifiers and SHA-256: inputs, fresh inputs and an injective constructor.
- Request columns, update times and rowids beyond the order of notes: nothing reads them.
- JSON type checks of employee answers: a field of the wrong type is an absent or unlisted value.
- Deadlines, request byte limits, prompts, employee transport and the publication stage behind its gate.
- Executor shutdown, database write failures, the parser process and pending-timer cancellation in the parse queue.
- The single-block and model-based attribution paths, the roster and manual decisions.
- The V3 and legacy reading paths, dashboards, the classification ledger, the thread index and the feature switch (taken as on).
