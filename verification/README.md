# Crash-safe recovery in LightRAG: a Dafny model

LightRAG keeps a shared knowledge graph built from documents. Several stores hold parts of it: the
graph, the chunk-tracking rows, the chunks, the per-document recovery anchors, and `doc_status`.
Every store buffers its writes, a flush barrier may fail half way, and a crash drops whatever was
not yet durable. Two journaled protocols change the stores in spite of that: deleting a document
(purge), and inserting custom chunks (create, patch, resume, rollback). This project models both,
with a fault at any await, and proves what holds in every state a crash could make durable, over
whole runs.

## How the model is laid out

- `Sequences`: what it means to filter a list or to keep first occurrences, as relations that determine
  their result; the laws of the other modules are stated with them.
- `Stores`, `KnowledgeGraph`, `InvariantSteps`: the buffered stores, the world they make up, the
  invariant `Inv`, and what each kind of write does to it. Evidence is a chunk id on an object's
  `source_id` or, while the object exists, on its tracking row. The invariant says that in both views
  (memory and disk) every piece of evidence is backed: the chunk is stored, its document's row lists
  or stages it and has not retired it, and both anchor rows are there and name the object if it is
  listed, or the journal does if it is staged. Only a document processed before anchors were written
  (`given.legacy`) may lack anchor rows; those it has must name the object.
- `StorageEngine`: the class whose fields are the stores. `Interleave` is an await: any keys of any
  store may become durable there, and the awaited call may answer, raise, or be the last thing the
  process does. Which of these is a fault schedule, and every contract holds for every schedule. Its
  precondition is the invariant, so a method that calls it has shown the invariant in every state that
  could survive it. After a crash the engine is not `up` and nothing that needs it up can run, no
  handler either; `Crash` drops what was pending and starts the process again. A call that raises
  without having had an effect is the same run as its predecessor raising afterwards.
- `Classification`, `DerivedPass`, `Convergence`, `ConvergenceSteps`, `PurgeDerived`: the derived pass
  of a purge and why interrupted passes converge.
- `RecoveryProof`, `PurgeSteps`, `JournaledPurge`, `Deletion`: the recovery proofs, the journal phases,
  one purge attempt, one delete call, retries with crashes, and the reset of a document that is kept.
- `CustomChunkRow`, `CustomChunkPlan`, `CustomChunkSteps`, `CustomChunks`, `Rollback`: the custom-chunk
  insert and its rollback. `Recovery`: arbitrary runs of all commands, and rollbacks retried. `Hazards`: each place where the
  code relies on something it does not check, with the exact condition under which it is safe.
  `Witnesses`: for each of them a small concrete state that satisfies the invariant and fails.
- `Truncation`, `TruncationLedger`: the truncation record of an operation. `BusySlot`: the busy slot and
  its mailbox. `Sweep`: the paged rollback sweep. `Ids`, `Migration`, `Rerank`, `TokenTrim`,
  `ContextHalves`, `TableMarkup`: the deterministic ids, the migrations the purge relies on, the rerank
  windows, and the token-budgeted context of multimodal items.

`dafny verify dfyconfig.toml` checks everything. `hide` statements only take facts away from a proof.

## Where code and documentation differ

- Ownership is the tracking row, or the graph's list only when that row is empty, not the union of the
  two (`lightrag/lightrag/lightrag.py:5356-5382`). `Classification.DropLosesEvidenceIff` says exactly when
  evidence is lost by it; `Witnesses.OwnershipLosesEvidence` is such a state.
- A best-effort rebuild logs an object it cannot rebuild, or finds no cached data for, and returns normally;
  the purge goes on to journal `derived_committed` (`lightrag/lightrag/operate.py:1302-1311`,
  `lightrag/lightrag/operate.py:1850-1857`). Which objects may be skipped is `given.fragile`.
  `PurgeDerived.PassIsCleanIff` says, from the start of the pass, exactly when it leaves a purged chunk in the
  graph, `Hazards.CommittingIsSafeIffClean` that the journal entry is then wrong, and
  `Witnesses.SkippedRebuildBreaksTheJournal` is such a purge. A deletion is proved safe where skipping cannot
  matter (`StorageEngine.Spared`): each skippable object lists no chunk of the document, or nothing else.
- An insert carries a purge journal along verbatim, a merge reads the tracking row of an object that is
  gone from the graph, and a commit writes anchors for a document that never had any. The inserts of
  `CustomChunks.Insert` require that the first does not apply, that the rows picked up are backed, and that a
  legacy document has anchors (`InsertReady`). The `Hazards` lemmas say exactly when each would be safe;
  `Witnesses.MergeOverPurgeBreaks`, `Witnesses.StaleRowIsRevived` and `Witnesses.FirstAnchorsHideTheEntity`
  are states where they are not. The rows an insert's own interrupted attempts leave are always backed
  (`Recovery.RetryIsIssuable`).
- The rollback sweep does not look at the purge journal. Between a crashed deletion and its retry it changes
  the chunk set the journal speaks for, and the retry conflicts; after a completed purge it brings the
  document back listing deleted chunks (`Hazards.SweepBetweenRetriesConflictsIff`,
  `Hazards.SweepAfterPurgeRevivesIff`, `Witnesses.SweepThenRetryConflicts`).
- A migrated document that contributed entities but no relations gets only one anchor row, and a single
  row is no proof: its deletion is refused (`Migration.MigratedIsProvableIff`,
  `Witnesses.MigratedEntityOnlyIsRefused`).

## Model

| member | source | states |
|---|---|---|
| Stores.BufferingIsRemix | lightrag/lightrag/lightrag.py:3359-3408 | a flush, a discard, a crash and any partial flush leave each view showing, key by key, what one of the views showed; nothing that was durable in memory becomes undurable |
| InvariantSteps.BufferingKeepsInv | lightrag/lightrag/lightrag.py:3359-3408 | whatever subset of the stores a barrier or a crash makes durable, the invariant survives |
| InvariantSteps.DerivedWriteKeepsInv | lightrag/lightrag/lightrag.py:5122-5175 | a graph or tracking write is safe if and only if the evidence it leaves was already backed |
| InvariantSteps.ChunkDeleteKeepsInv | lightrag/lightrag/lightrag.py:5150-5175 | chunks may go once nothing refers to them and no row without a live purge journal lists them |
| InvariantSteps.AnchorWriteKeepsInv | lightrag/lightrag/lightrag.py:2693-2731 | rewriting a document's anchors is safe when both rows stay and go on naming its committed evidence, and no other document is affected |
| InvariantSteps.RowWriteKeepsInv | lightrag/lightrag/lightrag.py:2603-2691 | a durable row write is safe when the new row answers for the document's evidence |
| StorageEngine.Engine.Interleave | lightrag/lightrag/lightrag.py:3359-3408 | an await: memory is unchanged, any pending keys may have become durable, and the invariant, the purge's course and its result survive |
| StorageEngine.Engine.FlushAll | lightrag/lightrag/lightrag.py:3410-3421 | a barrier that returns has made everything durable; one that raises may have made any part durable |
| StorageEngine.Engine.Crash | lightrag/lightrag/lightrag.py:3305-3357 | a crash and restart, or a discard, leaves what was durable, and the invariant with it |
| Classification.ClassifyIsExact | lightrag/lightrag/lightrag.py:5349-5475 | a candidate is dropped exactly when no owner survives, kept exactly when nothing purged touches it under the ordinary policy, and otherwise rebuilt from exactly the surviving owners |
| Classification.DropLosesEvidenceIff | lightrag/lightrag/lightrag.py:5356-5382 | evidence named only by the graph is lost exactly when the tracking row is non-empty and wholly purged |
| Classification.RemainingFilters | lightrag/lightrag/lightrag.py:5383-5403 | what a rebuild keeps of an object's owners are those neither purged nor no-evidence placeholders of a relation, in their order, repetitions included |
| PurgeDerived.Analyze | lightrag/lightrag/lightrag.py:5307-5475 | the two classification loops compute exactly that plan |
| PurgeDerived.Prune | lightrag/lightrag/lightrag.py:5484-5649 | tracking updates, relation and entity removals with residual relations, then the barrier: the exact resulting graph and rows, invariant kept at every await |
| PurgeDerived.RebuildKnowledge | lightrag/lightrag/operate.py:1091-1401 | every planned object still present is set to exactly its surviving sources, all of them within the limit, else limit-many from the configured end, unless the ordinary policy skips it; nothing absent is created and the rollback policy skips nothing |
| PurgeDerived.PassObject | lightrag/lightrag/lightrag.py:5227-5687 | object by object, what a completed pass leaves in the graph and the tracking rows, and that all else is untouched |
| PurgeDerived.PassLeaves | lightrag/lightrag/lightrag.py:5227-5687 | object by object, in terms of who owned it: it is gone if no owner survives or an endpoint goes; if a purged chunk touched it, its tracking row is exactly the surviving owners in their order, and its graph list all of them up to the limit, else limit-many from the configured end; otherwise nothing of it changed |
| PurgeDerived.PassIsCleanIff | lightrag/lightrag/operate.py:1279-1311 | after a completed pass no object in any view refers to a purged chunk, if and only if no object it had to rebuild and skipped listed one when it started |
| PurgeDerived.SparedIsHarmless | lightrag/lightrag/operate.py:1279-1311 | a skippable object that lists no purged chunk, or nothing else, is never one that needed the rebuild |
| PurgeDerived.RollbackAlignsTracking | lightrag/lightrag/lightrag.py:5397-5403 | under the rollback policy every surviving candidate's graph list is part of its tracking row |
| PurgeDerived.PassConverges | lightrag/lightrag/lightrag.py:5264-5687 | one completed pass converges, however many interrupted ones came before, where what it skipped was harmless |
| PurgeDerived.PurgeDerivedContributions | lightrag/lightrag/lightrag.py:5227-5687 | steps 1 to 6 leave every object as just described, or stop in a state that satisfies the invariant and is still on course |
| Convergence.CoverageSparesEvidence | lightrag/lightrag/lightrag.py:5572-5619 | if endpoints own whatever their relation owns, a relation removed with a dropped endpoint had no surviving owner, and none is rebuilt onto a dropped entity |
| Convergence.StartIsOnCourse | lightrag/lightrag/lightrag.py:5264-5403 | a settled starting point satisfies the convergence invariant |
| Convergence.ConvergedMeans | lightrag/lightrag/lightrag.py:5264-5687 | once converged, in both views, a candidate exists exactly when an original owner survives and lists no purged chunk, and bystanders are as they were |
| ConvergenceSteps.BufferingKeepsCourse | lightrag/lightrag/lightrag.py:3359-3408 | partial flushes and crashes keep a purge on course and a converged one converged |
| ConvergenceSteps.PlanMatchesGoal | lightrag/lightrag/lightrag.py:5349-5475 | a retried analysis reaches the verdicts of the first one, however far earlier passes got |
| RecoveryProof.ResolveIsExact | lightrag/lightrag/lightrag.py:4640-4845 | when a purge conflicts, when it is refused, and when it gets each of the four proofs, each if and only if |
| RecoveryProof.CandidatesAre | lightrag/lightrag/lightrag.py:4609-4845 | an object is a candidate exactly when the custom-chunk journal names it, or an anchor row does and the proof rests on anchors or on a journal |
| RecoveryProof.RetryIsProven | lightrag/lightrag/lightrag.py:4694-4746 | once `prepared` is durable every retry with the same chunk set gets a proof, from any mixture of durable and pending anchor rows |
| RecoveryProof.ProofCoversEvidence | lightrag/lightrag/lightrag.py:4609-4638 | whichever proof is issued, its candidates (anchors and journal) name every object with evidence from the document |
| PurgeSteps.PhaseIsLowerBound | lightrag/lightrag/lightrag.py:220-240 | in every reachable state, in both views, the journaled phase never overstates what has been done |
| PurgeSteps.ProofIsDurable | lightrag/lightrag/lightrag.py:5066-5120 | a proof read from memory still holds for whatever a crash leaves of the anchors |
| PurgeSteps.PhaseWriteKept | lightrag/lightrag/lightrag.py:4892-4935 | recording a phase whose work is done is safe |
| PurgeSteps.ChunkDeleteKept | lightrag/lightrag/lightrag.py:5153-5175 | under a durable `derived_committed` journal the chunks may be deleted |
| PurgeSteps.AnchorDeleteKept | lightrag/lightrag/lightrag.py:5192-5212 | with the chunks gone the anchors may be deleted, one store at a time |
| JournaledPurge.WritePhase | lightrag/lightrag/lightrag.py:4892-4935 | only the journal changes, durably, and the document is at that phase |
| JournaledPurge.CommitDerived | lightrag/lightrag/lightrag.py:5122-5146 | from `prepared` to `derived_committed`: the pass is done and durable first, skipping harmless objects only |
| JournaledPurge.CommitChunks | lightrag/lightrag/lightrag.py:5153-5191 | from `derived_committed` to `anchors_pending`: exactly the scope's chunks go, durably |
| JournaledPurge.CommitAnchors | lightrag/lightrag/lightrag.py:5193-5223 | from `anchors_pending` to `completed`: exactly this document's anchors go, durably |
| JournaledPurge.PurgeDocument | lightrag/lightrag/lightrag.py:4981-5225 | one attempt: refused or in conflict exactly when the resolution says so and then nothing is written; otherwise it resumes at its phase, never moves back, touches nothing of other documents, and when done nothing refers to the document's chunks and chunks and anchors are durably gone |
| Deletion.Mark | lightrag/lightrag/lightrag.py:4361-4440 | the retry bookkeeping leaves the purge journal and everything else alone, and may fail with or without effect |
| Deletion.Delete | lightrag/lightrag/lightrag.py:5689-6235 | not found; refused or in conflict exactly as the resolution says, with its reason, nothing written but the failure mark, and that mark set unless recording it failed; deleted with nothing left in either view and every object left as the pass describes; or failed or crashed at any await, with the mark set under the same proviso, in a state from which it can be called again and will not be refused |
| Deletion.CrashIsRetryable | lightrag/lightrag/lightrag.py:5066-5225 | a crash in any state of a deletion keeps it retryable against the same candidates |
| Deletion.SettledIsRetryable | lightrag/lightrag/lightrag.py:5066-5120 | a settled, provable document can start such a series |
| Deletion.DeleteUntilGone | lightrag/lightrag/lightrag.py:5689-6235 | with faults and crashes at any await, at most one attempt per fault plus one, then the document is erased and the graph converged |
| Deletion.PurgeAndReset | lightrag/lightrag/lightrag.py:4937-4979 | the reset retires the journal together with the chunk list in one write and changes nothing else of the row |
| CustomChunkRow.RollbackRestoresBase | lightrag/lightrag/lightrag.py:2981-3027 | after a journaled, non-committing transition a rollback restores list, count, carried fields and truncation record if and only if no staged id is a base id |
| CustomChunkPlan.ChunkIds | lightrag/lightrag/lightrag.py:1911-1931 | the ids are those of the non-empty texts, each once, scoped to the document |
| CustomChunkPlan.ChunkIdsInOrder | lightrag/lightrag/lightrag.py:1911-1931 | in the order in which the non-empty texts first occur |
| CustomChunkPlan.Unowned | lightrag/lightrag/lightrag.py:2051-2081 | dedup leaves exactly the chunks whose content the committed ones do not have |
| CustomChunkPlan.AdmitTable | lightrag/lightrag/lightrag.py:2014-2081 | the mode table, both ways: an unfinished operation accepts only itself, in its own mode; without one a processed document is patched with what it does not own, in order, and any other is refused; an unknown document is created unless its body is stored; a fresh patch without new content has nothing to do |
| CustomChunkPlan.MergeCandidates | lightrag/lightrag/operate.py:3440-3474 | the candidates are exactly the objects, endpoints included, that some staged chunk reports |
| CustomChunkPlan.MergedSources | lightrag/lightrag/operate.py:2442-2475 | a chunk is on the merged list exactly when it is new, or on the tracking row, or where there is no row on the graph list, and no placeholder of a relation |
| CustomChunkPlan.MergedSourcesInOrder | lightrag/lightrag/operate.py:2442-2475 | the surviving earlier sources come first, in their old order, then the staged chunks that mention the object and are not among them, each once, in the order of staging |
| CustomChunkSteps.DedupIsStable | lightrag/lightrag/lightrag.py:2051-2081 | a resume stages what the first attempt staged |
| CustomChunkSteps.StagedIsDisjoint | lightrag/lightrag/lightrag.py:2051-2081 | no staged id is a committed id |
| CustomChunkSteps.BegunClaims | lightrag/lightrag/lightrag.py:2090-2148 | the first journal write answers for everything the old row did |
| CustomChunkSteps.TrackingMergeKept | lightrag/lightrag/operate.py:2442-2485 | merging into a journaled candidate's tracking row is safe, even over a stale row that is watched |
| CustomChunkSteps.CommitClaims | lightrag/lightrag/lightrag.py:2383-2421 | the commit record answers for everything: what was staged is listed and anchored in both views |
| CustomChunks.MergeAll | lightrag/lightrag/operate.py:3477-3720 | every object that a staged chunk mentions gets exactly those chunks and its own evidential earlier sources, in that order, as many of them on its graph list as the limit allows; no other object is written |
| CustomChunks.UnionAnchors | lightrag/lightrag/lightrag.py:2693-2731 | the anchors keep what they had, name every journaled object, and are durable |
| CustomChunks.CommitRow | lightrag/lightrag/lightrag.py:2402-2456 | even when the commit write takes effect and then raises, the journaled row it replaced still answers for everything |
| CustomChunks.FailInsert | lightrag/lightrag/lightrag.py:2422-2456 | the failure exit leaves nothing pending and the row FAILED with its journal, or as it was; the latter only if a further call failed or the process went down |
| CustomChunks.Insert | lightrag/lightrag/lightrag.py:1985-2456 | the mode table, in terms of the row found; a refused or idle call leaves everything; a failed or crashed one leaves the base, the journal with no fewer names, and tracking rows the retry may merge over, and unless a second call failed the row is FAILED with this attempt's record on it; a committed one, also one whose last flush failed, has merged its sample as above, stored its chunks, left the row processed, unjournaled and listing base chunks then staged ones, stamped snapshot plus all attempts, and anchored exactly what the document had and any attempt named; however it ends, both views show of everything else only what a view showed before, and of the objects the sample mentions that or their merged lists |
| CustomChunks.WatchableIff | lightrag/lightrag/operate.py:2442-2485 | a merge may be started on a set of objects if and only if every stale tracking row among them is backed |
| CustomChunks.InsertTexts | lightrag/lightrag/lightrag.py:1905-1937 | the same table and endings from texts, nothing being written when none is left |
| Rollback.JournalCovers | lightrag/lightrag/lightrag.py:2900-2960 | the journal names every object with evidence from a staged chunk |
| Rollback.PruneKept | lightrag/lightrag/lightrag.py:3153-3221 | pruning the anchors drops only what the base document no longer contributes to |
| Rollback.RestoreClaims | lightrag/lightrag/lightrag.py:3000-3027 | the restored row answers for all that is left |
| Rollback.RollbackOne | lightrag/lightrag/lightrag.py:2900-3027 | a completed rollback leaves every journaled object with exactly its surviving owners, no reference to a staged chunk, no staged chunk and every other one, and either no document, or the row of before the operation with its own anchors; one that fails or crashes leaves the row as it was, already restored, or gone if the operation had created it; however it ends it stays on the way to its goal, and has reached it by the time the row has changed |
| Recovery.NothingDangles | lightrag/lightrag/lightrag.py:2125-2147 | in every reachable state, for any view of the graph and any view of the other stores, a chunk an object names is stored, and listed or staged by its document, whose anchor rows are both there and name the object if it is listed (for a legacy document, those that are there do), or whose journal names it if it is staged |
| Recovery.NeverRefused | lightrag/lightrag/lightrag.py:4640-4845 | a document that is not a legacy one and whose listed chunks contribute anything is never refused deletion; it conflicts exactly with an unfinished purge of another chunk set |
| Recovery.RetryIsIssuable | lightrag/lightrag/lightrag.py:2051-2081 | whatever a failed or crashed insert left behind, the same call may be made again and resumes |
| Recovery.Drive | lightrag/lightrag/lightrag.py:1858-2456 | any sequence of inserts, deletions, resets, rollbacks and crashes, on any documents, with faults and crashes at any await, keeps the invariant, and every object that names a chunk is found from its document |
| Recovery.PatchThenRollback | lightrag/lightrag/lightrag.py:2900-3027 | after any number of failed or crashed attempts with different samples, none of them excluded, a rollback gives the very row back, at most its status now processed and its count that of its list |
| Recovery.RollbackUntilDone | lightrag/lightrag/lightrag.py:2838-3027 | with faults and crashes at any await, at most one attempt per fault plus one, then the base row is given back or the created document gone, no object in any view refers to a staged chunk, other rows are as they were, and the graph has converged: a journaled object exists exactly when an owner that was not staged survives |
| Recovery.SettledIsOnCourse | lightrag/lightrag/lightrag.py:2838-2960 | with nothing pending such a series can start on the graph as it is |
| Hazards.MergeIsSafeIffUnretired | lightrag/lightrag/lightrag.py:2628-2642 | resuming over a purge journal is safe if and only if the merged chunk is not retired by it |
| Hazards.RevivalIsSafeIffAccounted | lightrag/lightrag/operate.py:2442-2485 | re-creating an object over a stale tracking row is safe if and only if every chunk on it is stored, unretired, and listed or staged by a document whose anchors or journal name the object |
| Hazards.FirstAnchorsAreSafeIffComplete | lightrag/lightrag/lightrag.py:2693-2731 | the first anchors of a document that had none are safe if and only if they name all its listed chunks contribute to |
| Hazards.CommittingIsSafeIffClean | lightrag/lightrag/lightrag.py:5122-5146 | journaling `derived_committed` is safe if and only if no object refers to a chunk of the document |
| Hazards.SweepBetweenRetriesConflictsIff | lightrag/lightrag/lightrag.py:2800-2815 | a rollback between a crashed deletion and its retry makes the retry conflict if and only if the purge had not completed |
| Hazards.SweepAfterPurgeRevivesIff | lightrag/lightrag/lightrag.py:2981-3027 | after a completed purge it restores a processed row over deleted chunks, well formed if and only if there was no base |
| Hazards.PlaceholdersSurviveOnePass | lightrag/lightrag/lightrag.py:5500-5525 | a relation outlives the pass that emptied it if and only if only no-evidence placeholders remain |
| Hazards.InheritingIsSafeIffNamed | lightrag/lightrag/operate.py:3207-3262 | handing a relation's older sources on to an endpoint is safe if and only if the document of each names the endpoint where it names the relation |
| Witnesses.OwnershipLosesEvidence | lightrag/lightrag/lightrag.py:5356-5382 | a sound state in which a proven deletion drops an entity that another document still contributes to |
| Witnesses.SkippedRebuildBreaksTheJournal | lightrag/lightrag/operate.py:1850-1857 | a sound state and a proven deletion whose pass skips a shared entity: it ends with the purged chunk in the graph, and the next phase breaks the invariant |
| Witnesses.MergeOverPurgeBreaks | lightrag/lightrag/lightrag.py:2628-2642 | a sound state with a crashed purge in which the admitted resume's merge breaks the invariant |
| Witnesses.StaleRowIsRevived | lightrag/lightrag/operate.py:2442-2485 | a sound state in which a merge gives a new entity a deleted document's chunk |
| Witnesses.FirstAnchorsHideTheEntity | lightrag/lightrag/lightrag.py:2693-2731 | a sound state in which a patch's anchors turn a refused deletion into a proven one that does not look at the document's entity |
| Witnesses.MigratedEntityOnlyIsRefused | lightrag/lightrag/storage_migrations.py:160-183 | a sound migrated state whose deletion is refused |
| Witnesses.SweepThenRetryConflicts | lightrag/lightrag/lightrag.py:2800-2815 | a row with both journals whose proven purge conflicts after the sweep |
| Witnesses.PlaceholderNeedsASecondPass | lightrag/lightrag/lightrag.py:5500-5525 | a relation that the first pass rebuilds and the second drops |
| Witnesses.InheritedSourceIsUnnamed | lightrag/lightrag/operate.py:3207-3262 | a sound state in which handing a relation's source to its endpoint breaks the invariant |
| Truncation.MergeRepresents | lightrag/lightrag/utils.py:4931-4988 | merged records represent the concatenated events: exact event and stage sums, exactly the first ten subjects, and an affected count that is too high by exactly what the two records were and the number of common subjects that one of them does not show |
| Truncation.MergeIsExactIff | lightrag/lightrag/utils.py:4962-4973 | the merged count is exact if and only if both records are and every common subject is shown by both |
| Truncation.RepeatCountsTwice | lightrag/lightrag/utils.py:4943-4957 | an attempt that truncates the same subjects again counts those beyond the tenth twice |
| Truncation.SmallMergeIsExact | lightrag/lightrag/utils.py:4931-4988 | up to ten subjects, merging records equals recording in one tally |
| Truncation.ShownInOrder | lightrag/lightrag/utils.py:4884-4915 | what a record shows are the first ten of the distinct non-empty subjects in first-seen order |
| Truncation.TallyRepresents | lightrag/lightrag/utils.py:4901-4915 | a tally's summary is exact |
| TruncationLedger.Ledger.Summarize | lightrag/lightrag/lightrag.py:2190-2226 | the hook makes the event durable before its object is written |
| TruncationLedger.Ledger.Commit | lightrag/lightrag/lightrag.py:2166-2188 | the terminal record is the snapshot plus every attempt's events |
| TruncationLedger.RunOperation | lightrag/lightrag/lightrag.py:2093-2456 | over any attempts that fail, crash or resume, every recorded event is counted once, in order, nothing landed unrecorded, and the record of a finished attempt overcounts by exactly what the snapshot did and what the merges of the attempts could not see |
| BusySlot.StepKeeps | lightrag/lightrag/lightrag.py:2491-2601 | every step of every caller keeps the slot's invariant |
| BusySlot.TakenOnlyToRead | lightrag/lightrag/pipeline.py:1810-1985 | a pending row goes only when it is finished; mail, rescan flag and the oldest manual request go only to the holder of the slot, who reads the pending rows next; no step moves another caller |
| BusySlot.RefusalsAreRescanned | lightrag/lightrag/pipeline.py:3740-3835 | a free slot goes to the caller that tries or acquires it; exactly a refused try arms the rescan; whoever finds work on its way out keeps the slot and reads the pending rows |
| BusySlot.TakenInTurn | lightrag/lightrag/pipeline.py:1810-1985 | one kind of work at a time, manual requests first, then the rescan, then the mail; the slot is freed only when there is none |
| BusySlot.NothingStranded | lightrag/lightrag/pipeline.py:3740-3835 | over every run, a free slot with mail or a pending row has a caller still to post or try, and there is one holder |
| BusySlot.EveryRowIsFinished | lightrag/lightrag/pipeline.py:1810-1985 | over every run, a stored row that is no longer pending was finished after it was stored |
| BusySlot.LateReleaseIsHarmless | lightrag/lightrag/kg/shared_storage.py:3064-3092 | a late owner-checked release never clears a later holder's slot |
| BusySlot.CancelledHandoffIsSafeIff | lightrag/lightrag/lightrag.py:6390-6431 | exactly when a cancelled handoff strands nothing |
| BusySlot.DrainAlone | lightrag/lightrag/pipeline.py:1810-1985 | a processing run left alone empties the mailbox, processes every pending row and frees the slot |
| Sweep.Table.Page | lightrag/lightrag/base.py:1491-1535 | one page, exactly the swept rows between two positions of the cursor, by creation time and then id; it may be short or empty without being the last, and then the cursor has consumed some record |
| Sweep.Table.RollBackAll | lightrag/lightrag/lightrag.py:2838-2891 | the sweep attempts exactly the journaled rows of the swept statuses, each once, by creation time and then id, though its rollbacks change the table, and changes nothing else |
| Ids.PrefixedInjective | lightrag/lightrag/utils_pipeline.py:415-438 | the length-prefixed encoding is injective for all strings |
| Ids.ReadsBack | lightrag/lightrag/utils_pipeline.py:415-438 | a hash input reads back as its document and its text |
| Ids.JoinedInjective | lightrag/lightrag/utils_pipeline.py:427-438 | joined id lists are injective on non-empty ids free of the separator |
| Ids.JoinedConcat | lightrag/lightrag/utils_pipeline.py:427-438 | ids are joined in order with one separator between any two |
| Ids.SortsOneWay | lightrag/lightrag/utils_pipeline.py:456-470 | the purge encoding depends only on the id set |
| Ids.BelowMeans | lightrag/lightrag/utils_pipeline.py:456-470 | ids sort by their first difference, a proper prefix first |
| Ids.SortsSomehow | lightrag/lightrag/utils_pipeline.py:456-470 | and every set does sort |
| Ids.PurgeInputInjective | lightrag/lightrag/utils_pipeline.py:456-470 | and is injective in the document and the set |
| Ids.PlainIsNeeded | lightrag/lightrag/utils_pipeline.py:456-470 | with an empty id or a separator inside one, different sets collide |
| Migration.MigrateAnchors | lightrag/lightrag/storage_migrations.py:100-183 | with chunks owned by one document each, an object is in a document's anchors exactly when one of its sources is a chunk of it |
| Migration.MigrationAnchorsEvidence | lightrag/lightrag/storage_migrations.py:100-183 | the migration establishes the anchor superset the purge relies on |
| Migration.MigratedIsProvableIff | lightrag/lightrag/storage_migrations.py:160-183 | a migrated document has the anchor proof exactly when it contributed both an entity and a relation |
| Migration.SeedTracking | lightrag/lightrag/storage_migrations.py:221-271 | for any batch size, an object's row is the sources of its last record that has any, and there is none exactly when no record has |
| Rerank.Windows | lightrag/lightrag/rerank.py:118-139 | windows of at most the maximum start at multiples of the step, rejoin to the document, and number 1 + ceil((n - max) / step) |
| Rerank.ChunkForRerank | lightrag/lightrag/rerank.py:56-139 | errors exactly for a widthless window or a negative overlap; otherwise each document's chunks are exactly itself or its windows, with half the window for an overlap that is not smaller than it |
| Rerank.ChunksAreCharged | lightrag/lightrag/rerank.py:94-139 | a document's chunks are those charged to it, in the order of the list |
| Rerank.Aggregate | lightrag/lightrag/rerank.py:183-229 | exactly the documents with a usable score, each with what the strategy makes of its scores, in descending order with ties by document |
| Rerank.ScoresInOrder | lightrag/lightrag/rerank.py:183-201 | the scores a document gets are those of its usable entries, one each, in the order of the results |
| Rerank.SumAdds | lightrag/lightrag/rerank.py:203-215 | the sum of lists put together is the sum of their sums, that of one score the score |
| Rerank.CombinedIsBetween | lightrag/lightrag/rerank.py:203-215 | maximum, mean and first lie between the worst and the best score; the maximum is the best, the first the first, the mean times the count the sum, an unknown strategy the maximum |
| Rerank.TopNKeepsTheBest | lightrag/lightrag/rerank.py:429-443 | what the cut keeps scores at least any chunk score of an omitted document |
| TokenTrim.CharTrimLeading | lightrag/lightrag/multimodal_context.py:231-246 | a fitting suffix for any tokenizer, the longest for a monotone one |
| TokenTrim.CharTrimTrailing | lightrag/lightrag/multimodal_context.py:249-264 | a fitting prefix for any tokenizer, the longest for a monotone one |
| TokenTrim.CharFallback | lightrag/lightrag/multimodal_context.py:378-447 | nothing exactly when the empty table does not fit; else a fitting snippet written back in a whole table, all of the text if that fits, the longest for a tokenizer monotone in the snippet |
| TokenTrim.RowTrim | lightrag/lightrag/multimodal_context.py:272-371 | the most whole rows that fit, first or last ones; if no part of the table does, what the character cut leaves of the row nearest the kept side; nothing exactly when not even the empty table fits |
| TokenTrim.TrimContent | lightrag/lightrag/multimodal_context.py:812-894 | trimmed exactly when over budget, never over budget afterwards whatever the tokenizer: what is left beside the reserved marker, followed by the marker, when the two fit together, else what is left without one; what is left is the longest head of plain content or of an unsplit table, and for a split one its most first rows, a snippet of the first or a head of its body |
| TokenTrim.TrimmedIsUnique | lightrag/lightrag/multimodal_context.py:812-829 | for a monotone tokenizer nothing else satisfies that |
| TokenTrim.MarkedHead | lightrag/lightrag/multimodal_context.py:865-894 | so for plain content it is the longest head that leaves room for the marker, and the marker, whenever that fits |
| TokenTrim.MarkedRows | lightrag/lightrag/multimodal_context.py:865-894 | and for a table the most first rows that leave room for it, and the marker |
| ContextHalves.Atomize | lightrag/lightrag/multimodal_context.py:107-128 | the atoms are the text again, none empty; those that are tags are the tags, whole, each once and in order, with at most one text between two |
| ContextHalves.SplitTextSegment | lightrag/lightrag/multimodal_context.py:193-222 | the pieces are the text again, cut behind each occurrence of the first separator that gives more than one piece |
| ContextHalves.SplitIsUnique | lightrag/lightrag/multimodal_context.py:193-222 | a text has one such split at a separator |
| ContextHalves.AccumulateLeading | lightrag/lightrag/multimodal_context.py:537-587 | the longest run of whole segments from the end that fits; if the last one alone does not, what the next separators leave of it, else the longest tail the room allows; within budget for a subadditive tokenizer, all of the text when every suffix fits |
| ContextHalves.NothingInFront | lightrag/lightrag/multimodal_context.py:537-587 | for a monotone tokenizer nothing is kept only when there is no room or the last character alone does not fit into it |
| ContextHalves.AccumulateTrailing | lightrag/lightrag/multimodal_context.py:649-682 | the same from the start |
| ContextHalves.NothingBehind | lightrag/lightrag/multimodal_context.py:649-682 | the same for the first character |
| ContextHalves.BuildLeading | lightrag/lightrag/multimodal_context.py:466-534 | the walk over the atoms away from the target: tags that fit are whole, texts give what accumulation keeps, and it ends at the first atom that does not fit or exhausts the budget, a table giving what row trimming leaves; within budget, in order, the whole source when there is room |
| ContextHalves.BuildTrailing | lightrag/lightrag/multimodal_context.py:590-646 | the same towards the end |
| ContextHalves.WholeButOutermostIsSuffix | lightrag/lightrag/multimodal_context.py:497-534 | the half is contiguous when only its outermost contribution is partial |
| TableMarkup.SplitHtmlRows | lightrag/lightrag/table_markup.py:133-167 | the loop computes the rows of the markup, none when there is none |
| TableMarkup.InForceIff | lightrag/lightrag/table_markup.py:133-167 | a wrapper is in force exactly from its opening tag to the next opening tag or its own closing tag; dropped text and stray closing tags have no effect |
| TableMarkup.RowsInForce | lightrag/lightrag/table_markup.py:133-167 | each row tag gives one row, in order, in the wrapper in force there |
| TableMarkup.SerializeHtmlRows | lightrag/lightrag/table_markup.py:170-191 | the loop computes the grouped markup of the rows |
| TableMarkup.RoundTrip | lightrag/lightrag/table_markup.py:133-191 | splitting what was serialized gives the rows back |
| TableMarkup.SlicesRoundTrip | lightrag/lightrag/multimodal_context.py:312-363 | so does every prefix and suffix that row trimming writes |
| TableMarkup.NormalFormIsStable | lightrag/lightrag/table_markup.py:133-191 | re-serializing any markup keeps its rows and is idempotent |
| TableMarkup.EmitIsNested | lightrag/lightrag/table_markup.py:170-191 | serialized markup is well nested |
| TableMarkup.EmitIsCompact | lightrag/lightrag/table_markup.py:170-191 | consecutive rows of one wrapper share one block, and a wrapper opens only right before a row |
| TableMarkup.OnlyMarkup | lightrag/lightrag/table_markup.py:170-191 | well nested, compact markup is what its rows serialize to, so there is no other |

## Left out

- Vector stores, `full_docs`, the LLM cache and persisted recovery warnings: they are written beside the
  stores modelled here and decide nothing.
- Descriptions, extraction, summaries, embeddings: objects are their identity and their source lists. An
  extraction sample is an arbitrary map from chunks to objects.
- Relations whose graph record has no `source_id` field at all, which the classification skips.
- PurgeDerived.RebuildKnowledge: the re-creation of missing endpoints during a relation rebuild is not
  modelled. Which objects may be skipped is fixed over a run; which are skipped is free at each pass.
- Deletion.Delete: requires that skipping is harmless for the document (`StorageEngine.Spared`); where it is
  not, `PurgeDerived.PassIsCleanIff` and `Hazards.CommittingIsSafeIffClean` say what happens.
- CustomChunks.MergeAll: an endpoint gets the staged chunks that mention its relations, not also the
  relation's older sources; `Hazards.InheritingIsSafeIffNamed` treats those. The order of sources within one
  object follows the chunks.
- CustomChunks.FailInsert: a discard of pending writes that itself fails is not modelled.
- CustomChunks.Insert: an insert over a purge journal, over stale tracking rows that are not backed, or on a
  legacy document whose anchors are missing is outside its precondition; `Hazards` gives the exact conditions.
- Rollback.RollbackOne: assumes that no purge of the document is journaled. The sweep does not check this;
  `Hazards.SweepBetweenRetriesConflictsIff` and `Hazards.SweepAfterPurgeRevivesIff` treat the case.
- Recovery.Drive: its runs keep to the preconditions above, and reset no document under a custom-chunk journal.
- Recovery.NothingDangles: a legacy document stays one, also if it is deleted and created again.
- Convergence.ConvergedMeans: assumes that a non-empty tracking row covers the graph's truncated list and
  that no candidate survives on placeholders alone; tracking rows of absent objects are not claimed.
- The pipeline's own ingestion (parsing, extraction, its merge): documents it has already processed may be
  in the initial state.
- Concurrency inside a command: the pipeline slot serializes commands; the slot itself is `BusySlot`.
- BusySlot.NothingStranded: runs in which a handoff is cancelled or a fetch fails are excluded;
  `BusySlot.CancelledHandoffIsSafeIff` covers the first. The manual drain's phases are one step.
- Sweep.Table.Page: rows created by others while the sweep runs are not modelled.
- Hashes are taken as injective; regular expressions as already-matched tags; JSON and HTML escaping as
  uninterpreted functions; scores as reals, sorted by insertion.
