# Multi-agent brain: verification of the memory core

This project models the parts of the multi-agent brain on which the rest relies, and proves what they promise.
Each module stands for one component:

| module | component |
|---|---|
| `Stores`, `Replay` | the stores a promotion writes to, one atomic step per port call, and any number of workers on one outbox entry |
| `Promotion`, `OutboxReplay` | the outbox worker, its claims, retries and replays, on stores changed in place |
| `Reading`, `Keys`, `VaultNotes` | notes and drafts as their files read, and the keys by which they are compared |
| `Planning`, `PromotionEffects`, `Supersession`, `SerialRuns`, `VaultRuns` | what a promotion plans, what a replay leaves, and the invariant of the vault over whole serial runs |
| `PromotionResult`, `SnapshotResult`, `Slugs` | what one promotion leaves in every file, row and event it touches |
| `TwoCurrent`, `StaleReplay` | the runs that leave two current notes, and old payloads replayed on a newer vault |
| `PatchFiles`, `PatchHeaders`, `PatchTool`, `PatchLoop`, `PatchVerdicts` | patch manifests and snapshots, what a patch as git prints it is read as, `apply_unified_diff`, the bounded repair loop of the coding runtime, and what it reports |
| `ContentLength`, `FrameHeaders` | message framing of the MCP transport |
| `FrontmatterCodec`, `FrontmatterRoundTrip`, `LineEnds` | the markdown note format |
| `Headings`, `HeadingText`, `Blocks`, `Chunking`, `ChunkRecords`, `Fences` | sections, blocks and linked chunks of a note |
| `Neighborhood`, `Expansion`, `VaultIndex` | the walk along chunk links, on its own, for ranked candidates, and over a whole vault |
| `ContextBudget`, `PacketText`, `PacketContents`, `PacketShows`, `FairSelection`, `ContextFence`, `FenceTexts` | bounded retrieval: the shrinking packet and what it shows, the fair choice over scopes, the fenced block and what it shows |
| `Authorization`, `Entitlement` | the decision on an operation and the inspection of a token, and both said once more without their order |
| `Refresh` | refresh drafts |
| `Text`, `Runs`, `Pieces`, `Domain` | strings as the runtime sees them, and the records that travel between services |

`dafny verify dfyconfig.toml` checks everything.

Code that changes things step by step is modelled by classes and methods with loops (`PromotionWorker`, `Repository`,
`EscalationController`, `ContentLengthTransport`, `ActorAuthorizationPolicy`, `TemporalRefreshService`); each is proved
equal to a function of the state before, and the theorems are about those functions. What comes from outside, such as
the behaviour of the worker, git, validators, file system, clock, token verification or a failing port call, is a
parameter, so that every theorem holds for each of its behaviours.

Where the code does not do what one might expect, the model follows the code:

- Replaying an outbox entry converges after any crashes and in any interleaving in which all workers finish. If a worker
  stops between a removal and its insertion after another worker has completed the entry, chunks stay lost
  (`Replay.StalledWorkerLosesChunks`); a late fault reopens a completed entry (`OutboxReplay.LateFaultReopens`).
- A stored note is its text. The planner reads drafts and predecessors from their files, where escapes have been left in
  place, while rows and chunks are made from the record just written (`Reading.NoteAsRead`,
  `Promotion.PromotionWorker.WriteCanonicalNote`). The supersession relation survives this for every text
  (`VaultRuns.SerialRunInvariant`). One current note per key does not: it is kept when each promoted draft, as its file
  reads, has a type, project, title and scope without quotation mark, backslash or control character and a project
  without outer white space (`Keys.PlainKeys`). Every draft that is created with an escape in one of these, and every
  draft whose project is padded by hand, takes part in a run that ends with two current notes
  (`TwoCurrent.UnplainKeysLeaveTwoCurrent`, `TwoCurrent.UntrimmedProjectLeavesTwoCurrent`); two drafts titled
  `Use "strict" mode` are enough (`TwoCurrent.QuotedTitleLeavesTwoCurrent`). Likewise the indexes
  always hold the chunks of the record last written, and those of the file as it reads exactly when the fields that
  chunks show need no escape (`VaultIndex.IndexedAsReadIff`).
- A text with a line separator (U+2028, U+2029) in a scalar cannot be read. Such a draft, and any draft that is looked
  for behind it in the staging tree, cannot be promoted; canonical files never become unreadable that way.
- Replaying an old payload after newer promotions breaks the one-current rule too: `StaleReplay.StaleReplayIff` says
  exactly when, and `TwoCurrent.StaleReplayLeavesTwoCurrent` gives a run.
- A caller-supplied target path can hit the UNIQUE note path; `Replay.RunSucceedsIff` says exactly when a replay
  succeeds. The serial runs use fresh default paths.
- The repair loop never repairs: a failed validation stays on record, so success is possible on the first attempt only
  (`PatchLoop.RepairNeverHelps`). If the patch tool's own rollback fails, the workspace is left changed without a
  CRITICAL mark (`PatchLoop.BrokenToolRollbackIsNotCritical`); `PatchLoop.CriticalIff` says exactly when the mark is
  set. The last branch of `handle`, for an unsupported task kind, cannot be reached, since looking up its tool raises
  first.
- The note format writes with JSON escapes and reads by stripping quotes, so strings with an escaped character grow with
  every cycle (`FrontmatterRoundTrip.EscapesNeverSettle`), and a line separator in a scalar makes a note unreadable.
- `authorize` tries issued tokens first and `inspectToken` static ones. With distinct token strings they disagree exactly
  on configured tokens that also pass as issued ones (`Authorization.DecisionIff`); two lemmas give a disagreement of
  that kind and one over a token configured twice.
- Headings are looked for before code fences, so a comment line inside fenced code cuts it
  (`Fences.FencedCodeStaysWholeIff`).
- In a patch, an added line whose text continues its plus sign to `+++ ` is taken for a header, and changed lines that
  continue their sign are not counted; deleted files never reach the manifest (`PatchHeaders.GitPatchIsRead`).
- Carriage returns in front of a line feed shrink with every cycle of writing and reading; four of them outlast the
  first cycle (`LineEnds.LaterRewritesAreStableIff`).
- A refresh call that stores its draft but fails to store the draft's row reports a failure although an open draft is
  there; the next call reuses it, so that at most one exists all the same.

## Model

| member | source | states |
|---|---|---|
| `Replay.CrashConvergence` | packages/application/src/services/promotion-orchestrator-service.ts:343-450 | any number of attempts, each cut off after any port call by a crash or a fault, and then one that goes through, complete the entry and leave exactly the stores of a single uninterrupted attempt |
| `Replay.InterleavingConvergence` | packages/infrastructure/src/sqlite/sqlite-metadata-control-store.ts:481-525 | any interleaving of the port calls of any number of workers on one entry, all running to their end, reaches the stores of one worker alone and leaves the entry completed, even when one worker's removal falls between another's removal and insertion |
| `Replay.ConvergedWhenNobodyBetween` | packages/application/src/services/promotion-orchestrator-service.ts:452-482 | crashes and faults included: once one worker is through and no worker, running or stopped, stands between a removal and its insertion, the stores are those of one uninterrupted run |
| `Replay.DisturbedRunsRecover` | packages/application/src/services/promotion-orchestrator-service.ts:317-341 | however many workers overlapped, crashed or failed, one uninterrupted run afterwards succeeds and leaves what it would have left without them |
| `Replay.StalledWorkerLosesChunks` | packages/application/src/services/promotion-orchestrator-service.ts:456-457 | the converse fails: for every note with chunks there is a run in which a worker stops right after a removal that follows another worker's completion; the chunks stay lost and the completed entry is not claimed again |
| `Replay.RunSucceedsIff` | packages/infrastructure/src/sqlite/sqlite-metadata-control-store.ts:42-126 | an uninterrupted run succeeds exactly when the corpus policy holds for every file and no row of another note holds a path at the moment it is to be written (the UNIQUE note path) |
| `Replay.RunResult` | packages/application/src/services/promotion-orchestrator-service.ts:371-403 | a run that fits the tables leaves in every cell it writes what the last call for it sets, and changes no other cell |
| `Replay.RunAfterLeftover` | packages/application/src/services/promotion-orchestrator-service.ts:343-450 | whatever interrupted runs left behind, an uninterrupted one ends where it would have ended without them |
| `Stores.ApplyTarget` | packages/infrastructure/src/sqlite/sqlite-metadata-control-store.ts:128-260 | each port call leaves in its own cell what it is meant to leave; an insertion needs the cell cleared before, or already holding it |
| `Stores.WriteIsAllowedIff` | packages/application/src/services/canonical-note-service.ts:67-99 | a canonical file is written exactly when it lies below the directory of its corpus, and general notes neither are nor call themselves current |
| `Stores.CallThrowsIff` | packages/infrastructure/src/sqlite/sqlite-metadata-control-store.ts:42-260 | of the other calls, exactly those throw that would give a note the path of another, or chunks to a note without a row; handing no chunks to an index changes nothing |
| `Stores.ApplyFrame` | packages/infrastructure/src/sqlite/sqlite-metadata-control-store.ts:42-260 | a port call changes no file, row, note's chunks, event or draft but its own |
| `Stores.SameTablesMeansEqualTables` | packages/infrastructure/src/sqlite/sqlite-metadata-control-store.ts:809-925 | tables that agree on every cell are equal, up to the order of full-text rows |
| `Promotion.ProgramCoherent` | packages/application/src/services/promotion-orchestrator-service.ts:371-403 | the port calls of a well-formed payload clear every note's chunks before filling them and write every other cell once |
| `Promotion.PromotionWorker.ProcessPromotionOutboxEntry` | packages/application/src/services/promotion-orchestrator-service.ts:343-450 | claims the entry, replays its port calls and completes it; a call that throws marks it failed; the outcome is exactly one attempt of the crash model, and the chunks returned are those of the promoted note |
| `Promotion.PromotionWorker.SyncChunkState` | packages/application/src/services/promotion-orchestrator-service.ts:452-482 | removes and inserts the chunk rows and then the full-text rows of a note, in that order, stopping at the first call that throws |
| `Promotion.PromotionWorker.WriteCanonicalNote` | packages/application/src/services/canonical-note-service.ts:67-99 | refuses a note against the corpus policy, and otherwise stores the text of the record in its file and the record's fields in its row, changing nothing else; what it hands back, and what is then chunked and indexed, is the record and not what its file reads |
| `Promotion.PromotionWorker.ClaimPromotionOutboxEntry` | packages/infrastructure/src/sqlite/sqlite-metadata-control-store.ts:481-525 | an unfinished entry, also one still processing, becomes processing with one more attempt; a completed or unknown one is not claimed |
| `PromotionEffects.ReplayFiles` | packages/application/src/services/promotion-orchestrator-service.ts:371-403 | an uninterrupted replay files, rows and indexes every note of the payload, records the event, updates the draft, and touches nothing else |
| `PromotionEffects.FittingIsAdmissible` | packages/infrastructure/src/sqlite/sqlite-metadata-control-store.ts:814-814 | paths that are free for a payload's rows, and notes within the corpus policy, are all a replay needs to succeed |
| `OutboxReplay.ListPromotionOutboxEntries` | packages/infrastructure/src/sqlite/sqlite-metadata-control-store.ts:438-479 | lists the min(limit, n) oldest pending, failed or processing entries, each once, oldest first |
| `OutboxReplay.ReplayPendingPromotions` | packages/application/src/services/promotion-orchestrator-service.ts:317-341 | attempts each listed entry once, in order, and no other; tables and outbox are left as these attempts one after the other leave them, and exactly the entries completed afterwards are reported as processed |
| `OutboxReplay.ReplayAllCompletes` | packages/application/src/services/promotion-orchestrator-service.ts:317-341 | if the unfinished payloads respect the corpus policy and no path is claimed by two ids, a replay without faults completes every listed entry, and leaves the rest such that the same holds again |
| `OutboxReplay.BacklogDrains` | packages/application/src/services/promotion-orchestrator-service.ts:317-341 | from such an outbox, after k fault-free replays min(n, k * limit) of n unfinished entries are completed: the backlog is empty from the first k with k * limit >= n and not before |
| `OutboxReplay.LateFaultReopens` | packages/infrastructure/src/sqlite/sqlite-metadata-control-store.ts:537-545 | from a fresh system of three workers: the first completes the entry while the second, having claimed it in time, stands anywhere in its program; the second's late fault marks the completed entry failed and the third claims it again |
| `Planning.DefaultPathAvoidsSnapshots` | packages/application/src/services/promotion-orchestrator-service.ts:588-598 | a note at its default path never lands where a current-state snapshot is kept, whatever its title |
| `Planning.DefaultPathNamesNote` | packages/application/src/services/promotion-orchestrator-service.ts:588-590 | a default path names the note by its title and the first eight characters of its id, so that notes whose ids differ there never share one, whatever their titles |
| `Reading.NoteAsRead` | packages/infrastructure/src/vault/file-system-canonical-note-repository.ts:44-91 | what a canonical file is read as, for every record written to it: every string with its escapes, empty optional fields gone, the body trimmed; parsing throws exactly when a scalar holds a line separator |
| `Reading.DraftAsRead` | packages/infrastructure/src/vault/file-system-staging-note-repository.ts:45-92 | the same for a staging file |
| `Reading.SoundIsRead` | packages/infrastructure/src/vault/file-system-canonical-note-repository.ts:74-91 | a record whose ids and status are plain words keeps its place in the supersession relation when it is read, whatever its texts become |
| `Keys.KeySurvivesIff` | packages/application/src/services/promotion-orchestrator-service.ts:493-510 | the key under which the promoted note's file is found later is the key by which its draft looks for predecessors exactly when type, project, title and scope need no escape and the project has no outer white space |
| `Keys.AllRivalsFoundIff` | packages/application/src/services/promotion-orchestrator-service.ts:493-510 | every note that may conflict with the new one is found under the draft's own fields exactly when those fields are plain: the condition a caller can check on the draft as read |
| `VaultNotes.WrittenUnderItsId` | packages/infrastructure/src/vault/file-system-canonical-note-repository.ts:44-91 | whatever its frontmatter says, a file is written under the id and corpus of its record, and a draft's file also under its state, and so they are read |
| `VaultNotes.CanonicalWrite` | packages/application/src/services/promotion-orchestrator-service.ts:186-201 | the note planned for a readable draft can itself be read, stays within the corpus policy, and is found under the key of the trimmed and once more escaped fields |
| `VaultNotes.RetiredWrite` | packages/application/src/services/promotion-orchestrator-service.ts:202-214 | a predecessor, rewritten as superseded from what its file read, keeps its path, id and predecessors and names the new note |
| `Supersession.OneCurrentIff` | packages/application/src/services/promotion-orchestrator-service.ts:484-511 | after a promotion there is one current note per key exactly when every current rival of the new note was among those it replaced |
| `Supersession.RelationInvKept` | packages/application/src/services/promotion-orchestrator-service.ts:180-234 | every lawful promotion keeps supersedes and supersededBy each other's inverse, every id on either side the id of a note, and every note superseded by a later one |
| `Supersession.MirrorKept` | packages/application/src/services/promotion-orchestrator-service.ts:185-214 | supersededBy(x) = y exactly when x is in supersedes(y), after every promotion |
| `Supersession.ChainEndsCurrent` | packages/application/src/services/promotion-orchestrator-service.ts:202-214 | from every superseded note the supersededBy relation leads, without returning to a note, to a current one |
| `Supersession.OverlayOneCurrentIff` | packages/application/src/services/promotion-orchestrator-service.ts:484-511 | overwriting notes and adding one leaves one current note per key exactly when all rivals of the new one were overwritten |
| `SerialRuns.PlanIsPlanned` | packages/application/src/services/promotion-orchestrator-service.ts:180-265 | where a promotion plans to write, from the files as they read: each predecessor at its own path, one fresh note, the snapshot at its own place, and the draft at the path where it was found |
| `SerialRuns.PlanIsLawful` | packages/application/src/services/promotion-orchestrator-service.ts:180-265 | a plan is a lawful change of the relation as the files read it |
| `SerialRuns.PromotionLeads` | packages/application/src/services/promotion-orchestrator-service.ts:180-267 | a planned promotion is processed without error, and reading the files afterwards shows exactly the planned change; every canonical file can still be read |
| `SerialRuns.PromoteKeepsInv` | packages/application/src/services/promotion-orchestrator-service.ts:180-267 | one promotion, planned and processed to its end, keeps the vault sound: files readable, relation mirrored and ranked, drafts, rows and indexes in step, whatever the texts hold |
| `SerialRuns.NoRivalIff` | packages/application/src/services/promotion-orchestrator-service.ts:484-511 | a plan replaces every current rival exactly when each current note that conflicts with the new one, as its file will read, is matched by the draft's own fields |
| `SerialRuns.PromotionKeepsOneCurrentIff` | packages/application/src/services/promotion-orchestrator-service.ts:493-510 | the exact condition for each promotion on each vault: it leaves one current note per key exactly when every note conflicting with the new one as read is found under the draft's own fields |
| `VaultRuns.PlainPromotionKeepsOneCurrent` | packages/application/src/services/promotion-orchestrator-service.ts:493-510 | a promotion of a draft whose fields, as its file reads, are plain and whose project is trimmed leaves one current note per key |
| `PromotionResult.PromotionLeaves` | packages/application/src/services/promotion-orchestrator-service.ts:180-267 | after a promotion, planned and processed to its end: the draft's file, as it reads, and the draft's row are promoted, dated today and not current, everything else as it was read; the event names the draft, the new note and exactly the notes that were current before and are superseded now; the new note holds the draft's text under its trimmed fields, with the state tags of a promoted note; and each replaced file holds what was read from it, marked as superseded by the new note |
| `SnapshotResult.SnapshotIsFiled` | packages/application/src/services/canonical-note-service.ts:129-156 | a promotion to the current state also files a snapshot of the new note, under a path made of its project and title, that names the note, repeats what it says and is not current itself |
| `PromotionResult.PlannedIff` | packages/application/src/services/promotion-orchestrator-service.ts:90-232 | on a sound vault, where every canonical file can be read, a promotion is planned exactly when its draft is found and valid, no standing note of the corpus holds its text, and, where it is to become the current state, it belongs to the context brain and is no snapshot |
| `PromotionResult.DuplicateIsRefused` | packages/application/src/services/promotion-orchestrator-service.ts:141-177 | a text that has just been promoted is refused when it is to be promoted again in the same corpus, whichever draft it comes in |
| `PromotionResult.RowsShowNotes` | packages/application/src/services/canonical-note-service.ts:180-205 | on a sound vault the row of every canonical file shows the record last written to it, field by field |
| `Slugs.SlugIsRuns` | packages/application/src/services/promotion-orchestrator-service.ts:592-598 | a slug is the runs of letters and digits of the folded text with one dash between any two, whatever stands between and around them |
| `VaultRuns.SerialRunInvariant` | packages/application/src/services/promotion-orchestrator-service.ts:180-267 | over every serial run in which drafts are created, edited by hand and promoted, whatever their texts: every canonical file can be read, supersedes and supersededBy mirror each other and lead to later notes, rows and indexes are those of the records last written; and when every promoted draft has plain keys, no two current notes of one corpus, type and project share a title or a scope |
| `TwoCurrent.UnplainKeysLeaveTwoCurrent` | packages/application/src/services/promotion-orchestrator-service.ts:493-510 | that condition is necessary: for every draft whose stored file shows a key with an escape, the run that creates it and one differing in scope or title and promotes both is allowed and ends with two current notes whose files read the same key |
| `TwoCurrent.StoredKeysArePlainIff` | packages/application/src/services/note-validation-service.ts:107-158 | a draft made by the draft service has plain keys exactly when the type and the trimmed project, title and scope it was asked for hold no quotation mark, backslash or control character: a condition on the caller's own fields |
| `TwoCurrent.QuotedTitleLeavesTwoCurrent` | packages/application/src/services/promotion-orchestrator-service.ts:493-510 | such a run with everything given: two drafts titled Use "strict" mode, created and promoted on an empty vault, end as two current notes |
| `TwoCurrent.PromotingBothIff` | packages/application/src/services/promotion-orchestrator-service.ts:484-511 | promoting two staged drafts on a vault without notes: one current note per key exactly when the first, as its file reads, is no rival of the second or is found under the second draft's fields |
| `TwoCurrent.UntrimmedProjectLeavesTwoCurrent` | packages/application/src/services/promotion-orchestrator-service.ts:502-504 | the other half of that condition: two drafts of any one frontmatter, any blanks put around the second's project in its file, both promoted, end as two current notes under one key |
| `StaleReplay.StaleReplayIff` | packages/application/src/services/promotion-orchestrator-service.ts:317-341 | a payload planned on any sound vault and replayed after any further run that drew other names: the replay goes through, and leaves one current note per key exactly when each current rival of its note, as the files then read, lies at a path the payload overwrites |
| `TwoCurrent.StaleReplayLeavesTwoCurrent` | packages/application/src/services/promotion-orchestrator-service.ts:317-341 | a concrete run: two drafts created, both promotions planned, the second processed and then the first one's outbox entry replayed; the replay succeeds, and both notes are current under one key exactly when their keys as read are rivals, as they are for drafts of one frontmatter |
| `VaultRuns.IndexesAgree` | packages/infrastructure/src/fts/sqlite-fts-index.ts:31-83 | a chunk is in the full-text rows exactly when it is in the chunk rows, and exactly when it is a chunk of the record last written for its note |
| `VaultRuns.SearchSkipsExactlySuperseded` | packages/infrastructure/src/fts/sqlite-fts-index.ts:85-126 | a matching chunk is dropped from a search without includeSuperseded exactly when its note, as its file reads, is superseded |
| `VaultIndex.IndexedAsReadIff` | packages/application/src/services/promotion-orchestrator-service.ts:372-380 | the chunks indexed for a note are those of chunking its file as it reads exactly when title, type, scope, tags and date need no escape and no optional date is empty, for bodies that read back as themselves |
| `VaultIndex.BodySettledIff` | packages/infrastructure/src/vault/frontmatter-codec.ts:55-67 | a body reads back as itself exactly when it has no CRLF and no outer white space |
| `VaultIndex.WalksFindTheFiles` | packages/infrastructure/src/sqlite/sqlite-metadata-control-store.ts:299-333 | after every serial run, under the real chunker, walking the stored rows from any chunk of any note finds exactly the neighbouring chunks of the record last written, in order; of the file as it reads wherever its shown fields are plain and its body settled |
| `PatchFiles.ParsePatchManifest` | runtimes/local_experts/utils/file_ops.py:169-180 | the loop lists the manifest of a patch |
| `PatchFiles.ManifestIsFirstAppearances` | runtimes/local_experts/utils/file_ops.py:169-180 | the manifest holds every file that a +++ header names, deletions excepted, each once, in order of first appearance |
| `PatchHeaders.HeaderNamesIff` | runtimes/local_experts/utils/file_ops.py:174-178 | a line names a file exactly when it is printed as the mark, blanks, the name with or without the prefix b/, blanks, and possibly a tab and anything after it; the name is then the one printed |
| `PatchHeaders.HeaderRoundTrip` | runtimes/local_experts/utils/file_ops.py:174-178 | the headers that git prints, with or without a time stamp, and headers without a prefix give back their names; deletions and all other lines give none |
| `PatchHeaders.ManifestIsPrinted` | runtimes/local_experts/utils/file_ops.py:169-180 | the manifest holds exactly the names printed in the headers, each once, in the order in which they are first printed |
| `PatchHeaders.SplitTakesOneLine` | runtimes/local_experts/server.py:171-172 | splitting a text takes off one line at a time, whatever ends it, and keeps a last line without an end |
| `PatchHeaders.GitPatchIsRead` | runtimes/local_experts/utils/file_ops.py:169-180 | of a patch as git prints it the tool reads the files that stay, but no deleted one, and besides those only names that an added line continues its plus sign to; and it counts every added or removed line except those that continue their own sign |
| `PatchFiles.SnapshotFiles` | runtimes/local_experts/utils/file_ops.py:183-198 | saves the content of each path, or that there is no file |
| `PatchFiles.RollbackRestoresIff` | runtimes/local_experts/utils/file_ops.py:201-209 | writing a snapshot back restores the workspace byte for byte exactly when nothing outside the saved paths has changed |
| `PatchTool.Repository.RollbackFiles` | runtimes/local_experts/utils/file_ops.py:201-209 | writes the entries back in order and stops at the first that fails |
| `PatchTool.Repository.ApplyUnifiedDiff` | runtimes/local_experts/server.py:81-226 | tries the gates in their order, then saves, dry-runs, applies, and rolls back when the application fails |
| `PatchTool.RefusalLeavesFiles` | runtimes/local_experts/server.py:183-221 | a patch that is not applied leaves every file as it was unless the tool's own rollback fails; an applied one leaves what git left, with a snapshot of what was there |
| `PatchTool.DirtyIff` | runtimes/local_experts/server.py:201-215 | a call that does not apply its patch leaves the workspace changed exactly when git failed after the dry run and the rollback stopped at an entry that, or a later one, still differed |
| `PatchLoop.EscalationController.Handle` | runtimes/local_experts/escalation_controller.py:102-302 | the controller does what the loop function says, on a workspace changed in place |
| `PatchLoop.EscalationController.Repair` | runtimes/local_experts/escalation_controller.py:137-300 | the repair loop: roll back, ask, extract, apply, validate, and give up with a rollback when the attempts are spent |
| `PatchVerdicts.DeclinedIff` | runtimes/local_experts/escalation_controller.py:103-110 | a request is declined exactly when its preflight finds it too risky or it is to change files without a root; it then escalates with no attempt made and every file as it was, the same whatever worker, git and validators would do |
| `PatchVerdicts.ReadingPassesOn` | runtimes/local_experts/escalation_controller.py:118-135 | a task that only reads reports the worker's own verdict after one question, with every file as it was: which of the four reports it gives, for every request |
| `PatchVerdicts.VerdictOfLastAttempt` | runtimes/local_experts/escalation_controller.py:137-281 | for every script there is exactly one last attempt, reached when all patches before it were applied, rejected and undone, and what the worker, the gates, git and the rollback do in it is what is reported, with the records of all attempts |
| `PatchLoop.FailureLeavesWorkspaceIff` | runtimes/local_experts/escalation_controller.py:137-300 | for every behaviour of worker, validators and a git confined to the named files: a result that is neither a success nor CRITICAL leaves the workspace byte-identical, except exactly when git fails half-way and the patch tool's own rollback stops before all is written back |
| `PatchLoop.SuccessIff` | runtimes/local_experts/escalation_controller.py:246-259 | of all tasks that change files, success is reported exactly when nothing in the preflight speaks against it, a root is there, and the very first patch is applied and accepted by every validator; then one attempt was made, that patch is all that changed, and no failed validation is recorded |
| `PatchLoop.RepairNeverHelps` | runtimes/local_experts/escalation_controller.py:246-250 | since failed validations stay on record, allowing more repairs neither turns a failure into a success nor changes a success |
| `PatchLoop.EveryRepairIsSpent` | runtimes/local_experts/escalation_controller.py:143-281 | when the first patch is rejected and all can be applied and undone, every allowed repair is spent, whatever the validators say of it, the report holds the records of all attempts, and the workspace is as before |
| `PatchLoop.AttemptsBounded` | runtimes/local_experts/escalation_controller.py:143-162 | the worker is asked at most max_local_repair_attempts + 1 times, and the loop runs out by its own test only when that limit is negative |
| `PatchLoop.CriticalIff` | runtimes/local_experts/escalation_controller.py:145-155 | with a git confined to the named files, CRITICAL is reported exactly when some validator rejects the first patch and, among attempts whose patches all land, one cannot be undone while all before it could; the attempt reported is that one |
| `PatchLoop.BrokenToolRollbackIsNotCritical` | runtimes/local_experts/server.py:208-215 | git failing half-way and the tool's rollback failing too comes out as an ordinary escalation, although a file has lost its content |
| `ContentLength.FramingRoundTrip` | apps/brain-mcp/src/main.ts:63-97 | for every list of messages and every way of cutting the stream, exactly those messages are delivered in order and the buffer ends empty (Base Protocol of LSP 3.17) |
| `ContentLength.AlwaysAPrefix` | apps/brain-mcp/src/main.ts:69-97 | after any first part of the stream in any pieces the reader has not failed, has delivered a prefix of what was sent, and holds exactly the bytes that follow |
| `ContentLength.FragmentationIsInvisible` | apps/brain-mcp/src/main.ts:55-60 | for any stream of bytes at all, the cutting into pieces makes no difference |
| `ContentLength.DrainContinues` | apps/brain-mcp/src/main.ts:69-97 | draining again after more bytes continues what draining before began, errors included |
| `ContentLength.DrainIsDone` | apps/brain-mcp/src/main.ts:69-97 | a drained buffer holds no complete message |
| `ContentLength.HeaderRoundTrip` | apps/brain-mcp/src/main.ts:397-404 | the length that send prints is the length that the pattern reads, whatever header lines follow |
| `ContentLength.DecimalRoundTrip` | apps/brain-mcp/src/main.ts:403-403 | reading the printed decimal gives the number back |
| `ContentLength.LeftmostDecides` | apps/brain-mcp/src/main.ts:397-404 | the leftmost place where the field can be read decides, and no place means no length |
| `FrameHeaders.LengthIff` | apps/brain-mcp/src/main.ts:397-404 | on any header at all, a length is read at a place exactly when a line starts there with the field in letters of either case, then white space, digits and the end of the line; it is then the number printed |
| `FrameHeaders.HeaderEndIff` | apps/brain-mcp/src/main.ts:71-74 | on any bytes a header ends at the first empty line, and without one the reader waits |
| `ContentLength.ContentLengthTransport.OnData` | apps/brain-mcp/src/main.ts:55-60 | one chunk of input changes the reader as feeding it does |
| `ContentLength.ContentLengthTransport.DrainBuffer` | apps/brain-mcp/src/main.ts:69-97 | the loop over the buffer computes the drain function |
| `ContentLength.ContentLengthTransport.Send` | apps/brain-mcp/src/main.ts:63-67 | appends one frame to the output |
| `FrontmatterRoundTrip.RoundTripIff` | packages/infrastructure/src/vault/frontmatter-codec.ts:27-67 | a note comes back with its own frontmatter exactly when no string needs escaping, no scalar holds a line separator and no optional field is empty; it can be read at all exactly when no scalar holds a line separator; the body comes back trimmed with its line ends converted |
| `FrontmatterRoundTrip.ReadOfWritten` | packages/infrastructure/src/vault/frontmatter-codec.ts:55-67 | for every frontmatter and body, what reading a stored note gives, escapes left in place |
| `FrontmatterRoundTrip.RewriteIsStableIff` | packages/infrastructure/src/vault/frontmatter-codec.ts:27-67 | reading a stored note and writing it again gives the same text exactly when the stored body has no CRLF left and does not begin with white space |
| `LineEnds.LaterRewritesAreStableIff` | packages/infrastructure/src/vault/frontmatter-codec.ts:27-67 | once a note without escapes has been read and written, later cycles reproduce the text exactly unless the body first written has, between visible characters, a line feed with four carriage returns right before it |
| `LineEnds.FourReturnsAreUnstable` | packages/infrastructure/src/vault/frontmatter-codec.ts:27-67 | such a body: the text of a, four carriage returns, a line feed and b still changes with the second cycle |
| `FrontmatterRoundTrip.UnescapedIsKept` | packages/infrastructure/src/vault/frontmatter-codec.ts:154-169 | without escapes, reading back changes nothing but empty optional fields, which become absent |
| `FrontmatterRoundTrip.EscapesNeverSettle` | packages/infrastructure/src/vault/frontmatter-codec.ts:138-148 | a string with an escaped character grows with every cycle, because quotes are stripped but escapes are not undone |
| `FrontmatterCodec.StringSurvivesIff` | packages/infrastructure/src/vault/frontmatter-codec.ts:138-148 | a quoted string is read back as itself exactly when no character of it is escaped |
| `FrontmatterCodec.ParseFrontmatterBlock` | packages/infrastructure/src/vault/frontmatter-codec.ts:73-120 | the loop over the lines computes the block's values |
| `FrontmatterCodec.ReadItems` | packages/infrastructure/src/vault/frontmatter-codec.ts:89-96 | the inner loop takes exactly the item lines that follow |
| `FrontmatterRoundTrip.ReadFields` | packages/infrastructure/src/vault/frontmatter-codec.ts:73-101 | reading the printed lines of all fields stores each field as read back, or fails when one is unreadable |
| `FrontmatterRoundTrip.FenceAfterBlock` | packages/infrastructure/src/vault/frontmatter-codec.ts:57-57 | the shortest block that a fence can close is the whole printed block |
| `Headings.HeadingIff` | packages/application/src/services/chunking-service.ts:105-105 | a line is taken for a heading exactly when the pattern can read it, and every reading gives the same level |
| `HeadingText.HeadingTextIff` | packages/application/src/services/chunking-service.ts:104-109 | a line is a heading of a given level and text exactly when it reads so: the text runs from the first visible character after the hashes to the last, and hashes at its end belong to it unless white space sets them off, in which case the text ends before that white space |
| `Headings.PushHeading` | packages/application/src/services/chunking-service.ts:110-117 | the loop that closes headings leaves exactly the headings visible at the new one |
| `Headings.VisibleIncreases` | packages/application/src/services/chunking-service.ts:113-117 | the levels of the open headings increase strictly |
| `Headings.VisibleAppend` | packages/application/src/services/chunking-service.ts:113-117 | a new heading hides exactly the open ones of its own or a deeper level |
| `Headings.ExtractSections` | packages/application/src/services/chunking-service.ts:83-131 | the loop cuts the lines at the headings, drops blank sections, and falls back to the whole text |
| `Chunking.ChunkHeadingPath` | packages/application/src/services/chunking-service.ts:118-138 | the chunks belong to sections of the body, in their order: each chunk's path is the title and exactly those headings, as they are read off the lines up to its section's end, that no later one of the same or a higher rank has closed; its text is part of that section, and its visible characters come after all that precede the section and before all that follow it |
| `Chunking.ChunksKeepInk` | packages/application/src/services/chunking-service.ts:78-196 | all chunk texts together hold the visible characters of the body, in order, none lost and none repeated |
| `Blocks.PackIsGreedy` | packages/application/src/services/chunking-service.ts:140-164 | packing keeps all blocks in order, every chunk fits the target or is a single block, and no chunk could have taken the first block of the next |
| `Blocks.SplitIsGreedy` | packages/application/src/services/chunking-service.ts:140-164 | the texts of a section are its blocks, packed greedily and joined by blank lines |
| `Blocks.SplitLargeSection` | packages/application/src/services/chunking-service.ts:140-164 | the loop over the blocks computes the packed texts |
| `Blocks.PartitionIntoBlocks` | packages/application/src/services/chunking-service.ts:166-196 | the loop over the lines computes the blocks |
| `Blocks.BlankLineSeparates` | packages/application/src/services/chunking-service.ts:182-192 | a blank line outside a code fence always separates blocks |
| `Blocks.FenceStaysWhole` | packages/application/src/services/chunking-service.ts:166-196 | lines of one section whose only blank ones stand inside a code fence make one block |
| `Fences.FencedCodeStaysWholeIff` | packages/application/src/services/chunking-service.ts:83-131 | a fenced piece of a note's section lies in one block exactly when no line inside it is taken for a heading: the section pass comes first, so a comment line that starts with a hash cuts fenced code |
| `Blocks.SplitKeepsInk` | packages/application/src/services/chunking-service.ts:140-196 | splitting a section keeps its visible characters in order |
| `Chunking.ExtractSectionSeeds` | packages/application/src/services/chunking-service.ts:78-138 | the sections are split one after the other, each text with its section's path |
| `Chunking.ChunkCanonicalNote` | packages/application/src/services/chunking-service.ts:24-64 | the chunk records of a note, linked to their neighbours |
| `Chunking.ChunksAreLinked` | packages/application/src/services/chunking-service.ts:59-63 | chunks have distinct ids and name their predecessor and successor |
| `ChunkRecords.ChunksDescribeNote` | packages/application/src/services/chunking-service.ts:24-57 | there is one chunk for each part of the body, in order, and it shows that part, its place and the note's own fields; its parent is the heading right above its last one |
| `ChunkRecords.CurrentOnDays` | packages/application/src/services/chunking-service.ts:225-257 | a note's chunks are superseded whenever it is, and current exactly on the days from its first to its last, as long as it is the current state and at most 180 days old |
| `ChunkRecords.CurrentDaysAreAdjacent` | packages/application/src/services/chunking-service.ts:225-257 | the days on which a chunk is current follow one another without a gap |
| `Chunking.ChunkerIsGood` | packages/application/src/services/chunking-service.ts:24-64 | the chunker meets what the stores and the promotion theorems ask of one |
| `Neighborhood.WindowIsSlice` | packages/infrastructure/src/sqlite/sqlite-metadata-control-store.ts:299-333 | from chunk i of a note with synced chunks a walk of radius r returns exactly the chunks from i - r to i + r, in order |
| `Neighborhood.WindowIsBounded` | packages/infrastructure/src/sqlite/sqlite-metadata-control-store.ts:305-331 | whatever the links say, even in a circle, a window holds its centre, repeats no chunk and has at most 2r + 1 chunks |
| `Neighborhood.GetChunkNeighborhood` | packages/infrastructure/src/sqlite/sqlite-metadata-control-store.ts:299-333 | the two loops walk the links back and forth |
| `Expansion.ExpandNeighborhood` | packages/application/src/services/context-packet-service.ts:63-120 | the loop over the candidates and their neighbourhoods hands out the expansion up to the cap |
| `Expansion.ExpansionIsComplete` | packages/application/src/services/context-packet-service.ts:63-120 | no key comes twice; every candidate is reached, and when no earlier one has led to it, so is every chunk next to it; each item stands for such a chunk at its candidate's rank, or is a candidate that leads to no chunk; a further candidate only adds at the end |
| `ContextBudget.FirstFittingLimits` | packages/application/src/services/context-packet-service.ts:286-394 | for every input the loop ends with the packet of the first limits in the shrink order that fit, its estimate being the true cost, or with the clipped summary when none fit |
| `ContextBudget.BudgetIsKept` | packages/application/src/services/context-packet-service.ts:286-399 | the estimate never exceeds maxTokens, sources, excerpts and constraints keep to their limits, and with maxTokens >= 1 the true cost is the estimate or at most maxTokens + 2 |
| `PacketText.EstimateCoversTexts` | packages/application/src/services/context-packet-service.ts:267-283 | for every input with maxTokens >= 1, all characters of the packet's summary, constraints, uncertainties and excerpts and of its sources' ids, paths and headings together are at most four for each estimated token, hence at most 4 * maxTokens, on the normal exit and on the clipped one; and four times the estimate exceeds them by at most four for each text and the separators |
| `PacketShows.EnforcedShows` | packages/application/src/services/context-packet-service.ts:300-345 | the first limits that fit show, of the best candidates: every source once, their qualifiers and sentences without repetition in order of first appearance, the excerpts of those with text, and the doubt about the answer; and when none fit, the beginning of the summary alone |
| `PacketContents.TidyIsWords` | packages/application/src/services/context-packet-service.ts:192-195 | normalising white space leaves the words of a text with one blank between any two, whatever stands between and around them |
| `PacketContents.ExcerptIs` | packages/application/src/services/context-packet-service.ts:192-200 | an excerpt is the normalised text when it fits, and otherwise its beginning and three dots that fill the length exactly |
| `PacketContents.SentencesAre` | packages/application/src/services/context-packet-service.ts:240-250 | a summary is cut behind every full stop, exclamation mark and question mark that white space follows, and nowhere else |
| `ContextBudget.TighterIsNext` | packages/application/src/services/context-packet-service.ts:348-373 | excerpts go first, then sentences, sources, constraints and uncertainties, one at a time: the limits after k steps in closed form |
| `ContextBudget.EnforceContextBudget` | packages/application/src/services/context-packet-service.ts:286-394 | the loop over the limit variables computes the enforced packet |
| `FairSelection.SelectionIsFair` | packages/application/src/services/hierarchical-retrieval-service.ts:283-317 | the selection has min(limit, n) items, takes a prefix of each scope's bucket, and no scope is more than one ahead of another that has items left |
| `FairSelection.SelectHierarchicalCandidates` | packages/application/src/services/hierarchical-retrieval-service.ts:283-317 | the rounds over the buckets deal the interleaving of the scopes up to the limit |
| `FairSelection.FillBuckets` | packages/application/src/services/hierarchical-retrieval-service.ts:287-298 | every candidate joins the bucket of its scope, scopes in order of first appearance |
| `FairSelection.BucketIs` | packages/application/src/services/hierarchical-retrieval-service.ts:287-298 | a bucket holds exactly the candidates whose scope is the bucket's own but for outer white space, those without a scope in one of their own, in the order in which they were ranked |
| `FairSelection.ScopesAre` | packages/application/src/services/hierarchical-retrieval-service.ts:287-298 | the scopes are those of the candidates, in the order in which they first appear |
| `FairSelection.InterleavingIsComplete` | packages/application/src/services/hierarchical-retrieval-service.ts:300-314 | the interleaving holds every candidate once |
| `ContextFence.BoundedBlockIsFenced` | packages/application/src/services/agent-context-assembly-service.ts:227-248 | however small the budget, the result starts with the whole opening tag, has exactly one closing tag, at its end, and at most max(128, 4 * maxTokens) characters |
| `ContextFence.BlockIsFenced` | packages/application/src/services/agent-context-assembly-service.ts:143-210 | whatever the retrieved texts hold, the only closing tag of the block is its last line |
| `FenceTexts.BlockShowsTexts` | packages/application/src/services/agent-context-assembly-service.ts:143-210 | the block leaves nothing out: summary, verdict and confidence, every piece of evidence with path, heading and id, every constraint, excerpt and uncertainty, and every hit of the session recall stand in it escaped, one after the other in this order |
| `FenceTexts.SectionsAreHeaded` | packages/application/src/services/agent-context-assembly-service.ts:153-205 | a section stands in the block exactly when it has something to say |
| `ContextFence.EscapeIsMap` | packages/application/src/services/agent-context-assembly-service.ts:216-221 | three successive replacements equal one replacement of each character |
| `ContextFence.EscapeIsSafe` | packages/application/src/services/agent-context-assembly-service.ts:216-221 | escaped text has no angle bracket and the original can be recovered |
| `ContextFence.BuildContextBlock` | packages/application/src/services/agent-context-assembly-service.ts:143-210 | the pushes produce the lines of the block |
| `Authorization.DecisionIff` | packages/orchestration/src/root/actor-authorization-policy.ts:324-788 | with distinct token strings: an operation is accepted by a token exactly when inspecting it for the same instant, transport and scope finds it valid and role, identity, source and registry limits hold; this agreement holds for every supplied token except exactly those that match a configured one and also verify as issued to this actor, are in force, not revoked and within all limits |
| `Entitlement.AcceptedIff` | packages/orchestration/src/root/actor-authorization-policy.ts:575-788 | said by role and without the order of the checks: an operation is accepted exactly when the actor names itself and its source, its role may do what is asked, the registry entry's limits hold with the bounds of windows included, and it shows an issued token that holds, or a configured one where some are configured, or where none is comes from inside or unenforced |
| `Entitlement.TokenReason` | packages/orchestration/src/root/actor-authorization-policy.ts:725-788 | a registered actor who is refused for its token is told it is out of date only if it is configured, and wrong only if it is not |
| `Entitlement.InspectionIff` | packages/orchestration/src/root/actor-authorization-policy.ts:324-500 | blank tokens are unknown, configured ones are judged by the first entry and credential that hold them, and only others by what they verify to; when each of them is valid |
| `Authorization.StaticTokenHidesIssued` | packages/orchestration/src/root/actor-authorization-policy.ts:344-346 | a static token that has expired but verifies as issued is accepted, although inspection finds it invalid |
| `Authorization.RepeatedTokenDisagrees` | packages/orchestration/src/root/actor-authorization-policy.ts:958-973 | a token configured twice is accepted by its second credential, although inspection stops at the first |
| `Authorization.EnforcedNeedsToken` | packages/orchestration/src/root/actor-authorization-policy.ts:608-629 | while authorisation is enforced, nobody outside the process is accepted without a token |
| `Authorization.RevocationIsMonotone` | packages/orchestration/src/root/actor-authorization-policy.ts:205-221 | revoking more tokens accepts no operation on an issued token that was not accepted before, refuses all that was refused before, and finds no token valid that was not |
| `Authorization.RevokedIsRefused` | packages/orchestration/src/root/actor-authorization-policy.ts:216-221 | a revoked token is neither accepted as issued nor found valid; while nothing is enforced, an unregistered actor who shows it still passes, as one without a token |
| `Authorization.ActorAuthorizationPolicy.RevokeIssuedTokenId` | packages/orchestration/src/root/actor-authorization-policy.ts:205-214 | adds the trimmed id to the revoked ones and tells whether it is new; a blank id raises |
| `Authorization.NormalizeTokenCredentials` | packages/orchestration/src/root/actor-authorization-policy.ts:821-859 | drops blank tokens, trims the others and reads their windows; an unreadable date raises |
| `Authorization.NormalizedAreConfigured` | packages/orchestration/src/root/actor-authorization-policy.ts:821-859 | every normalised token is trimmed, not empty, and comes from a configured one |
| `Entitlement.NormalizedKeeps` | packages/orchestration/src/root/actor-authorization-policy.ts:821-859 | normalising fails exactly when a token that is not blank has a date that cannot be read; otherwise it keeps exactly the tokens that are not blank, in order, each with its window |
| `Refresh.OneOpenDraftPerNote` | packages/application/src/services/temporal-refresh-service.ts:40-290 | over every sequence of refresh calls, single or batched, no canonical note ever has two open refresh drafts |
| `Refresh.BatchAccounts` | packages/application/src/services/temporal-refresh-service.ts:194-290 | drafts and skipped make up the candidates considered, created and reused make up the drafts, a note listed twice is created at most once, and the drafts grow by the created ones and those stored by failed calls |
| `Refresh.CallKeepsOne` | packages/application/src/services/temporal-refresh-service.ts:80-151 | one call adds no second open draft for any note, removes none, and when it succeeds the note has an open draft, reused exactly when there was one |
| `Refresh.RefreshIff` | packages/application/src/services/temporal-refresh-service.ts:40-192 | a call succeeds exactly when its caller may refresh, the row is that of a current promoted note that is due, its file is there, and an open draft exists or a new one can be stored; it names the first state that applies and reuses the open draft updated last, the smallest id among equals; a draft stored without its row stays behind |
| `Refresh.BatchOrder` | packages/application/src/services/temporal-refresh-service.ts:216-245 | without a choice of states expired notes come first and those that expire soon last; the limit counts from the front, or from the back when it is negative; what it cuts off is reported as left over; a batch is refused exactly when its caller may not refresh or nothing is listed |
| `Refresh.ClosingFrees` | packages/application/src/services/temporal-refresh-service.ts:292-311 | closing a draft frees its note for the next refresh and no other |
| `Refresh.TemporalRefreshService.CreateRefreshDraft` | packages/application/src/services/temporal-refresh-service.ts:40-192 | forbids, looks up the candidate, the note and an open draft, and creates one only when there is none |
| `Refresh.TemporalRefreshService.CreateRefreshDraftBatch` | packages/application/src/services/temporal-refresh-service.ts:194-290 | the loop over the chosen candidates, with the deferred ones skipped |
| `Refresh.ListedIffStated` | packages/infrastructure/src/sqlite/sqlite-metadata-control-store.ts:934-997 | the report lists a note exactly when the single lookup gives it a state, and lists it under that state too, except that a note whose end date is an empty string is listed without having one |
| `Refresh.FindExisting` | packages/application/src/services/temporal-refresh-service.ts:292-311 | finds an open draft for the note in its corpus whenever there is one, and then the one updated last, with the smallest id among equals |

## Left out

- Vector index, embeddings and context representations: they fail softly or carry timestamps; agreement is claimed for chunk rows and full-text rows only.
- Digests and random ids: SHA-256 is injective, written here as what is hashed, and UUIDs are fresh; HMAC signatures are the given token verifier.
- Overlapping transactions on the shared SQLite connection: every port call is one atomic step.
- Outbox bookkeeping beyond state, attempts and order (`last_error`, `updated_at`), and audit entries.
- Actor roles, draft revisions and field validation of a promotion request: the verdict of the validator and the tags it hands back are parameters of the plan.
- Path normalisation of the vault: note paths are in normal form.
- Sorting of snapshot tags: the tags are the same, their order is not claimed.
- Lower-casing: ASCII letters only; other letters are compared as they are.
- UTF-16: characters are code points, so lengths and slices of texts with characters beyond the Basic Multilingual Plane are counted differently, and lone surrogates do not occur.
- Dates are compared character by character; `localeCompare` of dates and ids is the same order for the digits and lower-case letters they consist of.
- `git apply`, linters, test runners and the model: parameters; git is confined to the files named in `+++` headers where a theorem says so, which deletion patches are not.
- Directories in the workspace, and the JSON bridge between controller and tool: files are a map from paths to bytes, and the tool is called directly.
- The preflight of the repair loop and the extraction of a patch from a worker's answer: their outcomes are parameters; the failure bundle that is added to the context changes only what the worker sees.
- JSON syntax of framed messages: which bodies parse is a parameter, and bodies are delivered as bytes; a header is decoded by any decoder that keeps ASCII; lengths are not rounded.
- Chunk summaries, entities and qualifiers, which are extracted by patterns; they enter context packets as given texts.
- Confidence, packet types and escalation in retrieval: easy branches around the budgeted packet.
- The floating-point shares of the context budget are taken as exactly seven and three tenths.
- Concurrent refresh calls: calls are sequential; the content of a refresh draft beyond what makes it one is not modelled.
- Registry summaries, corpora of issued tokens, and error texts of the authorisation policy.
- Files that nobody wrote through the repositories: a file of the vault is always the text of some record, so hand edits of drafts are those that such a text can express, and edits of canonical files by hand are not modelled.
- Draft ids given by callers are taken to be plain words like the generated ones, and so are note types in the serial runs only where a theorem says so; the draft's own list of predecessors is not normalised, since a promotion overwrites it.
- Chunk ids are digests of a heading path joined by a separator; here the path itself is hashed, so two paths that join to one string count as different.
