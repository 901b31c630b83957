# cezar: models and proofs

This project models the parts of the `cezar` repository that must be right when things happen at the same time, or stop half-way, and proves what they promise. It also proves the sequential algorithms beside them. The models follow the code branch by branch; where code and documentation differ, the code is followed and the difference is listed under "Findings". Nothing here runs the original program.

`dafny verify dfyconfig.toml` checks everything.

## What is modelled

| part | modules | form |
|---|---|---|
| The worktree mutation lock: a bakery lock over one claim file per keeper | `WorktreeLock`, `LockRuns`, `LockProgress`, `LockOverlap`, `LockNumbers`, `ClaimDirectory`, `NameOrder` | a state machine whose steps are what runs between two awaits, file system events and process events; the scanning loops as methods of a class over a directory that others change |
| The worktree manifest: a write-ahead record of what cezar wrote into a worktree | `WorktreeManifest`, `ManifestTable`, `ManifestWrites`, `ManifestRuns`, `ManifestSession`, `ManifestRecovery`, `ManifestOlder` | classes for the worktree and a writer's view, each method proved against a function; runs over those functions, and the methods shown to carry them out |
| The identity of a path: a file tree as a stream of records | `TreeEncoding` | functions, with a decoder written for the proof |
| The Windows watch over an autosave command | `WindowsAutosave`, `WindowsProofs`, `WindowsSignals`, `WindowsBounds` | a class over snapshots; a machine of processes with birth, exit and reuse of numbers |
| Stopping a process group on Linux, and the holders of a test environment | `ProcessTable`, `ProcessGroups`, `StopMisses`, `TestEnvHolders` | a process table that changes between any two system calls; methods that make those calls |
| The autosave command and the holders of its worktree | `AutosaveGit`, `AutosaveCommand`, `AutosaveAnswer`, `AutosaveReports`, `AutosaveHolders` | a step function over events and a class of callbacks proved against it, with its answer and its reports told from the events alone; a class for the tracked holders |
| When a schedule fires | `Schedule`, `ScheduleOrder`, `Sweep`, `ZonedTime` | methods for the day walk, proved against a sweep over wall times and that against a definition of firing; the conversion of wall times for any zone |
| JSON objects in a model's answer | `JsonScanner` | the index loop, a scanner over characters, a grammar of printed values |
| The catalog of team skills | `TeamSkills` | a state machine of overlapping loads, and a class for the published list |
| The closure of skills a run needs | `SkillClosure` | the search as a method |
| Writes to one file, one at a time | `WriteQueue` | a state machine of promise callbacks |
| `SKILL.md` files | `SkillMarkdown`, `SkillForms`, `SkillText` | printer and parser, the parser's loops as methods |

### Assumptions

- Lock: a rename is atomic, a directory listing holds every file that is there from its beginning to its end (and possibly others), claim names are unique, the kernel gives out no number that names a process group with a member, zombies included.
- Manifest: the digest is injective on streams, so an identity carries the stream itself. Reading a path again and placing, and inspecting and deleting, are each one step for the agent, which may edit at any other time.
- Windows: a snapshot shows rows of one instant, parent numbers persist, births are strictly ordered, and until its exit is reported the leader's number names the leader. For the guard: listings are complete, every creation date is known, a recorded exit time is no earlier than the exit, and the leader's number is not used again; for whom a stop reaches, also that the leader's exit, once reported, stays reported.
- Linux groups: membership is inherited by fork or begun by a new group's leader, a process sent SIGKILL runs no more code, and listings of `/proc` hold every process that is there throughout. For the proof by two listings: each listing is of one instant, and no number is reused between them.
- Schedules: a zone's offsets are whole seconds and less than a day from UTC, and in the three days around the start of a window none is more than a day below the offset at the start. Whether wall times keep their order is not assumed: it is the exact condition of `Schedule.ListingAscendsIff`.

### Findings

- `LockOverlap.TwoGitsRunTogether`: a Git process that outlives its command runs on after its keeper withdraws, and the Git of another keeper can run beside it. `LockOverlap.OverlapIffLeftBehind` is the exact condition, and `WorktreeLock.GitRunsAlone` holds as long as no keeper takes its command for done with such a process left.
- `LockNumbers.TwinIsReachable`: a stale claim that carries the waiting keeper's own process number counts as alive, and blocks the keeper until it gives up, whatever the two tickets are (`LockNumbers.StaleTwinBlocks`).
- `ManifestOlder.EditIsLostIff`: an entry recorded in the older encoding does not see a `chmod` by the agent, so the file is overwritten or deleted; any other edit of it is kept. With the newer encoding every edit is (`ManifestRuns.OnlyOwnTreesAreLost`).
- `ManifestRecovery.PendingDecides`: a recursive removal or a copy that is cut half-way is kept for good. The comment that each thing a crash leaves is repaired holds for the boundaries of a write, not inside one.
- `ManifestRecovery.SurvivesIffLoaded`: of two entries for one path only the first survives a save, and entries the schema refuses are dropped by it, whoever wrote them. `ManifestRecovery.LoadedEntry` says which entry stays.
- `ProcessGroups.AnswerCanTurnBack`: the answer of `groupRunning` after SIGKILL can go from false to true again, though its comment says it only goes from true to false. `ProcessGroups.AnswerIsTrueIffAnotherRuns` is the exact condition: another group took the number.
- `ScheduleOrder.TwoHoursForwardListsTwice`: where clocks go forward by two hours, an hourly schedule is listed out of order and with instants repeated, though the comment says that none is yielded twice. `Schedule.ListingAscendsIff` is the exact condition and `ScheduleOrder.OneChangeBreaksOrderIff` what it means for a change of the offset. `packages/cezar/src/automations/schedule-runner.ts:506-515` counts missed runs by the length of such lists and takes the last element for the latest.
- `ScheduleOrder.ThreeHoursForwardMissesARun`: the next run is not always the first instant after the given one, as the comment on `nextOccurrence` says. A run whose wall time comes later but whose instant comes earlier is passed over, and never returned by asking again. The exact condition is in `Schedule.NextOccurrence`, for repeated asking in `ScheduleOrder.ARunIsMissedIff`, and for a change of the offset in `ScheduleOrder.NextIsMissedIff`. `packages/cezar/src/automations/schedule-runner.ts:112` and `:532` arm schedules from this value.
- `StopMisses.StopMissesAFork`: the stop of a leader that cannot be verified may report it stopped while a member runs that was forked during the last scan, though its comment says that it does so only once no member runs. `ProcessGroups.StopGroup` says that nothing else is missed.
- `Schedule.LimitIsKeptIffPositive`: with a limit of 0 or less a repeating schedule still lists one occurrence; a `once` schedule lists none.
- `TeamSkills.CalledEarlierMayReplace`: a passive load that was called before a list was published, but reads the generation after it, replaces that list by what the clones hold, and what it shows is not filtered by the sources enabled at that moment. `TeamSkills.PassiveWritesIffNothingNewer` is the exact condition.
- `SkillMarkdown.DescriptionSurvivesIff`: the reader does not undo JSON escapes, so a description with a quote, a backslash or a control character changes on the way through a file; with a Unicode line separator it is lost.

## Model

| member | source | states |
|---|---|---|
| WorktreeLock.MutualExclusion | packages/cezar/src/git-worktree-lock-helper.ts:23-163 | In every reachable state, whatever keepers start, crash, are recovered or scan half-way, two keepers that were admitted and have not withdrawn cannot both still have a process |
| WorktreeLock.GitRunsAlone | packages/cezar/src/git-worktree-lock-helper.ts:140-147 | Git processes of two keepers never run together while none has outlived its command, and the claim of the one that runs is on disk under its own number and says that Git runs |
| LockOverlap.OverlapIffLeftBehind | packages/cezar/src/git-worktree-lock-helper.ts:140-160 | How far that goes: when a keeper takes its command for done (it publishes idle, or the command fails), another keeper's Git can come to run beside a process of that command exactly if such a process is still there |
| LockOverlap.TwoGitsRunTogether | packages/cezar/src/git-worktree-lock-helper.ts:133-160 | It happens: from an empty directory, for any first keeper and number, a run ends with Git processes of two keepers together |
| LockOverlap.NewcomerRunsGit | packages/cezar/src/git-worktree-lock-helper.ts:120-147 | Where no claim answers, a new keeper can publish, choose a ticket over whatever stale claims there are, be admitted and run Git |
| LockOverlap.CanWithdraw | packages/cezar/src/git-worktree-lock-helper.ts:141-160 | After its command a keeper can stop and withdraw at once; whatever its Git left behind runs on without a claim |
| WorktreeLock.LiveClaimStays | packages/cezar/src/git-worktree-lock-helper.ts:52-62 | In any step from any reachable state, a claim disappears only when its own keeper withdraws it or when no member of its process group, zombies included, is left |
| WorktreeLock.FirstComeFirstServed | packages/cezar/src/git-worktree-lock-helper.ts:81-103 | A keeper that had its ticket before another published anything is out (withdrawing, gone or dead) in every later state in which the other is admitted |
| LockProgress.AdmittedAloneIffNothingBlocks | packages/cezar/src/git-worktree-lock-helper.ts:86-103 | A waiting keeper can be admitted by its own steps alone exactly when no claim on disk answers and has priority |
| LockProgress.LeastIsNotBlocked | packages/cezar/src/git-worktree-lock-helper.ts:81-84 | With nobody choosing, the least (ticket, name) among the claims that answer is blocked by none |
| LockNumbers.StaleTwinBlocks | packages/cezar/src/git-worktree-lock-helper.ts:50-62 | In every reachable state, a dead keeper's claim under the number that a waiting keeper now has blocks that keeper, whatever ticket it carries |
| LockNumbers.NoTwinOfAdmitted | packages/cezar/src/git-worktree-lock-helper.ts:50-103 | So no keeper is ever admitted while such a claim is there |
| LockNumbers.TwinIsReachable | packages/cezar/src/git-worktree-lock-helper.ts:50-62 | Such a state is reached, for any two names and any number |
| LockProgress.NoDeadlock | packages/cezar/src/git-worktree-lock-helper.ts:65-103 | When every claim that answers belongs to a keeper that chooses or waits, wherever in its scan each is, their own steps can bring one of them in, even if no dead claim can be removed |
| LockProgress.AllChoose | packages/cezar/src/git-worktree-lock-helper.ts:65-79 | All that choose can get their tickets, one after the other, and no claim stops answering meanwhile |
| WorktreeLock.StepKeepsInv | packages/cezar/src/git-worktree-lock-helper.ts:105-163 | Each single step (publish, begin and end of a listing, read, probe, unlink, busy, idle, crash, reap, reuse of a number) keeps the invariant the results rest on |
| WorktreeLock.LaterKept | packages/cezar/src/git-worktree-lock-helper.ts:65-84 | The ordering step of the bakery: a peer that comes after a keeper, or is bound to choose a later ticket however far its scan is, still does after any step |
| WorktreeLock.ClearedIsLater | packages/cezar/src/git-worktree-lock-helper.ts:94-99 | Whatever a pass has got past without being blocked comes after the keeper whose pass it is |
| ClaimDirectory.Directory.ReadMutationClaim | packages/cezar/src/git-worktree-lock-helper.ts:23-63 | On POSIX a missing claim reads as absent, and so does a well-formed one whose group does not answer; a malformed one is an error; any other is returned with its three fields. No other file changes, and this one goes exactly if it is such a dead claim and can be unlinked |
| ClaimDirectory.Directory.SelectTicket | packages/cezar/src/git-worktree-lock-helper.ts:65-79 | With other keepers at work between any two reads: fails exactly when a peer's claim is malformed when it is read; otherwise the ticket is at least 1, above every claim that was live when it was read, and just above one of them if above 1. Either way what is left is what the reads up to there leave |
| ClaimDirectory.Directory.TurnPass | packages/cezar/src/git-worktree-lock-helper.ts:94-99 | With other keepers at work between any two reads: the pass is free exactly when no listed peer was malformed or had priority when it was read, and otherwise it ended at the first such peer, blocked or failed by it; what is left is what the reads up to there leave |
| ClaimDirectory.Directory.ReadMutationClaimOnWindows | packages/cezar/src/git-worktree-lock-helper.ts:33-51 | On Windows a dead claim is read again, and goes only if it is the same process's and says by then that no Git ran; otherwise it is an error and stays |
| ClaimDirectory.ReadingIsSteps | packages/cezar/src/git-worktree-lock-helper.ts:23-63 | What reading an entry does to the files is what the protocol's read, probe and unlink do to the claims they stand for |
| ClaimDirectory.OnlyDeadClaimsGo | packages/cezar/src/git-worktree-lock-helper.ts:52-79 | While no other keeper works on the directory, the reads of a scan remove exactly the peers' well-formed claims whose group did not answer and that could be unlinked; every other file keeps its content |
| ClaimDirectory.LiveClaimIsLeft | packages/cezar/src/git-worktree-lock-helper.ts:52-79 | So a claim whose group answers at every read is still there afterwards, as it was |
| ClaimDirectory.OthersDoNotCount | packages/cezar/src/git-worktree-lock-helper.ts:73-97 | Files that are no claims, and the keeper's own claim, count for no ticket and stop no pass, and stay |
| ClaimDirectory.StopsIffBlocks | packages/cezar/src/git-worktree-lock-helper.ts:81-99 | An entry stops a pass exactly when, in the state of the protocol at the moment it is read, that claim blocks |
| ClaimDirectory.FreeIffNothingBlocks | packages/cezar/src/git-worktree-lock-helper.ts:93-99 | A free pass over a whole listing of claims that stand still is the protocol's "no claim blocks" |
| TreeEncoding.StreamReadsBack | packages/cezar/src/worktree-manifest.ts:152-185 | The record stream of every tree of links, directories, files, executable files and special files decodes to that tree |
| TreeEncoding.EqualStreamsMeanEqualTrees | packages/cezar/src/worktree-manifest.ts:152-163 | Two trees with one stream are one tree |
| TreeEncoding.IdentityNamesOneTree | packages/cezar/src/worktree-manifest.ts:187-199 | Two paths have equal identities exactly when they hold equal trees |
| TreeEncoding.RecordReadsBack | packages/cezar/src/worktree-manifest.ts:156-163 | Each record is read back from the front of a stream together with what follows it |
| TreeEncoding.RecordsAsWritten | packages/cezar/src/worktree-manifest.ts:156-163 | The letters, lengths and colons of the records of links, directories and special files |
| TreeEncoding.FilesAsWritten | packages/cezar/src/worktree-manifest.ts:156-163 | Those of files, an executable file with a letter of its own |
| TreeEncoding.OldRecordsAsWritten | packages/cezar/src/worktree-manifest.ts:166-172 | The records of the older encoding, with one letter for every file |
| TreeEncoding.OldStreamOfFile | packages/cezar/src/worktree-manifest.ts:165-172 | In the older encoding a single file is told from every other tree, but for its executable bit |
| TreeEncoding.OldStreamOfOneSkill | packages/cezar/src/worktree-manifest.ts:369-387 | So is a directory that holds only one SKILL.md file |
| TreeEncoding.OldStreamsCollide | packages/cezar/src/worktree-manifest.ts:165-172 | In general it is not: for every two names in the order of a listing and any contents, one file can read as two |
| ManifestTable.AddAllFinds | packages/cezar/src/worktree-manifest.ts:103-112 | Loading lists for each path its first acceptable entry and no other |
| ManifestTable.SavedLoadsBack | packages/cezar/src/worktree-manifest.ts:473-486 | A saved manifest loads as the table, the roots and the unknown fields that were saved |
| ManifestTable.LoadedIsDistinct | packages/cezar/src/worktree-manifest.ts:103-138 | A loaded table lists no path twice, the record of an older cezar included |
| ManifestTable.LoadedRoots | packages/cezar/src/worktree-manifest.ts:127-138 | The roots of a manifest and of an older record beside it are loaded, each once and no other |
| ManifestTable.NewerIsNotRead | packages/cezar/src/worktree-manifest.ts:111-126 | A manifest of a later version, and no other, stops a pass; an unreadable one counts as empty |
| ManifestTable.WithKeepsOrder | packages/cezar/src/worktree-manifest.ts:106-110 | Setting an entry leaves the paths in their order and puts a new one at the end |
| ManifestTable.AsSkillsAt | packages/cezar/src/worktree-manifest.ts:130-135 | Each acceptable entry of the older record is taken as it is, for the writer of skills |
| WorktreeManifest.WorktreeFiles.InspectPath | packages/cezar/src/worktree-manifest.ts:353-391 | The verdict on a path, and the one entry that a proof in the older encoding records anew |
| WorktreeManifest.OutsideIsNotWritten | packages/cezar/src/worktree-manifest.ts:354-356 | A path whose parent leads out of the worktree is nobody's to write, whatever the table lists: a write is refused and changes nothing |
| ManifestWrites.EditIsNotOurs | packages/cezar/src/worktree-manifest.ts:353-391 | A tree that the writer's entry names in neither encoding is the agent's; with a pending entry, or one of an unknown form, it is kept |
| ManifestWrites.OldSkillIsOurs | packages/cezar/src/worktree-manifest.ts:369-391 | A directory of one SKILL.md that an entry names in the older encoding is the writer's for a generated skill and for a pending entry whose own identity is in that encoding, and is kept for every other kind |
| ManifestWrites.OursIsRelisted | packages/cezar/src/worktree-manifest.ts:363-391 | What inspects as the writer's is listed under its identity of today, put in the place of the older one that it matched; nothing else in the entry, and no other entry, changes |
| WorktreeManifest.WorktreeFiles.Put | packages/cezar/src/worktree-manifest.ts:417-452 | One write, whole or cut at any boundary, with the agent's edits before the second reading: result, tree, table, manifest file and older record. A path whose parent leads outside is refused, and nothing changes |
| WorktreeManifest.WorktreeFiles.ListPending | packages/cezar/src/worktree-manifest.ts:430-432 | The pending entry names what the write leaves and what it replaces, and is on disk before the path changes |
| ManifestWrites.PendingNamesBoth | packages/cezar/src/worktree-manifest.ts:430-432 | What that entry holds: the new identity, and as alternate the present one exactly if it is another |
| WorktreeManifest.WorktreeFiles.Place | packages/cezar/src/worktree-manifest.ts:434-451 | Reads again, drops the entry when the agent wrote meanwhile, clears, places and records, in that order |
| ManifestWrites.FileIsNeverAbsent | packages/cezar/src/worktree-manifest.ts:417-452 | A file over a file: wherever the write is cut, the path holds the old file or the new one |
| ManifestWrites.OthersAreCleared | packages/cezar/src/worktree-manifest.ts:440-443 | Anything else is removed first, and a write cut there leaves nothing at the path, with the pending entry still listed |
| ManifestWrites.UnfinishedStaysPending | packages/cezar/src/worktree-manifest.ts:440-449 | A link that the system refuses leaves nothing at the path, and a cut after placing leaves the content, both with the pending entry still listed |
| ManifestWrites.MeanwhileIsKept | packages/cezar/src/worktree-manifest.ts:434-439 | What the agent wrote while the entry was staged stays, with no entry for it and every other entry as before |
| ManifestWrites.WholeWriteLeaves | packages/cezar/src/worktree-manifest.ts:440-452 | A write that goes through leaves the content there, changes no other path and lists it under its own identity alone |
| WorktreeManifest.WorktreeFiles.Remove | packages/cezar/src/worktree-manifest.ts:459-466 | Deletes the path and its entry exactly when it inspects as the writer's own; never a path whose parent leads outside |
| WorktreeManifest.WorktreeFiles.Save | packages/cezar/src/worktree-manifest.ts:473-491 | Replaces the manifest file in one step and drops the older record once it is imported |
| WorktreeManifest.WorktreeFiles.Record | packages/cezar/src/worktree-manifest.ts:454-457 | The path is found as the writer's with the given identity and its unknown fields, and every other path as before |
| WorktreeManifest.WorktreeFiles.Forget | packages/cezar/src/worktree-manifest.ts:468-471 | The writer's own entry is found no more; an entry of another writer, and every other path, is found as before |
| ManifestRuns.OnlyOwnTreesAreLost | packages/cezar/src/worktree-manifest.ts:353-466 | Over every run of passes, writes cut anywhere, removals, saves, reloads and edits by an agent, a tree that was overwritten or deleted is one the same writer had listed in the manifest for that path, or what an older cezar left there but for the executable bit |
| ManifestRuns.LostWasListed | packages/cezar/src/worktree-manifest.ts:353-466 | At each step a tree that is lost has an identity, newer or older, that stands just then in the writer's entry for that path |
| ManifestRuns.OutsideIsLeftAlone | packages/cezar/src/worktree-manifest.ts:354-466 | In any state of a run, a write or a removal at a path whose parent leads outside changes nothing at all |
| ManifestRuns.LostWasInside | packages/cezar/src/worktree-manifest.ts:353-466 | Over every run, whatever was overwritten or deleted was so by a write or removal of that path while its parent was inside the worktree |
| ManifestRuns.DoKeepsInv | packages/cezar/src/worktree-manifest.ts:353-491 | Each operation keeps every listed identity backed by something its writer had at that path |
| ManifestSession.Perform | packages/cezar/src/worktree-manifest.ts:409-491 | The runs are those of the code: each method leads from state to state as its operation does |
| ManifestSession.Open | packages/cezar/src/worktree-manifest.ts:102-139 | A pass begins with what is on disk, and not over a manifest of a later cezar |
| ManifestSession.NothingElseChanges | packages/cezar/src/worktree-manifest.ts:409-466 | And nothing is lost unnoticed: whatever an operation of cezar changes is at its own path, and the tree that was there is among those counted as lost |
| ManifestOlder.OursIff | packages/cezar/src/worktree-manifest.ts:353-391 | Whatever the entry's identity and alternate were recorded for, in either encoding: what is at the path inspects as the writer's exactly when it passes for one of the two |
| ManifestOlder.OneSkillPassesIff | packages/cezar/src/worktree-manifest.ts:369-391 | In the older encoding a directory of one SKILL.md passes exactly for such a directory whose file has the same bytes |
| ManifestOlder.MatchesIff | packages/cezar/src/worktree-manifest.ts:353-391 | An identity in either encoding matches exactly the trees that pass for what it was recorded for: in the newer one that tree, in the older one a link, a file of the same bytes or a directory of one skill |
| ManifestOlder.EditIsLostIff | packages/cezar/src/worktree-manifest.ts:353-466 | A removal, or a whole write that nobody edits under, destroys an edited tree exactly when the entry, in its identity or its alternate, was recorded in the older encoding for a file, or for a directory of one skill, and the edit changed its executable bit and nothing else |
| ManifestRecovery.CutWritesConverge | packages/cezar/src/worktree-manifest.ts:314-318 | After any number of writes by one writer, each whole or cut at any boundary, the reloaded manifest lets that writer write the path |
| ManifestRecovery.WholeWriteRepairs | packages/cezar/src/worktree-manifest.ts:417-452 | The next whole write leaves exactly its content, and one entry with its kind and identity and no alternate |
| ManifestRecovery.PendingDecides | packages/cezar/src/worktree-manifest.ts:356-366 | With a pending entry, a path is the writer's exactly when it holds one of the two recorded trees; anything else, such as a removal cut half-way, is kept and never written again |
| ManifestRecovery.PassKeepsOthers | packages/cezar/src/worktree-manifest.ts:474-509 | A pass of one writer, wherever it ends, leaves on disk every loaded entry of another writer unchanged |
| ManifestRecovery.PassKeepsUnknownFields | packages/cezar/src/worktree-manifest.ts:473-509 | It leaves on disk every field beside the entries that it does not know, whatever entries there are |
| ManifestRecovery.LoadedEntry | packages/cezar/src/worktree-manifest.ts:103-138 | Which entry that is: the first acceptable one for the path in the manifest, then in the older record |
| ManifestRecovery.SurvivesIffLoaded | packages/cezar/src/worktree-manifest.ts:103-138 | An entry is in the file after a pass that only saves exactly when it is the one that was loaded for its path |
| ManifestRecovery.PutKeepsUnknownFields | packages/cezar/src/worktree-manifest.ts:497-509 | A finished write keeps the unknown fields of the writer's own entry |
| WindowsAutosave.Watcher.AdmitEntry | packages/cezar/src/autosave-windows.ts:84-93 | Admits a row exactly when the conditions on baseline, parents, exit time and birth order hold, with the right to signal it |
| WindowsAutosave.Watcher.AdmitRetained | packages/cezar/src/autosave-windows.ts:94-103 | The loop ends, at the fixed point of admission passes |
| WindowsAutosave.Watcher.Alive | packages/cezar/src/autosave-windows.ts:127-141 | The new state and the verdict of one look at the processes |
| WindowsAutosave.PassShrinksUnowned | packages/cezar/src/autosave-windows.ts:95-103 | A pass that admits anything leaves strictly fewer rows to admit |
| WindowsProofs.OnlyDescendantsAreSignalled | packages/cezar/src/autosave-windows.ts:70-117 | Over any sequence of snapshots of a machine that reuses process numbers, every process selected for a signal is the leader or was forked, directly or not, by it |
| WindowsProofs.SignalsThroughParent | packages/cezar/src/autosave-windows.ts:77-83 | A row whose signalable parent is in the same snapshot is a child of that very process, not of another that had its number |
| WindowsSignals.LeaderIsTarget | packages/cezar/src/autosave-windows.ts:65-68 | Once a look meets the running leader with a known creation date, a stop signals it |
| WindowsSignals.DescendantsAreSignalled | packages/cezar/src/autosave-windows.ts:77-117 | The other half: with complete snapshots, a process that descends from the leader through processes alive in one snapshot, taken before its exit was reported, is signalled by every later stop whose snapshot shows it |
| WindowsBounds.NothingOldIsOwned | packages/cezar/src/autosave-windows.ts:84-92 | Over any snapshots whatever, nothing owned but what has the leader's number ran before the command, and each is a child of that number or of an owned process no younger than itself |
| WindowsBounds.LateChildIsNotOwned | packages/cezar/src/autosave-windows.ts:81-92 | Once the exit is reported, a new child of the leader's number was born by the recorded time, and no stop signals it |
| WindowsBounds.NewPidIsNoParent | packages/cezar/src/autosave-windows.ts:71-76 | A child of a process that took the number of an owned one is owned only if it was born before that process |
| WindowsBounds.ChildMayBeSignalled | packages/cezar/src/autosave-windows.ts:77-93 | A child of a signalled process in the same snapshot is admitted with the right to signal it, born in the same tick or later, unless the parent is the leader and has exited |
| WindowsProofs.NothingLeftToAdmit | packages/cezar/src/autosave-windows.ts:94-103 | At the end of a look no row of the snapshot is admissible |
| WindowsProofs.TracedIsOwned | packages/cezar/src/autosave-windows.ts:84-103 | Every process that descends from the leader through processes each seen in some processed snapshot is owned once a look finds it |
| WindowsProofs.GuardOutlivesTracedProcesses | packages/cezar/src/autosave-windows.ts:104-141 | The guard is given up only when the leader has exited and the snapshot holds no such descendant |
| WindowsBounds.GuardGoesIff | packages/cezar/src/autosave-windows.ts:104-141 | The guard goes exactly when the exit was reported, a snapshot was read that leaves no doubt about the leader, and none of its rows can be an owned process, known or unknown dates considered |
| WindowsBounds.LeaderIsMetIff | packages/cezar/src/autosave-windows.ts:65-68 | The leader counts as met from the first snapshot that shows a row at its number before its exit was reported |
| WindowsBounds.ExitTimeIs | packages/cezar/src/autosave-windows.ts:127-132 | The recorded exit time is the one noted by the first call that learned of the exit: before its snapshot or, failing that, after |
| WindowsBounds.OnlyShownAreSignalled | packages/cezar/src/autosave-windows.ts:106-117 | A stop signals only rows of the last snapshot that could be read, and nobody while the row at the leader's number may be another's |
| ProcessTable.NextKeeps | packages/cezar/src/detached-process.ts:206-239 | In any step of the process table an empty group stays empty, a group without running members stays so, and one that was killed has no member that can fork |
| ProcessTable.KeepsReserved | packages/cezar/src/detached-process.ts:174-178 | While a group has a member, a process at its number is the one that led it |
| ProcessTable.RanAllAlong | packages/cezar/src/detached-process.ts:235-239 | After SIGKILL, a process that runs in the group now ran in it ever since |
| ProcessTable.RanSince | packages/cezar/src/detached-process.ts:206-239 | A process that runs in an old group and was forked before an instant ran in that group ever since that instant |
| ProcessGroups.ReadState | packages/cezar/src/detached-process.ts:136-150 | What the two calls make of a process that may vanish or become a zombie between them |
| ProcessGroups.GroupStatus | packages/cezar/src/detached-process.ts:175-204 | "gone" is answered only when the group has no member, however the table changes between its calls; with a still table the answer is the intended one for each kind of proof |
| ProcessGroups.LiveMember | packages/cezar/src/detached-process.ts:208-232 | A scan that reads processes one by one is true exactly when one of those it lists runs under the number, or cannot be told, when it is read. If it is false, then no member runs at its end exactly when none forked since it began does; for a killed group none runs. With a still table it is true exactly when a member runs or cannot be told |
| ProcessGroups.GroupRunning | packages/cezar/src/detached-process.ts:234-242 | True only with a process that was found running or unreadable; a false answer is wrong exactly about members forked since its scan began, and right for a killed group; with a still table exactly the answer `RunningNow` |
| ProcessGroups.PollGroup | packages/cezar/src/detached-process.ts:269-277 | The wait after a signal: it ends with a look that found nothing running, or when as many looks as the wait allows have each found a process |
| ProcessGroups.StopGroup | packages/cezar/src/detached-process.ts:253-279 | When no status is unknown, "stopped" means that no member of the leader's group runs; otherwise it is wrong exactly about members forked since the last scan began. "Not stopped" comes only with a process that was found, and without doubt only after SIGTERM and then SIGKILL were sent. Each goes only to a group verified just before, and after each the group was polled to the end of its wait before anything else. A leader with no recorded start is never signalled |
| ProcessGroups.OnlyNewcomersAreMissed | packages/cezar/src/detached-process.ts:206-239 | Whatever runs in a group at the end of a scan that found nothing was forked since the scan began |
| StopMisses.StopMissesAFork | packages/cezar/src/detached-process.ts:252-279 | It happens: a leader without a recorded start forks and exits while `/proc` is listed, and is reported stopped while its child runs |
| ProcessGroups.RunnerIsRead | packages/cezar/src/detached-process.ts:217-231 | A process that runs in a killed group at the end of a scan was there to be read, and was found |
| ProcessGroups.AnswerTurnsBackOnlyForAnother | packages/cezar/src/detached-process.ts:234-242 | In a table that moves, a process that a scan finds once nothing runs in the group is of another group, or its stat cannot be read |
| ProcessGroups.AnswerIsTrueIffAnotherRuns | packages/cezar/src/detached-process.ts:234-242 | When every stat can be read: exactly when another group has taken the number and runs and, if the leader's start was recorded or its handle is held, no other process has its pid |
| ProcessGroups.AnswerIsTrueIff | packages/cezar/src/detached-process.ts:175-242 | Once nothing runs in the leader's group, exactly when `groupRunning` still answers true, for each kind of proof and with processes whose stat cannot be read: another group runs under the number or some stat cannot be read, and nothing shows that the number is not the leader's |
| ProcessGroups.AnswerCanTurnBack | packages/cezar/src/detached-process.ts:235-242 | That can happen: after SIGKILL and the end of the group its number can pass to another, and the answer goes from false to true |
| TestEnvHolders.LeaseGroupLive | packages/cezar/src/detached-process.ts:359-395 | "live" exactly when the number answers and one of the processes listed is a member that runs when it is read; "dead" exactly when the number does not answer, or two listings of the same processes have members read between them, none running and nothing unreadable. Given listings of one instant and no number reused between them, "dead" means that nothing runs in any group that had the number, nor ever will |
| TestEnvHolders.RunnerWasRead | packages/cezar/src/detached-process.ts:370-388 | A process that runs in the group at the second listing was in the first and was running when it was read |
| TestEnvHolders.EndedStays | packages/cezar/src/detached-process.ts:359-366 | A group that was proved dead never runs again |
| TestEnvHolders.Reclaim | packages/cezar/src/detached-process.ts:406-418 | A row goes only when its process is dead or another has its number, and its recorded group, if any, is proved dead by the time the call ends; such a row stays only if its group was asked about and not proved dead; the other rows stay, in order, with their check |
| AutosaveGit.SettledMeansProvedGone | packages/cezar/src/autosave-git.ts:124-139 | In every run of events, a command that was spawned settles only at the end of a check after its exit, after the group was last found dead and with no live holder |
| AutosaveGit.OkMeansWholeOutput | packages/cezar/src/autosave-git.ts:114-123 | ok means exit code 0, closed streams, no abort, and as output exactly everything written, all within the limit |
| AutosaveAnswer.AnswerIs | packages/cezar/src/autosave-git.ts:114-123 | Told from the events of any run of a spawned command: ok exactly when no deadline, error or overflow came before it settled and it exited with 0; the code is the one it exited with, or none if it was stopped; the output is all that came within the limit, for failing commands too |
| AutosaveAnswer.OutputIsKept | packages/cezar/src/autosave-git.ts:153-157 | At every moment of a run the output held is what was written to standard output up to the limit |
| AutosaveAnswer.FailedSpawnIsNotOk | packages/cezar/src/autosave-git.ts:163-167 | A command that could not be spawned answers not ok, without a code |
| AutosaveAnswer.FailedSpawnSettles | packages/cezar/src/autosave-git.ts:163-167 | And it answers with that error, whatever came before |
| AutosaveGit.AlwaysWatched | packages/cezar/src/autosave-git.ts:124-152 | From an exit, a close or an abort on, and no sooner, an unsettled command has a check running or a poll set, and never both; before an abort the deadline is set; signals are a prefix of SIGTERM, SIGKILL and need an abort |
| AutosaveGit.StopIsPursued | packages/cezar/src/autosave-git.ts:140-151 | While an aborted command is unsettled, SIGTERM was sent, SIGKILL was sent or its timer is set, and it counts as blocked or that timer is set, never both |
| AutosaveGit.NothingAfterSettling | packages/cezar/src/autosave-git.ts:109-123 | Once settled, nothing is sent or reported and the result is fixed |
| AutosaveGit.CleanCheckSettles | packages/cezar/src/autosave-git.ts:124-139 | Once it is over, the pending poll, a dead group and no holder settle the command: no check is lost |
| AutosaveGit.BlockedCheckIsReported | packages/cezar/src/autosave-git.ts:88-105 | While cleanup is blocked, the last report names the leader unless it exited, the group if it was found alive and the holders last seen |
| AutosaveReports.LastReportIsTrue | packages/cezar/src/autosave-git.ts:88-105 | Told from the events: once its end was to be confirmed, every check of an unsettled command leaves as last report the leader exactly until it exits, the group exactly until the last answer found it dead, the holders last named and the last answer's text |
| AutosaveReports.OnlyNews | packages/cezar/src/autosave-git.ts:97-104 | No report repeats the one before it, none comes before that time or between checks, and none is taken back |
| AutosaveReports.NoProcessIsNamed | packages/cezar/src/autosave-git.ts:88-96 | Reports of a command that has no process name nobody, and say that what may run is uncertain |
| AutosaveGit.StepKeepsValid | packages/cezar/src/autosave-git.ts:109-168 | Every event keeps the invariant, and only a failed spawn or the end of a clean check settles |
| AutosaveCommand.Autosave.OnExit | packages/cezar/src/autosave-git.ts:168 | Notes the exit code and starts a check; the invariant holds again, and only what the event allows settles |
| AutosaveCommand.Autosave.OnClose | packages/cezar/src/autosave-git.ts:160 | Notes the close and starts a check; the invariant holds again, and only what the event allows settles |
| AutosaveCommand.Autosave.OnError | packages/cezar/src/autosave-git.ts:163-167 | Settles a failed spawn; any other error aborts; the invariant holds again, and only what the event allows settles |
| AutosaveCommand.Autosave.Collect | packages/cezar/src/autosave-git.ts:153-157 | Counts every chunk, keeps standard output within the limit, aborts beyond it; the invariant holds again, and only what the event allows settles |
| AutosaveCommand.Autosave.OnDeadline | packages/cezar/src/autosave-git.ts:152 | The deadline aborts; the invariant holds again, and only what the event allows settles |
| AutosaveCommand.Autosave.OnKillTimer | packages/cezar/src/autosave-git.ts:145 | Sends SIGKILL unless settled; the invariant holds again, and only what the event allows settles |
| AutosaveCommand.Autosave.OnConfirmTimer | packages/cezar/src/autosave-git.ts:146-149 | Cleanup counts as blocked and is reported; the invariant holds again, and only what the event allows settles |
| AutosaveCommand.Autosave.OnPollTimer | packages/cezar/src/autosave-git.ts:138 | Starts a check; the invariant holds again, and only what the event allows settles |
| AutosaveCommand.Autosave.OnGroupAnswer | packages/cezar/src/autosave-git.ts:129-133 | A live group ends the check; a dead one leads on to the holders; the invariant holds again, and only what the event allows settles |
| AutosaveCommand.Autosave.OnHoldersAnswer | packages/cezar/src/autosave-git.ts:133-138 | Ends the check, which settles or sets the next poll; the invariant holds again, and only what the event allows settles |
| AutosaveCommand.Autosave.Abort | packages/cezar/src/autosave-git.ts:140-151 | Once: SIGTERM, both timers and a check |
| AutosaveCommand.Autosave.ReportBlocked | packages/cezar/src/autosave-git.ts:88-105 | Reports what still blocks, when it differs from the last report |
| AutosaveHolders.Watcher.Alive | packages/cezar/src/autosave-holders.ts:172-207 | Every holder that is not known is decided by its own first answer: gone, or marked or unreadable and tracked, or unmarked and tracked with a parent that is Git's, or left alone with one that is not; only the last are remembered as unrelated; nothing else changes. False exactly when no tracked holder lives; a failed snapshot answers true and changes nothing tracked |
| AutosaveHolders.Attribute | packages/cezar/src/autosave-holders.ts:186-201 | The loop ends, with every pending holder either tracked, as a question asked or the tracked holders show its parent to be Git's, or left with one that its last answer shows not to be |
| AutosaveHolders.Ask | packages/cezar/src/autosave-holders.ts:176-185 | Exactly the new holders are asked about, each before any other question about it, and the first answer places it |
| AutosaveHolders.OwnsNow | packages/cezar/src/autosave-holders.ts:187-192 | When a parent counts as Git's: at most one question, about it, is asked, and its answer decides |
| AutosaveHolders.TrackedForGood | packages/cezar/src/autosave-holders.ts:203 | Over any sequence of calls a tracked process stays tracked until a snapshot shows another incarnation at its number |
| ZonedTime.ZonedWallTimeToUtc | packages/contract/src/zoned-time.ts:75-94 | The loop computes the settled instant |
| ZonedTime.ReadsBack | packages/contract/src/zoned-time.ts:1-4 | Around one change of the offset, a wall time the clock does show becomes an instant at which it shows it |
| ZonedTime.SkippedTimeMovesByTheGap | packages/contract/src/zoned-time.ts:1-4 | A wall time the clock skips becomes an instant that shows it one gap earlier or later |
| ZonedTime.SettleReadsNearby | packages/contract/src/zoned-time.ts:84-93 | The settled instant is the wall time less an offset read within a day of it |
| ZonedTime.OneChangeSettles | packages/contract/src/zoned-time.ts:75-94 | Around one change of the offset, which of the two offsets the settled instant uses, for every wall time: shown once, shown twice or skipped |
| Schedule.WallTimesOn | packages/contract/src/automation-schedule.ts:199-212 | The times of one day: all at which the schedule fires, in order and no other |
| Schedule.ListingHolds | packages/contract/src/automation-schedule.ts:214-259 | In any zone, what the walk lists are exactly the instants of the window at which the schedule fires |
| Schedule.ListingAscendsIff | packages/contract/src/automation-schedule.ts:214-259 | The list ascends strictly, and so holds no instant twice, exactly when the firing wall times of the window keep their order as instants |
| Schedule.ListingIsTheListIff | packages/contract/src/automation-schedule.ts:214-259 | Then, cut to any limit, it is the promised list, and only then when it is not cut |
| Sweep.SweptAscendsIff | packages/contract/src/automation-schedule.ts:245-256 | The loop that drops only a repetition of the last element, over any places and any window: strictly ascending exactly when the places in the window are in order |
| ScheduleOrder.AscendsInEveryWindowIff | packages/contract/src/automation-schedule.ts:214-259 | In every window of a zone the list ascends exactly when all firing wall times keep their order |
| ScheduleOrder.OneChangeBreaksOrderIff | packages/contract/src/automation-schedule.ts:214-219 | A change of the offset reverses two firing wall times exactly when clocks go forward by more than lies between them, the first gets the earlier offset and the second the later one |
| ScheduleOrder.OneChangeKeepsOrder | packages/contract/src/automation-schedule.ts:214-219 | A change that sets clocks back, by however much, keeps the order, and so does one forward by no more than the schedule's spacing |
| ScheduleOrder.SteadyKeepsOrder | packages/contract/src/automation-schedule.ts:214-219 | A zone whose offset rises within four days by no more than the spacing, around the window, keeps the order in it |
| ScheduleOrder.TwoHoursForwardListsTwice | packages/contract/src/automation-schedule.ts:214-259 | A two-hour change, as in Antarctica/Troll, and hourly runs: the list is 23:00, 0:00, 23:00, 0:00 |
| Schedule.OccurrencesBetween | packages/contract/src/automation-schedule.ts:223-259 | For every zone, what the walk lists, cut to the first `limit` (at least one for a repeating schedule). When the wall times of the window keep their order, that is the ascending list of the distinct instants at which the schedule fires. Empty for an unknown zone |
| Schedule.WalkIsWide | packages/contract/src/automation-schedule.ts:237-240 | The days walked miss no firing wall time of the window, in any zone less than a day from UTC |
| Schedule.NextOccurrence | packages/contract/src/automation-schedule.ts:261-270 | In any zone, an instant at which the schedule fires in the nine days after the given one: that of their first wall time. It is the first instant after the given one exactly when no later wall time of those days has an earlier instant |
| Schedule.FirstIsNextIff | packages/contract/src/automation-schedule.ts:261-270 | In any window the instant of the first wall time is the next run exactly when no later wall time overtakes it |
| Sweep.FirstHitLeads | packages/contract/src/automation-schedule.ts:245-256 | The list begins with the instant of the first place that has one in the window, be it early or late |
| ScheduleOrder.NextIsMissedIff | packages/contract/src/automation-schedule.ts:261-270 | Around one change of the offset the answer is not the next run exactly when clocks go forward by more than lies between its wall time and that of another run in the nine days, and only the other gets the later offset |
| ScheduleOrder.ARunIsMissedIff | packages/contract/src/automation-schedule.ts:261-270 | Asking again and again after each answer, some run between the answers is never returned exactly when at some answer a later wall time overtakes the first |
| ScheduleOrder.ThreeHoursForwardMissesARun | packages/contract/src/automation-schedule.ts:261-270 | It happens: a three-hour change at 00:01, as in Antarctica/Casey, and a run every two hours; the run of 2:00 is passed over for that of midnight |
| Schedule.FiresInWindow | packages/contract/src/automation-schedule.ts:267-268 | A repeating schedule fires within nine days, in every zone |
| Schedule.ListIsUnique | packages/contract/src/automation-schedule.ts:214-219 | The list is determined by schedule, zone, window and limit |
| Schedule.ShorterIsPrefix | packages/contract/src/automation-schedule.ts:214-219 | A smaller limit gives a prefix |
| Schedule.ListsJoin | packages/contract/src/automation-schedule.ts:223-259 | Uncut lists of adjacent windows join into the list of both |
| Schedule.NextWalksTheList | packages/contract/src/automation-schedule.ts:261-270 | Asking for the next run again and again enumerates the list |
| Schedule.LimitIsKeptIffPositive | packages/contract/src/automation-schedule.ts:215-216 | When something is in the window, a repeating schedule keeps to the limit exactly if it is at least 1; otherwise it lists one occurrence |
| Schedule.CutToTheLimit | packages/contract/src/automation-schedule.ts:215-216 | A positive limit leaves the first ones, as many as the limit or else all |
| JsonScanner.ExtractJsonObjectCandidates | packages/cezar/src/planner.ts:248-277 | The index loop returns what the character-by-character scanner returns |
| JsonScanner.CandidatesAreTheObjects | packages/cezar/src/planner.ts:248-277 | For every list of printed JSON objects, whatever their strings hold, separated by text without a quote or an opening brace (or with whole quoted strings), the candidates are exactly those objects in order |
| JsonScanner.AbsorbsJson | packages/cezar/src/planner.ts:254-275 | Inside an object every printed value is passed over whole |
| JsonScanner.AbsorbsString | packages/cezar/src/planner.ts:256-261 | A string is passed over whole, with its braces, quotes and escapes |
| JsonScanner.CandidatesAreSlices | packages/cezar/src/planner.ts:262-274 | On any text the candidates are separate slices of it, in order, each from an opening to a closing brace |
| TeamSkills.MergeSourceLists | packages/cezar/src/skills-remote.ts:810-826 | The loop keeps the first skill of each repository and name, in order |
| TeamSkills.FirstsAreFirst | packages/cezar/src/skills-remote.ts:810-826 | A skill is kept exactly when it is the first with its repository and name |
| TeamSkills.FirstsAreDistinct | packages/cezar/src/skills-remote.ts:810-826 | No repository and name is kept twice |
| TeamSkills.EveryKeyIsKept | packages/cezar/src/skills-remote.ts:810-826 | No repository and name is lost |
| TeamSkills.Catalog.ShowCached | packages/cezar/src/skills-remote.ts:853-862 | A passive load shows the merged clones unless a list was published since it read the generation |
| TeamSkills.Catalog.Publish | packages/cezar/src/skills-remote.ts:871-881 | The last step of a load: what it publishes, whether it does, and what it returns |
| TeamSkills.PublishedIsEnabled | packages/cezar/src/skills-remote.ts:871-881 | A published list holds exactly the merged skills whose source, if any, is enabled at that moment |
| TeamSkills.PassiveWritesIffNothingNewer | packages/cezar/src/skills-remote.ts:845-878 | Over every interleaving of loads, a passive load sets the list exactly when no list was published since it read the generation |
| TeamSkills.PublishedIsKeptFromEarlierLoads | packages/cezar/src/skills-remote.ts:845-878 | So a passive load that replaces a published list started after it was published |
| TeamSkills.GenerationCounts | packages/cezar/src/skills-remote.ts:845-850 | The generation stands still exactly while nothing is published |
| TeamSkills.CalledEarlierMayReplace | packages/cezar/src/skills-remote.ts:834-862 | The boundary: a passive load called before a publication, whose configuration is read only after it, replaces the published list by what the clones hold, of sources switched off meanwhile too |
| SkillClosure.SkillClosure | packages/cezar/src/skills-provision.ts:61-84 | Distinct names, roots first and all in, companions each named by a skill before it, in order of who names them and of the catalog; no more than 24 or the distinct roots; complete unless truncated, and then `truncated` is the first companion left out |
| SkillClosure.Candidates | packages/cezar/src/skills-provision.ts:65-67 | The first catalog entry of each name, in order |
| SkillClosure.FirstEntryWins | packages/cezar/src/skills-provision.ts:57-58 | An entry is a candidate exactly when it is the first of its name |
| SkillClosure.RootsLead | packages/cezar/src/skills-provision.ts:71-76 | Every root's name is in as the first root of that name, with only roots before it |
| SkillClosure.InEveryClosedSet | packages/cezar/src/skills-provision.ts:72-82 | Every skill of the answer is in every set closed under naming that holds the roots |
| SkillClosure.UncutIsClosed | packages/cezar/src/skills-provision.ts:72-83 | An answer that is not truncated is itself such a set, and so the least one |
| SkillClosure.OnlyOneAnswer | packages/cezar/src/skills-provision.ts:61-84 | What is promised of an untruncated answer determines it, order included |
| SkillClosure.CompanionsOf | packages/cezar/src/skills-provision.ts:79-81 | The candidates that the last skill names and that are not in yet join the queue, in catalog order |
| WriteQueue.OneAtATimeInOrder | packages/cezar/src/worktree-manifest.ts:548-563 | Whatever calls overlap or fail, when one has begun every call before it has settled |
| WriteQueue.FileIsTheFold | packages/cezar/src/config.ts:262-291 | The file is always the left fold of the changes that wrote, in call order |
| WriteQueue.SeesWhatIsThere | packages/cezar/src/config.ts:274-281 | A change sees what the calls before it left, and nothing is written under it |
| WriteQueue.FirstUnsettledCanGoOn | packages/cezar/src/worktree-manifest.ts:555-563 | No call is stuck behind one that failed or behind a map entry that is gone: the first unsettled call has read the file as it is, or can, and its end settles it, with the file as its change makes it or as it was |
| WriteQueue.StepKeepsInv | packages/cezar/src/config.ts:272-290 | Every callback, the clean-up of the map entry included, keeps the chain whole |
| SkillMarkdown.WrittenReadsBack | packages/cezar/src/skills-provision.ts:113-117 | Reading the file printed for a skill with a safe name gives that name, the trimmed body with its line ends normalized, and the description as JSON wrote it |
| SkillMarkdown.BlockReadsBack | packages/cezar/src/skills.ts:235-252 | The reader finds the printed block and the whole body, `---` lines in it included |
| SkillMarkdown.BlockIs | packages/cezar/src/skills.ts:236-252 | In any text the block lies between the opening line and the first closing line, at the end of the file or before; without one there is no block |
| SkillMarkdown.DescriptionSurvivesIff | packages/cezar/src/skills-provision.ts:115 | A description comes back exactly if JSON needs no escape in it, it holds no line separator and has no white space at its ends |
| SkillMarkdown.BodySurvivesIff | packages/cezar/src/skills.ts:237-238 | The trimmed body comes back exactly when it holds no carriage return |
| SkillMarkdown.WritingAgainChangesNothing | packages/cezar/src/skills-provision.ts:113-117 | Printing what was read back gives the same file |
| SkillMarkdown.ParseFrontmatterEntries | packages/cezar/src/skills.ts:269-281 | The loop over the lines fills the record the entries determine |
| SkillMarkdown.ParseFrontmatterEntry | packages/cezar/src/skills.ts:283-300 | One key with its text, inline list or dashed lines, and the line after it |
| SkillMarkdown.CollectBlockItems | packages/cezar/src/skills.ts:302-316 | All dashed lines that follow go into the list |
| SkillForms.KeyLineIff | packages/cezar/src/skills.ts:276-278 | A line is an entry with this key and rest exactly if the key and a colon begin it and the rest, trimmed, is that text and holds no line end |
| SkillForms.ItemLineIff | packages/cezar/src/skills.ts:302-316 | A line is an item exactly if it is white space, a dash, white space and that item, trimmed and without its quotes |
| SkillForms.ListUnder | packages/cezar/src/skills.ts:302-316 | A key with nothing beside it takes the dashed lines under it and no more, and reading goes on after them |
| SkillForms.ItemsJoin | packages/cezar/src/skills.ts:318-327 | An inline list gives, part by part, the trimmed items without their quotes, leaving out the empty ones |
| SkillForms.EntryIsRead | packages/cezar/src/skills.ts:269-281 | Reading goes on after an entry, with its value put over an earlier one's under the same key |
| SkillForms.CommentIsNoEntry | packages/cezar/src/skills.ts:274-275 | Blank lines and comments, indented or not, hold nothing |
| SkillText.IndexOf | packages/cezar/src/skills.ts:241-245 | The first occurrence from a place on, or none |
| SkillText.TrimIsTrimmed | packages/cezar/src/skills.ts:219-226 | Trimming leaves a text alone exactly when it has no white space at its ends |

## Left out

- WorktreeLock.Step: tickets are unbounded; the bound on safe integers is checked where a claim is read (`ClaimDirectory.Directory.ReadMutationClaim`).
- ClaimDirectory.Directory.SelectTicket: this loop and `TurnPass` read claims as on POSIX; on Windows only the reading of one claim is modelled (`ClaimDirectory.Directory.ReadMutationClaimOnWindows`), and `WorktreeLock` is the protocol on POSIX.
- The caller's side of the lock, `withWorktreeMutation`: messages between two processes and the wait for the keeper's exit.
- WorktreeManifest.WorktreeFiles.Put: building the staged entry, the staging directory and its sweep, and the making of parent directories are not modelled; staged content is a parameter.
- ManifestRuns.OnlyOwnTreesAreLost: a parent directory redirected out of the worktree between the check and the write, and listed paths that lie inside one another, are not modelled.
- ManifestSession.Perform: an entry is recorded only where the path inspects as the writer's, as the callers of `record` see to.
- ManifestOlder.EditIsLostIff: a directory recorded in the older encoding for an entry of one skill is taken to have been one; which trees pass for any other is stated by `ManifestOlder.OursIff`.
- ManifestRecovery.CutWritesConverge: cuts are at the boundaries of a write; a copy across file systems, a removal cut half-way and a crash between the manifest's rename and the removal of the older record are not among them.
- File names that are not valid UTF-8: names and contents are strings of bytes.
- WindowsAutosave.Watcher.Alive: sending the signals is not modelled; which rows a stop selects is.
- The comparison of creation dates to the microsecond inside the script that signals.
- ProcessGroups.StopGroup: an `EPERM` when signalling, a process that joins another group by itself, and macOS and Windows are not modelled.
- `watchGroup`, which repeats `stopGroup` until it succeeds.
- TestEnvHolders.Reclaim: the database transaction around it; `gone` says which rows were deleted.
- AutosaveGit.Step: the wording and the cap of the transcript's warnings, the refusal to start when the worktree cannot be inspected, and the Windows branch, which checks once at the start.
- AutosaveHolders.Watcher.Alive: reading `/proc`, `lsof` and `ps` is replaced by what the readings answer, each at a time of its own. The leader's number is fixed during a call; it is set once, before the first call (`packages/cezar/src/autosave-git.ts:73`).
- Schedule.OccurrencesBetween: years before 100 and instants outside JavaScript's range of dates are not modelled; how a `once` schedule reads its own instant is not either.
- Cron strings and labels of a schedule: printing and parsing of short texts.
- JsonScanner.CandidatesAreTheObjects: a quote without a partner in the text between objects is excluded, as it hides what follows.
- Fetching, cloning and listing of team sources, their states and stamps: what a source lists is a parameter of a load.
- SkillClosure.SkillClosure: whether a text names a skill is a parameter, any relation between texts and names.
- WriteQueue.OneAtATimeInOrder: one file; calls for different files never meet. A failed write leaves the file as it was, since it is written to a temporary file and renamed.
- SkillMarkdown.ParseFrontmatterEntries: a key `__proto__`, which a JavaScript object does not store like any other key, is not modelled.
- SkillMarkdown.WrittenReadsBack: characters are Unicode scalar values, so a lone surrogate is not modelled; the `interactive` flag, which is read but never written, is not part of a skill here.
- Installing skills into agent directories, the command line, the server, the user interface and benchmarks: plumbing without hard properties.
