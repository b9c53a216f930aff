# Verified models of the console's protocols

Dafny models of the parts of this repository where several stores, writers or
runs meet, and proofs of what those parts promise. Each module follows one
source file: a pure description of what the code computes, the loops and
objects of the code proved to compute exactly that, and lemmas about it over
every input, every run or every interleaving.

`dafny verify dfyconfig.toml` checks the whole project.

## Parts

**The folder journal** (`Folder*.dfy`). Four stores: the tree of folders, the
cache of filings, the value each object carries, and a journal of lines. A run
goes through lines; each line commits a short list of writes, so a crash is a
prefix of the list of all writes. `FolderTree` and `FolderPaths` hold the tree
and its rules, `FolderRuns` runs in general, `FolderLines` and `FolderSlots`
what a line writes, `FolderReplay` the replay of folder lines,
`FolderRecovery` resume and crash recovery, `FolderActions` what each command
posts, `FolderFollows` where the objects of a moved folder go, `FolderTwoCuts` what a second interruption costs, `FolderFailures`
recovery when some objects cannot be written, `FolderHub` the trees between
emptying a folder and undoing it, `FolderUndo`, `FolderUndoInverse` and
`FolderRoundTrip` undo, `FolderReport` what it reports, `FolderChangeBack` the
undo of a renaming or a move,
`FolderResumed` undo after an interruption, `FolderCompletes` when an emptying
always reaches its end, and `FolderConsole` the program itself, its stores
updated in place.

**A node being onboarded** (`OnboardingGuard`, `StorageCards`, `OnboardingRun`):
conditional patches against a promotion controller and any other writer of the
same node, and its storage cards found and left alone.

**Ordered teardown and return** (`CapiTeardown`, `RegistrySecrets`,
`ForkliftRollback`, `ReplicationSignals`, `ReplicationHistory`): the restricted identity of a cluster
and the secrets that leave with it, the return of a wave to its source machines,
the signals of a replication command and what they mean told from the events
alone.

**The KVM commands** (`KvmLocks`, `KvmFollow`, `JsonDepth`): shared and
exclusive locks, bounded waiting, the depth scan before parsing.

**Texts and configurations** (`HelmIndex`, `BootNetwork`, `FirstBoot`,
`IdentityRules`, `Disks`, `StablePaths`): a reader by indentation, names of
network cards through installation with readers of the boot arguments and of
the udev rules that it writes, disks under many names.

`Text.dfy` holds what they share: options and results, and the string
operations of the source language that the proofs need.

## Where a promise holds only under a condition

Each of these is stated with the exact condition, or with a concrete run that
shows the failure beside the condition under which it cannot happen.

- An interrupted action that is resumed ends like the uninterrupted one, at
  every point of interruption, if and only if every writable object carried
  what its line starts from (`CrashRecoveryIff`); lines of objects that fail,
  and a last line that fails, keep that promise (`FailuresRecover`). It survives every interruption of the
  resume too, if and only if its own interruption did not fall between writing
  an object that moves and filing it (`SecondCutIff`, `CutPosition`). Undone
  after the resume, each object has its former value if and only if the
  interruption did not leave it at the target of its unfinished line
  (`ResumedUndoIff`, `ResumedEmptyInto`). Both losses come from the journal's
  start being rewritten with the value found.
- A folder line that changes both parent and name is not atomic: it stops half
  way exactly when the target is taken or a path of the subtree is out of
  bounds there (`HalfMoveIff`, `BothChangesNotAtomic`). No command posts such a
  line.
- Undo gives every object its value back unless rights changed in one of two
  ways in between (`UndoMisses`); with the same rights it always does
  (`UndoRestoresAll`).
- The account of a cluster's identity leads to every object posted for it
  unless the creation stopped right after the first document, or a rule is
  scoped on the cluster's own namespace, as happens when the image or the key
  pair is kept there: the role and binding named after the account are in no
  list of deletion (`PostedCoveredIff`). With every right the first case is
  undone all the same and only the second leaves something
  (`CutCreationUndoneIff`); with fewer rights the first document stays exactly
  when it may not be read or deleted (`FirstDocumentLeft`). The list of side
  namespaces is lost when the account cannot be read first but can be a moment
  later (`LateReadLosesSides`).
- A rollback stops the machine found under the expected name first; a copy of
  the source is left running if and only if one ran before that is not that
  machine (`StoppedCopiesIff`, `TakenNameMisleads`).
- A node is written at most twice, and once more for every error exit that hid
  a write that had taken effect (`WritesCounted`, `HiddenWriteRepeats`).
- Two commands on a KVM host are kept apart if and only if both ask for some
  lock and one asks for it exclusively (`SideBySideIff`). Some work is done
  without the lock of what it works on: a pool can be stopped under a clone, a
  deletion of storage or a resize (`PoolStoppedUnder`), and a volume sent or
  deleted under a clone, a VM deletion, an edit or an added disk
  (`VolumeTakenUnder`), or as the previous seed or the image of a creation
  (`OtherVolumesUnlocked`).
- A cordoned node stays cordoned whatever the promotion controller does next if
  and only if its promotion is over (`CordonLastsIff`).
- The system and data disks are written under different paths, whatever roles
  are accepted, if and only if no two disks that may be chosen together have the
  same stable path (`DistinctPathsIff`, `SharedLinkCollides`). The paths to wipe
  lead to neither of them if and only if no disk to wipe has another name of one
  of the two as its stable path (`WipedIsFreeIff`, `SharedLinkWipes`); where no
  name is shared everything is as the roles say (`ExclusiveFields`).
- Deleting a cluster whose namespace another one keeps takes the other's registry
  secrets, under some registry names, if and only if one cluster's name
  continues the other's with `-registry` or `-chart` (`OthersKeptIff`).
- A Helm index is read with the scalar and list fields it has if and only if no
  scalar goes on below its line and no dash is deeper than a list's own dashes
  (`ItemIff`, `IndexReads`); the change log among the annotations of a chart is
  read as a list of annotations (`ChangesAreCollected`).

## Model

| member | source | states |
|---|---|---|
| `FolderPaths.SegmentsOfWritten` | bin/lib/folders.py:62-68 | Splitting a written path gives its segments back |
| `FolderPaths.CheckPathExact` | bin/lib/folders.py:71-90 | The text test accepts exactly the written forms of valid paths: depth, length, every name |
| `FolderPaths.WithinTextIsPrefix` | bin/lib/folders.py:104-106 | The textual `within` is the prefix order on segments |
| `FolderPaths.RewriteTextIsReplace` | bin/lib/folders.py:271-276 | Replacing the textual prefix replaces the leading segments |
| `FolderTree.ViewIsPaths` | bin/lib/folders.py:152-169 | At most one path assignment fits the parents and names, and the walk up finds it |
| `FolderTree.IdOfView` | bin/lib/folders_db.py:180-187 | In a well-formed tree `id_of` inverts `path_of` |
| `FolderTree.RelinkRewritesPaths` | bin/lib/folders.py:279-313 | Changing one row rewrites the prefix of every path of its subtree, no other path, and keeps the tree well formed |
| `FolderTree.NewPathIsFree` | bin/lib/folders_db.py:57-58 | The sibling index leaves nothing at or below the new path but what moves |
| `FolderTree.RenameKeeps` | bin/lib/folders_db.py:227-243 | An accepted renaming: well formed, same folders, the folder and its subtree under the new name |
| `FolderTree.MoveKeeps` | bin/lib/folders_db.py:246-263 | An accepted move: well formed, same folders, the subtree under the new parent |
| `FolderTree.DeleteKeeps` | bin/lib/folders_db.py:266-284 | An accepted deletion removes that folder's path and nothing else |
| `FolderTree.DeleteFailsIff` | bin/lib/folders_db.py:266-284 | A folder is not deleted exactly when it has a child or something is filed in it or below |
| `FolderTree.EnsurePathCreates` | bin/lib/folders_db.py:287-302 | The path exists afterwards, every old folder keeps its path, new ones are levels of that path |
| `FolderRuns.RunIsItsEffects` | bin/harvester-folders.py:512-608 | A run is the list of its writes, one after the other |
| `FolderRuns.RunThroughLine` | bin/harvester-folders.py:539-607 | A run reaches each line untouched and never comes back to it |
| `FolderRuns.CutInsideALine` | bin/harvester-folders.py:539-607 | An interruption anywhere stops inside one line, all before it finished |
| `FolderRuns.HalfWay` | bin/harvester-folders.py:539-607 | Before any line of a successful run, the lines so far are done and the others untouched |
| `FolderLines.LinesLocal` | bin/harvester-folders.py:539-607 | A line writes only its journal row, its object and its filing, or the tree |
| `FolderSlots.StepOutcome` | bin/harvester-folders.py:546-607 | What one object line does to the value, the filing and the line, for every right and every answer |
| `FolderSlots.RunOutcome` | bin/harvester-folders.py:512-608 | Each object of a run gets the outcome of its own line, whatever the other lines do |
| `FolderSlots.RunKeepsKey` | bin/harvester-folders.py:512-608 | Objects without a line keep value and filing |
| `FolderReplay.ReplayDone` | bin/harvester-folders.py:476-509 | Done means the folder is at the target, or gone; replaying again changes nothing |
| `FolderReplay.SingleChangeIsAtomic` | bin/harvester-folders.py:476-509 | A line that changes one thing commits one tree or, failing, none |
| `FolderReplay.RenameFailsIff` | bin/lib/folders_db.py:227-243 | A renaming fails exactly when the path is taken or some path of the subtree is out of bounds |
| `FolderReplay.MoveFailsIff` | bin/lib/folders_db.py:246-263 | A move fails exactly into its own subtree, onto a path that is taken, or where a path would be out of bounds |
| `FolderReplay.HalfMoveIff` | bin/harvester-folders.py:502-508 | When a line that changes both parent and name stops half way, exactly |
| `FolderReplay.BothChangesNotAtomic` | bin/harvester-folders.py:502-508 | A concrete tree where such a line fails with the folder moved |
| `FolderReplay.RunKeepsTree` | bin/harvester-folders.py:512-549 | No run ever breaks the tree |
| `FolderRecovery.StrictKeepsOutsideMove` | bin/harvester-folders.py:564-592 | A strict run leaves an object filed elsewhere as it is, cache included, and its line failed |
| `FolderRecovery.DoneMeansFiled` | bin/harvester-folders.py:600-607 | Every line recorded done leaves the target on the object or in the console |
| `FolderRecovery.ResumeTodoHolds` | bin/harvester-folders.py:905-921 | Resume takes exactly the unfinished lines whose filing is at one of the two ends |
| `FolderRecovery.ResumeKeepsOutsideMoves` | bin/harvester-folders.py:899-925 | Resume never overwrites a move made outside, whichever store shows it, and does not call the line done |
| `FolderRecovery.CrashRecoveryIff` | bin/harvester-folders.py:512-608 | Resuming after any interruption gives the objects, cache and tree of the whole run with every line done, if and only if cache and objects agreed |
| `FolderRecovery.DisagreementStrands` | bin/harvester-folders.py:566-568 | An object that does not carry its line's start: some interruption leaves that line undone |
| `FolderTwoCuts.SecondCutIff` | bin/harvester-folders.py:899-925 | Every interruption of the resume is survived by the next resume, if and only if the first interruption left no object at its target with the cache at the start |
| `FolderTwoCuts.CutPosition` | bin/harvester-folders.py:564-607 | Where the interruption fell, seen in what it leaves: after the object was written, or just between that and the filing |
| `FolderFailures.FailuresRecover` | bin/harvester-folders.py:512-608 | With object lines that end failed, and the last line too (a folder that an object stays in is not deleted): the same stores and the same status for every line, wherever the action was cut |
| `FolderActions.AssignIsPosted` | bin/harvester-folders.py:879-896 | What `assign` posts is fit for recovery |
| `FolderActions.RenameIsPosted` | bin/harvester-folders.py:653-680 | So is what a renaming posts |
| `FolderActions.MoveIsPosted` | bin/harvester-folders.py:653-688 | So is what the move of a folder posts |
| `FolderActions.EmptyIsPosted` | bin/harvester-folders.py:1075-1137 | So is what an accepted `empty-into` posts: one line per object, whatever the tree |
| `FolderFollows.ChangeLinesFollow` | bin/lib/folders.py:271-276 | The lines of a renaming or move: an object filed in a folder of the subtree goes to the path that folder has afterwards; no other object has a line |
| `FolderFollows.RenameFollows` | bin/harvester-folders.py:653-680 | After an accepted renaming that can be written, each object is filed in the folder it was in, wherever that is now, and none is filed in a folder that does not exist |
| `FolderFollows.MoveFollows` | bin/harvester-folders.py:653-688 | The same after a move |
| `FolderFollows.EmptyLineFollows` | bin/harvester-folders.py:1086-1112 | The line of an object filed in a child or below leads to the path that its folder has afterwards |
| `FolderFollows.EmptyLineIff` | bin/harvester-folders.py:1100-1112 | An object has a line of the emptying if and only if it is filed in the folder or below |
| `FolderFollows.EmptyFollows` | bin/harvester-folders.py:1075-1137 | After an accepted emptying that can be written, objects of a child and below are filed in the folder they were in, those of the folder itself in the target or nowhere, the others where they were |
| `FolderFollows.AssignFiles` | bin/harvester-folders.py:879-896 | Each object of an assignment that can be written carries the folder given and is filed there |
| `FolderHub.HubOk` | bin/harvester-folders.py:1113-1119 | With any of the children away and the others at home, the tree is well formed and every path known |
| `FolderHub.ChildLeaves` | bin/harvester-folders.py:1116-1118 | Each child's move is accepted in turn |
| `FolderHub.ChildReturns` | bin/harvester-folders.py:1005-1026 | Each child's way back is accepted in turn |
| `FolderUndo.UndoPlanKeepsConflicts` | bin/lib/folders.py:316-336 | The plan takes back exactly the objects still where the action left them and that moved |
| `FolderUndo.ConflictsAreTheRest` | bin/lib/folders.py:329-336 | An object with a done line is in conflict, or taken back, or did not move: exactly one of the three |
| `FolderReport.ReportedIff` | bin/harvester-folders.py:1028-1050 | Reported are exactly the objects filed elsewhere since, those whose former folder or one above it could not go back, and those the strict run finds at neither end |
| `FolderReport.ReportedIsLeft` | bin/harvester-folders.py:564-592 | What is reported was left as it was, on the object and in the console |
| `FolderReport.ReportAddsUp` | bin/harvester-folders.py:984-1057 | Failures and objects put back make up the folders stuck, the conflicts and the plan: nothing twice, nothing forgotten |
| `FolderReport.NoFailureIff` | bin/harvester-folders.py:984-1057 | No failure if and only if every folder went back, nothing had moved and every line is done |
| `FolderUndoInverse.EmptiedTree` | bin/harvester-folders.py:1113-1131 | After a finished `empty-into`: every child under the target, the folder gone |
| `FolderUndoInverse.FolderRecreated` | bin/harvester-folders.py:984-998 | The emptied folder comes back where it was under a new id |
| `FolderUndoInverse.FoldersReturn` | bin/harvester-folders.py:981-1026 | All folder lines go back, last first, and none is stuck |
| `FolderRoundTrip.SlotRoundTrip` | bin/harvester-folders.py:546-607 | There and back, when an object has its value again, and when its filing |
| `FolderResumed.ResumedUndoIff` | bin/harvester-folders.py:961-1057 | After an interruption, a resume and an undo, which objects have their former value, exactly |
| `FolderResumed.ResumedUndoCompletes` | bin/harvester-folders.py:961-1057 | With the same rights that undo completes, and an object keeps the action's value if and only if the interruption left it at the target |
| `FolderResumed.ResumedEmptyInto` | bin/harvester-folders.py:961-1137 | The same for an emptying of any tree: every folder is at its path again |
| `FolderRoundTrip.UndoInvertsEmptyInto` | bin/harvester-folders.py:961-1057 | Undo of a finished `empty-into`: every folder at its path again; each object its exact former value unless rights changed in two stated ways; other objects untouched |
| `FolderRoundTrip.UndoRestoresAll` | bin/harvester-folders.py:961-1137 | With the same rights undo completes and every value is back; so are the filings if they agreed |
| `FolderChangeBack.RelinkBack` | bin/lib/folders_db.py:227-263 | A folder given another parent or name can be given back the ones it had, and the tree is then what it was |
| `FolderChangeBack.RenameChanges` | bin/harvester-folders.py:1005-1026 | The undo of an accepted renaming finds its way back to the very tree |
| `FolderChangeBack.MoveChanges` | bin/harvester-folders.py:1005-1026 | So does the undo of an accepted move |
| `FolderChangeBack.UndoInvertsChange` | bin/harvester-folders.py:961-1057 | Undo of a finished renaming or move: the very tree; each object its former value unless rights changed in two stated ways; other objects untouched |
| `FolderChangeBack.ChangeRestored` | bin/harvester-folders.py:961-1057 | With the same rights that undo completes and every value is back |
| `FolderCompletes.InsideHasLine` | bin/harvester-folders.py:1100-1114 | Every object filed in the folder or below has a line, when filings are in folders that exist |
| `FolderCompletes.ObjectsLeave` | bin/harvester-folders.py:1100-1112 | Each object line starts in the folder and ends outside it |
| `FolderCompletes.NothingFiledInside` | bin/harvester-folders.py:1120-1125 | Before the deletion nothing is filed in the folder or below |
| `FolderCompletes.EmptyIntoCompletes` | bin/harvester-folders.py:1075-1137 | An accepted request ends with every line done and the folder deleted whenever all that is filed inside can be written |
| `FolderCompletes.WritableRoundTrip` | bin/harvester-folders.py:961-1137 | Emptying such a folder and undoing it leaves every value and every path as they were |
| `FolderConsole.Console.RecordMove` | bin/lib/folders_db.py:442-449 | Adds a row, or sets the status of the row that is there and nothing else of it |
| `FolderConsole.Console.StartLines` | bin/harvester-folders.py:611-619 | The journal holds exactly the lines posted, in order |
| `FolderConsole.Console.SetMoveFrom` | bin/lib/folders_db.py:452-456 | Changes the start of one line |
| `FolderConsole.Console.UpsertMembership` | bin/lib/folders_db.py:322-334 | Files an object, or takes its filing away |
| `FolderConsole.Console.FindId` | bin/lib/folders_db.py:185-187 | The folder of that path, if there is one |
| `FolderConsole.Console.MoveFolder` | bin/lib/folders_db.py:246-263 | Refused exactly into itself or below, onto a path that is taken, or out of bounds, and then nothing changes; accepted, the subtree's paths are under the new parent and no other path changes |
| `FolderConsole.Console.RenameFolder` | bin/lib/folders_db.py:227-243 | Refused exactly onto a path that is taken or out of bounds, and then nothing changes; accepted, the paths of the subtree carry the new name and no other path changes |
| `FolderConsole.Console.ReplayFolderLine` | bin/harvester-folders.py:476-509 | Commits the trees and returns the status that the replay describes |
| `FolderConsole.Console.RunObjectLine` | bin/harvester-folders.py:550-607 | Makes the writes of that object line, in order, and tells an object found elsewhere by a strict run |
| `FolderConsole.Console.RunLines` | bin/harvester-folders.py:512-608 | The loop is the run, and keeps the tree well formed; it counts exactly the lines not done, and lists exactly the objects that were at neither end when it began |
| `FolderConsole.Console.Resume` | bin/harvester-folders.py:899-925 | Filters the lines and runs them strictly: the resume of the theorems |
| `FolderConsole.Console.RunAction` | bin/harvester-folders.py:512-619 | Posts the lines and runs them to the end |
| `FolderConsole.Console.PlanRewrite` | bin/lib/folders.py:271-276 | One line per object filed below, with the same place below the new path: the lines that `FolderFollows` is about |
| `FolderConsole.Console.Assign` | bin/harvester-folders.py:879-896 | Refused exactly for an empty request or a folder that does not exist, and then nothing changes; else every object of the request that can be written carries the folder given and is filed there |
| `FolderConsole.Console.RenameAndRewrite` | bin/harvester-folders.py:653-680 | Refused: nothing changed. Accepted, where all that is filed inside can be written: every object filed in a folder of the subtree is filed in that very folder at its new path, no other object has moved, and all are filed in folders that exist |
| `FolderConsole.Console.MoveAndRewrite` | bin/harvester-folders.py:653-688 | The same for a move |
| `FolderConsole.Console.MayEmpty` | bin/harvester-folders.py:1086-1109 | Accepts exactly the requests where every child can go |
| `FolderConsole.Console.EmptyInto` | bin/harvester-folders.py:1075-1137 | Refused: nothing touched. Accepted: children, objects, then the deletion; where all that is filed inside can be written, the objects of a child and below follow it to its new place, those of the folder itself go to the target or nowhere, and no other object moves |
| `FolderConsole.Console.EnsureFolder` | bin/lib/folders_db.py:287-302 | Creates each missing level from the top |
| `FolderConsole.Console.FirstAndLast` | bin/lib/folders.py:322-328 | One pass finds each object's first start and last end |
| `FolderConsole.Console.UndoPlan` | bin/lib/folders.py:316-336 | The loop builds the plan of the undo and the list of conflicts |
| `FolderConsole.Console.UndoFolderLines` | bin/harvester-folders.py:984-1026 | Puts folder lines back last first, and collects those that cannot |
| `FolderConsole.Console.StartUndo` | bin/harvester-folders.py:961-1026 | The lines of the objects are posted before any folder goes back |
| `FolderConsole.Console.KeepLines` | bin/harvester-folders.py:1028-1038 | Lines without their folder are skipped and reported with the folder that is missing; the others are kept |
| `FolderConsole.Console.Undo` | bin/harvester-folders.py:961-1057 | The whole command is the undo of the theorems; its conflicts, failures and objects put back are those of the report |
| `OnboardingGuard.RemainingKeepsOthers` | web/baremetal_onboarding.py:383-384 | Every onboarding taint goes, no other |
| `OnboardingGuard.GuardPatchIff` | web/baremetal_onboarding.py:378-387 | The patch takes effect if and only if the node still has the uid and version read; then it cordons and removes the onboarding taint in one step, and changes nothing else |
| `OnboardingGuard.CordonLastsIff` | web/baremetal_onboarding_runtime.py:155-163 | After which states no controller step can lift the cordon, exactly |
| `OnboardingGuard.Readiness` | web/baremetal_onboarding.py:394-422 | Every fact is true if and only if the host is ready: its last conditions, its cordon, its default disk, its profile, one plugin pod of its own running and ready |
| `OnboardingGuard.OnePluginIff` | web/baremetal_onboarding.py:411-421 | The pods of the plugin on the host are one, running and ready, exactly when the filtered list says so |
| `OnboardingRun.Run.Patch` | web/baremetal_onboarding_runtime.py:100-118 | At most one write, and only on the very state read; an error exit may hide one; a refusal or an answer that never came stops the job; an answered patch is made if and only if the node is the state read |
| `OnboardingRun.Run.Cordon` | web/baremetal_onboarding_runtime.py:128-145 | Each write on a state that carries this installation; another one only after an error exit that hid the one before; ends within ten calls, and stops only for a foreign node, a refusal, a lost answer, or five patches that missed |
| `OnboardingRun.Run.Guard` | web/baremetal_onboarding_runtime.py:148-174 | The node is returned untouched and without a call on a native run, once guarded, or while its promotion runs; a foreign node or a promotion given up stops the job without a call; unguarded otherwise only when the node could not be read again |
| `OnboardingRun.Run.CordonAgain` | web/baremetal_onboarding_runtime.py:260-275 | Writes again only after a promotion completed and lifted the first cordon; any other uncordoning stops the job unwritten |
| `OnboardingRun.Run.Observe` | web/baremetal_onboarding_runtime.py:223-275 | A turn goes on only with a cordoned node that carries this installation, seen in this turn; waits only for a node unread, a native cordon not applied or a promotion under way; gives up only for a reason that is there |
| `StorageCards.OneMatchIff` | web/baremetal_onboarding_runtime.py:184-189 | One match, and free, exactly when a single physical card bears the address and no bond holds it |
| `StorageCards.CardNames` | web/baremetal_onboarding_runtime.py:184-189 | The names of the storage cards; none if and only if some address has not its single free card |
| `StorageCards.LeftAlone` | web/baremetal_onboarding_runtime.py:194-204 | True exactly when no network configuration that applies to the host takes one of them |
| `StorageCards.InPlaceIff` | web/baremetal_onboarding_runtime.py:177-205 | Both together: every address has its card and no configuration that applies takes it |
| `OnboardingRun.Run.VerifyCards` | web/baremetal_onboarding_runtime.py:287-298 | In place exactly as the inventory and the configurations read at these two calls say; an empty inventory or configurations unread are read again; a card missing or taken stops |
| `OnboardingRun.Run.Judge` | web/baremetal_onboarding_runtime.py:276-312 | Passes only out of any promotion, with the storage cards found in place and ready by what was listed in this turn; waits or fails only for a reason that is there; verified cards are not read again |
| `OnboardingRun.Run.Turn` | web/baremetal_onboarding_runtime.py:223-312 | One turn: at most fifteen calls, each within its timeout; a job cancelled stops before any call; passing, waiting and failing each have their reason in this turn |
| `OnboardingRun.Run.Finish` | web/baremetal_onboarding_runtime.py:207-314 | Turns follow each other every five seconds, each for a reason to wait, until one passes or fails for a reason of its own; it times out exactly when no turn may begin any more; returns only a cordoned, checked, ready state of the last turn, its storage cards found in place at some calls of the run; of the writes it knows of there are at most two, none for a promotion under way, the second only after a promotion that completed in between |
| `OnboardingRun.WritesCounted` | web/baremetal_onboarding_runtime.py:100-145 | The writes of a run are at most two, and one for each error exit that hid a write: counted exactly |
| `OnboardingRun.HiddenWriteRepeats` | web/baremetal_onboarding_runtime.py:134-145 | A hidden write is made again: the node read after it calls for a patch that takes effect |
| `CapiTeardown.PostedCoveredIff` | bin/lib/capi_identity.py:343-395 | When the account of a creation cut anywhere leads to all that was posted, exactly |
| `CapiTeardown.SidesReadBack` | bin/lib/capi_identity.py:352-353 | The annotation read back is the list written |
| `CapiTeardown.ExtraSideListed` | bin/lib/capi_identity.py:304-329 | The roles of a side namespace are listed for deletion only when the annotation names it |
| `CapiTeardown.DownKeepsCovered` | bin/harvester-capi.py:816-866 | Wherever an attempt stops: an object left means its account is there and leads to it; only the cluster's own objects go; nothing kept means nothing left |
| `CapiTeardown.AttemptsKeepCovered` | bin/harvester-capi.py:816-866 | The same over any sequence of attempts with any rights, others writing in between |
| `CapiTeardown.SweepCounts` | bin/harvester-capi.py:841-866 | As many objects went as are counted, and each one kept could not be read or deleted |
| `CapiTeardown.LateReadLosesSides` | bin/harvester-capi.py:824-840 | What is lost when the account becomes readable during the attempt |
| `CapiTeardown.DownAnyway` | bin/harvester-capi.py:816-866 | From any state: only own objects go, and when nothing is kept none of those visited that can be read is left |
| `CapiTeardown.LeftIff` | bin/harvester-capi.py:816-866 | With every right nothing is left if and only if everything was visited |
| `CapiTeardown.CutCreationUndoneIff` | bin/harvester-capi.py:948-967 | Whether undoing a creation cut after any number of documents leaves nothing, exactly |
| `CapiTeardown.FirstDocumentLeft` | bin/harvester-capi.py:816-866 | What undoing a creation cut after its first document leaves, for any rights |
| `CapiTeardown.Management.IdentityDown` | bin/harvester-capi.py:816-866 | The loop is the sweep of the lemmas: what is left, how many went, what was kept |
| `RegistrySecrets.OwnTaken` | bin/harvester-capi.py:1040-1051 | Every registry secret made for the cluster is taken |
| `RegistrySecrets.OthersKeptIff` | bin/harvester-capi.py:1040-1051 | Whatever registries are used, no secret of another cluster is taken, if and only if neither name continues the other with `-registry` or `-chart` |
| `RegistrySecrets.RegistrySecretsOf` | bin/harvester-capi.py:1040-1051 | The loops choose the secrets of the lemmas |
| `CapiTeardown.Management.RemoveGenerated` | bin/harvester-capi.py:1012-1030 | Of each kind that can be listed all that can be deleted goes, whatever the other kinds answer |
| `CapiTeardown.Management.RemoveRegistrySecrets` | bin/harvester-capi.py:1054-1073 | Exactly the cluster's registry secrets that can be deleted go |
| `CapiTeardown.Management.WaitGone` | bin/harvester-capi.py:979-989 | Gone exactly when some reading of the cluster, every ten seconds up to the first past the deadline, does not find it |
| `CapiTeardown.Management.RemoveCluster` | bin/harvester-capi.py:970-1037 | From any state: cluster, then identity, then what was rendered for it, then namespace, each only once the one before is gone; only the cluster's own objects go; with no failing call, a cluster that leaves in time takes its identity with it as far as rights go and succeeds exactly when nothing was kept, and a managed namespace goes with the last one |
| `CapiTeardown.Management.Delete` | bin/harvester-capi.py:1076-1090 | The same; where only the identity is left, its account bearing the name, it is removed all the same; an unknown cluster touches nothing |
| `CapiTeardown.Management.Undo` | bin/harvester-capi.py:948-967 | From any cut of a creation: the identity's removal to its end; the namespace goes only if this creation made it, or with the complete removal, and only after an identity gone; then, with no failing call, it does go |
| `ForkliftRollback.StoppedCopiesIff` | bin/harvester-forklift.py:780-815 | After a stop that succeeded a copy runs if and only if, before it, one ran that is not the machine it settles on |
| `ForkliftRollback.WellNamedIsSafe` | bin/harvester-forklift.py:786-797 | With the expected name free or borne by the copy, and one copy at most, none is left running |
| `ForkliftRollback.TakenNameMisleads` | bin/harvester-forklift.py:793-797 | A concrete wave where the wrong machine is stopped |
| `ForkliftRollback.CarefulAgain` | bin/harvester-forklift.py:818-906 | Rolling back again at any time is still one careful rollback |
| `ForkliftRollback.Rollback.WaitGone` | bin/harvester-forklift.py:135-148 | Returns stopped only when the instance is gone, and by the deadline plus one reading |
| `ForkliftRollback.Rollback.HaltVm` | bin/harvester-forklift.py:780-815 | Stopped means halted without instance, or none found and none created, and tells which copies still run; no other machine is touched; a failure comes from an instance still there at the deadline or a call refused |
| `ForkliftRollback.Rollback.StartSource` | bin/harvester-forklift.py:873-899 | Asked to start only if off, recorded once on, each step logged with the world of its instant; a source that could not be started is not recorded |
| `ForkliftRollback.Rollback.PutOneBack` | bin/harvester-forklift.py:863-899 | One source: stop, then start, then record, in that order at every instant; left off only when its machine did not stop |
| `ForkliftRollback.Rollback.WaveRollback` | bin/harvester-forklift.py:818-906 | At the instant of each start and of each record the machine of that source is stopped, and the record comes after the source is on; recorded machines are untouched; a refusal changes nothing; a source that fails does not stop the others: each one requested is recorded, or was tried in this run |
| `ReplicationSignals.OneReasonToStop` | bin/harvester-replication.py:289-344 | Over any sequence: one exception at most, cancelled and suspended never both |
| `ReplicationSignals.FinishedIsFinal` | bin/harvester-replication.py:289-356 | The handlers alone: once the result is built no signal raises, kills or changes the verdict; which safe point would still raise, exactly |
| `ReplicationSignals.NothingAfterResult` | bin/lib/replication_run.py:835-837 | The commands, which build their result after their last safe point: from then on nothing is raised or killed and the verdict stands, even if a rollback begins |
| `ReplicationSignals.ShutdownIsNoRollback` | bin/harvester-replication.py:296-300 | A console shutdown is never turned into a cancellation, nor the command killed |
| `ReplicationSignals.RollbackHasItsTime` | bin/harvester-replication.py:302-312 | Nothing is raised in a rollback and nothing kills it before its deadline |
| `ReplicationSignals.KilledOnlyPastDeadline` | bin/harvester-replication.py:308-312 | When a signal takes its default effect |
| `ReplicationHistory.HistoryTells` | bin/harvester-replication.py:289-356 | After any events: killed if and only if a cancelling signal came past the time granted (four minutes unless the context sets another), and otherwise cancelled, suspended, raised and limited exactly as the events tell: the first request to stop counts if it came before the result and before any rollback, a cancellation is raised at once, a shutdown at the next safe point or alarm |
| `ReplicationSignals.Command.OnCancelSignal` | bin/harvester-replication.py:289-312 | The handler makes the step of the state machine |
| `ReplicationSignals.Command.OnSuspendSignal` | bin/harvester-replication.py:319-331 | Likewise for the shutdown signal |
| `ReplicationSignals.Command.OnSuspendAlarm` | bin/harvester-replication.py:334-344 | Likewise for the alarm |
| `ReplicationSignals.Command.AtSafePoint` | bin/lib/replication_run.py:229-242 | Likewise for a safe point |
| `KvmLocks.SpecPools` | bin/harvester-kvm.py:1759-1773 | The pools of a request, sorted, each once: those of its disks, of the images they are made from, and of the seed |
| `KvmLocks.PoolsOfIff` | bin/harvester-kvm.py:1759-1773 | A pool is asked for exactly when a disk or its image is in it, or the seed is to be |
| `KvmLocks.NetworksOfIff` | bin/harvester-kvm.py:1776-1782 | A network is asked for exactly when a card of that kind is on it |
| `KvmLocks.PathsApart` | bin/harvester-kvm.py:2003-2004 | Two volumes share a lock only if they are one |
| `KvmLocks.ReachableValid` | bin/harvester-kvm.py:1786-1806 | In every reachable state open locks are compatible, and each command holds the beginning of what it asks for |
| `KvmLocks.SideBySideIff` | bin/harvester-kvm.py:1786-1806 | Two commands can be at work at the same time if and only if no lock is asked for by both and exclusively by one |
| `KvmLocks.NeedsIff` | bin/harvester-kvm.py:1993-2006 | The locks of each command, one by one, and how each is asked for |
| `KvmLocks.PoolAlone` | bin/harvester-kvm.py:2732-2768 | Who stops, deletes, defines or sets the start of a pool can be at work beside a command if and only if that command does not ask for the pool |
| `KvmLocks.NetworkAlone` | bin/harvester-kvm.py:2819-2872 | The same for a network |
| `KvmLocks.VolumeAlone` | bin/harvester-kvm.py:1998-2006 | Who creates, sends, resizes or deletes a volume under its lock is beside nobody that asks for it; for a resize or a sending, exactly |
| `KvmLocks.PoolStoppedUnder` | bin/harvester-kvm.py:1375-1378 | A clone, a VM deletion with its storage and a resize can be at work in a pool that is being stopped or deleted |
| `KvmLocks.VolumeTakenUnder` | bin/lib/kvm_ops.py:1937-1950 | The volumes of a clone, a VM deletion, an edit or an added disk can be sent or deleted by another command meanwhile |
| `KvmLocks.OtherVolumesUnlocked` | bin/lib/kvm_edit.py:1229-1240 | So can the seed that a new one replaces, and the image a creation reads |
| `KvmLocks.NeedsDistinct` | bin/harvester-kvm.py:1061-1083 | No command asks twice for the same lock |
| `KvmLocks.BusyByOthers` | bin/harvester-kvm.py:1061-1083 | A lock that is busy for a command is busy because of another one |
| `KvmLocks.OthersKept` | bin/harvester-kvm.py:1786-1806 | The moves of a command never touch the locks of the others |
| `KvmLocks.AsIfNeverRun` | bin/harvester-kvm.py:1803-1806 | A command refused or ended leaves the locks as if it had never run |
| `KvmLocks.LockDirectory.TakeAll` | bin/harvester-kvm.py:1791-1806 | All the locks, or everything closed; refused exactly when another command is in the way |
| `KvmLocks.LockDirectory.Enter` | bin/harvester-kvm.py:1993-1997 | The first locks of a command |
| `KvmLocks.LockDirectory.Hold` | bin/harvester-kvm.py:1999-2006 | The locks taken once the plan is accepted, before anything is written |
| `KvmFollow.CallBounds` | bin/harvester-kvm.py:932-934 | A call is given the time left, no more than the host's own and no less than five seconds, rounded up; it ends within these five seconds after the deadline |
| `KvmFollow.Session.Follow` | bin/harvester-kvm.py:910-952 | Calls and sleeps in turn, each as long as it should be, the first a sleep if so asked; ends on the first conclusive answer: an accepted state, a timeout at or after the deadline, or an error; ends at most the minimum call time after the deadline |
| `JsonDepth.Measure` | bin/harvester-kvm.py:1575-1596 | The loop is the scan of the lemmas |
| `JsonDepth.DepthIsExact` | bin/harvester-kvm.py:1575-1621 | For every value and every text of it the scan measures the nesting depth, so the limit accepts exactly the values within it |
| `JsonDepth.PrefixRefused` | bin/harvester-kvm.py:1620-1621 | A text refused stays refused whatever follows, well formed or not |
| `HelmIndex.PrintReads` | bin/harvester-artefacts.py:242-246 | A plain or quoted text reads back as itself, colons included |
| `HelmIndex.ItemFed` | bin/harvester-artefacts.py:270-290 | An item is read with a field for each scalar, as it stands on the line of its key, and a list for each key with a dash below it, at any depth |
| `HelmIndex.ElementsIff` | bin/harvester-artefacts.py:277-279 | A list is read with its own dashes in order, and equal to them if and only if no dash is deeper |
| `HelmIndex.ItemIff` | bin/harvester-artefacts.py:270-290 | An item is read with exactly the scalar and list fields it has if and only if no scalar goes on below its line and no dash is deeper than a list's own |
| `HelmIndex.VersionsIff` | bin/harvester-artefacts.py:249-291 | The same for all the items of a chart |
| `HelmIndex.ChangesAreCollected` | bin/harvester-artefacts.py:277-279 | The change log among a chart's annotations is read as a list of annotations, where the index has a map |
| `HelmIndex.OtherChartIgnored` | bin/harvester-artefacts.py:268-269 | The lines of another chart change nothing |
| `HelmIndex.IndexReads` | bin/harvester-artefacts.py:249-291 | From an index of that shape, the items of the chart in order, whatever the other charts and keys; exactly as the index has them if and only if all of them are simple |
| `HelmIndex.RawReads` | bin/harvester-artefacts.py:259-262 | The lines of a text are read back with their indents, whatever is skipped between them |
| `HelmIndex.TextReads` | bin/harvester-artefacts.py:249-291 | The same, with the same condition, from the lines of the text, with any indent, blank lines, comments and trailing blanks |
| `HelmIndex.ReadLine` | bin/harvester-artefacts.py:262-290 | One line of the loop |
| `HelmIndex.HelmIndexEntries` | bin/harvester-artefacts.py:249-291 | The loop is the reader of the lemmas, and stops where the program raises |
| `BootNetwork.BootInterfaceBindings` | web/baremetal_boot_network.py:22-49 | The loop computes the bindings, or the first error |
| `BootNetwork.Bound` | web/baremetal_boot_network.py:22-49 | Bindings are one to one, names and addresses well formed, addresses in lower case; a card keeps its configured name, or is numbered; its address is the first of the two fields that is set |
| `BootNetwork.BindingsIff` | web/baremetal_boot_network.py:22-49 | Cards are refused exactly when one is malformed or two have a name or an address in common |
| `BootNetwork.InstallerBootIdentity` | web/baremetal_boot_network.py:133-198 | The loops compute the identity of the lemmas |
| `BootNetwork.IdentityIff` | web/baremetal_boot_network.py:133-198 | Refused exactly for cards that cannot be bound, an `ifname=` that clashes with them, or a rule file that is there and is another |
| `BootNetwork.TokenErrorIff` | web/baremetal_boot_network.py:148-157 | An argument is refused exactly when it is an `ifname=` without an address, or gives a selected name or address to another |
| `BootNetwork.IdentityNames` | web/baremetal_boot_network.py:174-178 | Every card gets its configured name, or a numbered one, and keeps its address in lower case |
| `BootNetwork.IdentityIdempotent` | web/baremetal_boot_network.py:133-198 | Applied to its own result it changes nothing |
| `BootNetwork.IdentityKeepsOrder` | web/baremetal_boot_network.py:142-197 | Kernel arguments and files that were there keep their order; what follows are `ifname=` that were not there; the installer's own default is kept exactly where there was no argument at all and no external storage; without any address nothing is added |
| `BootNetwork.IfnamesMatch` | web/baremetal_boot_network.py:145-167 | Afterwards every `ifname=` about a selected card is its binding, and every selected card has one |
| `BootNetwork.SameBootArgs` | web/baremetal_boot_network.py:64-130 | The first boot gets the same arguments before and after |
| `BootNetwork.BootNamesTheBoundCards` | web/baremetal_boot_network.py:67-74 | The first boot names exactly the bound cards, in order |
| `IdentityRules.InstalledNames` | web/baremetal_boot_network.py:179-197 | The rule file, read back and applied to a card, names it as bound by its own address, in a bond or not, and names no other card |
| `IdentityRules.InstalledCardsKeepNames` | web/baremetal_boot_network.py:133-198 | The config written holds one rule file, which gives each card of the config its name on installed boots, also when its bond has given it another address |
| `FirstBoot.FirstBootReads` | web/baremetal_boot_network.py:64-130 | The text of the arguments, read back, is the network of the config: cards, bond, options, packet size, device, addresses, name servers; what is given besides changes none of it and names no card otherwise |
| `FirstBoot.BootArgsIff` | web/baremetal_boot_network.py:56-130 | Refused exactly for cards, options, numbers or addresses that are not usable, or an argument given besides that competes |
| `StablePaths.StablePathIs` | web/baremetal_disks.py:132-163 | The stable path: by-path to the whole disk if there is one, else the best known kind of by-id, else the kernel's name; in each, the one preferred by form, then length, then name |
| `Disks.LinksMakeExclusive` | web/baremetal_disks.py:141-163 | A stable path is one of the disk's own names: unshared links make unshared paths |
| `Disks.EveryNameFinds` | web/baremetal_disks.py:245-256 | With exclusive links every name of a disk designates it |
| `Disks.Index` | web/baremetal_disks.py:245-256 | Each name leads to the first disk that bears it |
| `Disks.NoErrorIff` | web/baremetal_disks.py:263-327 | The check accepts exactly: a system disk, valid tags, known disks to wipe, and roles on different known disks, large enough, wiped if they hold data |
| `Disks.CheckDiskRoles` | web/baremetal_disks.py:263-327 | The loops give the errors of the lemmas |
| `Disks.CheckedFields` | web/baremetal_disks.py:330-358 | After a check without error: stable paths of the two disks, and a wipe list without repetition, free of both disks, complete |
| `Disks.WipedIsFreeIff` | web/baremetal_disks.py:330-358 | Each path to wipe leads to a disk, and to neither the system nor the data disk if and only if no disk to wipe has another name of these as its stable path |
| `Disks.ExclusiveFields` | web/baremetal_disks.py:245-256 | Where no name is shared: two different paths that lead to the two disks, and in the wipe list the paths that lead to the other disks to wipe, all of these and no other |
| `Disks.SharedLinkWipes` | web/baremetal_disks.py:245-256 | Roles that pass every check and wipe the system disk under a link listed for two disks |
| `Disks.DistinctPathsIff` | web/baremetal_disks.py:330-358 | Whatever roles are accepted, the two paths differ if and only if no two disks that may be chosen together share a stable path |
| `Disks.SharedLinkCollides` | web/baremetal_disks.py:245-256 | Two disks with one link that pass every check in two roles, and are written under one path |
| `Disks.FieldsForInstall` | web/baremetal_disks.py:330-358 | The loop gives the fields of the lemmas |

## Left out

- Other folder commands (`create`, `delete` with its purge of orphan entries, `apply-rename`, `write-back`, `tree`) and the reconciliation of a fleet reading with the cache.
- Folder positions, authors, dates, messages, rate limits, and what is shown or named to whom.
- Undoing an undo that created a folder again: the program raises on such a line, whose start is absent, and the model skips it; resuming one is likewise a failed line here.
- Which conflicts are named to whom, and which are only counted.
- How an object is written in each kind of cluster: whether the write is accepted, refused or lost is a parameter of the run.
- FolderFailures.FailuresRecover: folder lines before the last end done in it; one that fails may be replayed with success after others.
- Undoing an action that was interrupted twice, or some of whose lines failed.
- FolderConsole.Console.EmptyInto: the rows of the children and of the cache come in an order given as a parameter, the one the database lists them in.
- Concurrent actions on the folder journal: one line's reading and writing is taken as one step, and only interruptions, outside moves between runs and refusals interleave.
- A deletion that depends on what the person sees: it never does, only its message does.
- The preflight, the boot files and the kernel modules of onboarding.
- What goes with a namespace when it is deleted.
- Deletions that find the object already gone: no other writer removes the same object during one attempt.
- ForkliftRollback.Rollback.WaveRollback: the record is a set; the order in which its annotation lists the sources is not modelled, nor the vCenter session.
- Between a machine's stop and its source's power-on no other writer acts: who starts the machine again in that instant is not modelled.
- How a wave's status is read from the migration objects: created and cut-over sources are parameters.
- The default effect of a signal is taken to end the process; signal masks and threads are not modelled beyond that.
- Lock files are named by a digest of the object's name: two names are taken to have two files.
- The libvirt work done under the locks, and what starting a VM reads of its pools and networks; which volumes a command works on is its plan, a parameter.
- KvmFollow.Session.Follow: sleeping lasts exactly what was asked, and code between calls takes no time.
- JSON syntax beyond what the depth scan sees: numbers are any text of their characters, and duplicate names are allowed.
- Escapes inside quoted texts of a Helm index: a quoted text is what stands between its quotes. The entry of a list that is a map or goes on below its dash means the text on its dash.
- A Helm index written in JSON, and blanks other than spaces and tabs around a line; a continuation line that begins with `#` reads like a comment, and is one of the lines skipped.
- Text that is not ASCII when letters are put in lower case, and values of other types than the expected ones in the network config.
- FirstBoot.FirstBootReads: IPv4 parsing is a parameter, taken to write addresses and masks without separators of the arguments (its several refusals are one error).
- The inventory's parsing (`lsblk`, links, DMI): disks are given with their links.
