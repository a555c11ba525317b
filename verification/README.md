# Sub2API limit portal: verified models

Dafny models of the parts of the portal and its updater whose correctness depends on every crash, failure and
interleaving, with proofs. `dafny verify dfyconfig.toml` checks all of them.

## What is modelled

**The update transaction** (`cmd/sub2api-limit-updater`). `UpdateProtocol` is the shared durable state (five managed
files, their backups, journal, status, request) with the portal's run state, one event per disk write or systemctl
effect, and the invariant every run keeps. Its predicate `Legal` lists what must have been established when an event
happens: which program step may come next, from the journal, cursor and status on disk. A restore copies the backup the
journal names; that this is the reference content follows from the invariant. `UpdaterMachine` is the host: each system call may
fail before or after its effect, the process may die before or after it, and the portal works on its database whenever
it runs. `Updater` is the Go code, function by function, in imperative form. `Legal` is a proof obligation at each of
its system calls, not an assumption, so every run of the code is a legal run; `Updater.Operate` states the theorems of
`UpdateTheorems` for any number of processes that fail and die anywhere. The contracts have a second half: a ghost count
of mishaps, with the last step that failed, lets them say what each function must achieve when nothing goes wrong, and
from the install to the durable status also what it must achieve when exactly one thing does. `UpdateRecovery` shows that recovery
is never stuck, `UpdateLimits` the corners, `UpdateExclusion` the portal's side. `FileRestore` is the copying and
restoring of files, for any number of them.

**The batch quota-reset engine.** `ResetTables` states each store transaction as one function on the rows and proves
what it keeps; `ResetStore` is the SQL code statement by statement, proved against those functions. `ResetEngine` is
the state machine of all threads (single resets and limit changes, job creation, runners, their four workers, binding
writers) over `maintenanceMu`, `bindingMu` and the key gates. `ResetInvariant`, `ResetKeeps` and `ResetWork` prove its
invariant, `ResetTheorems` the results over runs, `ResetChecks` who is called, skipped and refused, `ResetProgress` that no
job is ever stuck. `ResetServer` is the handler
and worker code; each of its steps is proved to be one the state machine has.

**The sync manager's generation protocol.** Every upstream key has a version that only grows; every cached or stored
value remembers the connection it came over and the version it shows. `SyncProtocol` is the state machine of syncs,
confirmed mutations, binding handlers and the settings rotation, `SyncInvariant` its invariant, `SyncTheorems` and
`SyncOvertaking` the results over runs, `SyncEffects` what rows and cache then show, `SyncManager` the code, each section proved to be one step.

**Locks.** `LockOrder` proves deadlock freedom once for all programs that take their locks along one order, and gives
the lock programs of the handlers, workers, sync flights and the rotation, each with a contract that puts it in that order.

**Versions.** `SemverText` and `SemverOrder` state Semantic Versioning 2.0.0 (sections 2, 9, 10 and 11) without
reference to either implementation; `UpdaterSemver` and `PortalVersion` are the two implementations, proved against it;
`ReleaseAgreement` connects the portal's and the updater's decisions about a release. `Text` holds the string functions.

## Claims that do not hold, and what holds instead

- An ordinary failed status does not always mean that its operation changed no file: a process that dies between the
  commit and the status write leaves the next one to reconcile, and that one may fail (`UpdateLimits.FailureAfterCommit`).
  It changed a file if and only if it had committed (`UpdateTheorems.FailureWroteIffCommitted`).
- A rollback between the durable `backed_up` journal and the first install restarts the portal without restoring. If
  the updater then dies before the journal goes, recovery overwrites what the portal has written
  (`UpdateLimits.LateWritesAreLost`). A repeated recovery with a full cursor restarts the portal from what it has written
  meanwhile, not from the reference (`UpdateLimits.RepeatedRecoveryKeepsLaterWrites`), hence
  `UpdateTheorems.AllRestored` speaks of the first start. Files are kept if and only if the cursor is full or they equal
  the reference (`UpdateLimits.RecoveryKeepsFilesExactlyWhen`, and `Updater.RestoreTransactionFiles` for the code).
- `rolled_back` is durable before the journal goes, so an operation that looks finished can return to `recovering`
  (`UpdateLimits.FinishedRollbackCanReturn`), if and only if its journal is still on disk
  (`UpdateTheorems.RollbackReturnsIffJournalRemains`), and meet a batch job (`UpdateExclusion.ReturningRollbackMeetsAJob`).
  A step of the updater breaks the exclusion of updates and jobs if and only if it is such a return with a job active
  (`UpdateExclusion.UpdaterBreaksExactlyWhen`). A read of a handler loses it if and only if it fails on a request that is
  there or on an active status (`UpdateExclusion.ReadingBreaksExactlyWhen`; the runs are `UnreadableRequestMeetsAJob` and
  `UnreadableStatusMeetsAJob`). `UpdateExclusion.JobsAndUpdatesExcludeEachOther` excludes exactly these steps.
- An update commits undisturbed if and only if the installed version is no pre-release: the journal check refuses one, and
  the update ends as `failed`/`backing_up` with nothing changed (`Updater.ApplyTransaction`).
- Confirmed mutations do not refresh the key cache, so a later binding may store an older value
  (`SyncTheorems.RebindInsertsAnOldValue`). A cached value is older if and only if a mutation overtook it
  (`SyncTheorems.CacheLagsOnlyBehindMutations`), a found snapshot and the binding made of it if and only if the cached value
  was (`FoundIsOldExactlyWhen`, `BoundIsOldExactlyWhen`), and a stored row if and only if it was inserted so or a confirmed
  mutation could not be stored over it (`RowIsOldExactlyWhen`).
- Two syncs of one generation may publish out of read order (`SyncTheorems.SyncsMayPublishOutOfOrder`), if and only if
  singleflight has forgotten the first or another one that can still publish is under way
  (`SyncOvertaking.OutOfOrderExactlyWhen`), but never behind a confirmed mutation (`SyncTheorems.PublishedIsFresh`).
- `stableReleaseVersion` is the identity on exactly the accepted tags without surrounding white space
  (`ReleaseAgreement.StableTagIsCanonical`, `TrailingSpaceTag`).

## Model

| member | source | states |
|---|---|---|
| `UpdateTheorems.CrashAtomicity` | cmd/sub2api-limit-updater/apply.go:172-398 | For all crashes, failures, restarts of the updater and of the portal: whenever no journal is on disk, either no managed file was ever written, or portal and updater are both the new binaries of one version, or the binaries are the reference and all five files equalled it (absent ones included) when the portal was first started again |
| `UpdateTheorems.JournalDescribesDisk` | cmd/sub2api-limit-updater/apply.go:249-311 | With no journal nothing was written since the last transaction ended; under a `prepared` one nothing since it appeared; with a `backed_up` one every backup equals the reference, and the last `cursor` files do too until the portal starts from them; a journal on disk always passes its own check |
| `UpdateTheorems.StatusTruthfulness` | cmd/sub2api-limit-updater/apply.go:46-119 | `completed` implies the portal binary reports the requested version; `rolled_back` implies the old files were restored; any other failure but `rollback_failed` changed no managed file, or both binaries are new |
| `UpdateTheorems.FailureWroteIffCommitted` | cmd/sub2api-limit-updater/apply.go:56-63 | An operation that ended in an ordinary failure wrote a managed file if and only if it had committed before: the case in which the next run finds the target installed and cannot check it |
| `UpdateTheorems.RollbackReturnsIffJournalRemains` | cmd/sub2api-limit-updater/apply.go:159-170 | An operation whose `rolled_back` status is durable can run again if and only if its journal is still on disk |
| `UpdateTheorems.LegalRunsAreSafe` | cmd/sub2api-limit-updater/apply.go:30-419 | At every moment of a run all of these hold together, no file is backed up or written while the portal runs, every stop and write happens while `MaintenancePending` holds, the portal is only started on two new binaries or the reference, and a request goes only after a terminal status with its own operation ID; and every commit replaced an older version |
| `UpdateTheorems.CommitsUpgrade` | cmd/sub2api-limit-updater/release.go:106-111 | Over any run, every commit leaves two binaries that report its target, and replaced a portal that was on disk when its transaction was opened, or when the portal was stopped for it, and that reported an older version: updates only go forward |
| `UpdateTheorems.NoDowngradeOpens` | cmd/sub2api-limit-updater/release.go:109-111 | While a transaction is open its target is newer than the version the reference portal reports |
| `UpdateTheorems.HalfChangedMeansMaintenance` | internal/releasecheck/manager.go:98-115 | As long as a managed file has been written and not everything put back, the operation of the journal still runs or is `rollback_failed`, so the portal sees maintenance pending |
| `UpdateTheorems.AbsentMeansUnwritten` | cmd/sub2api-limit-updater/apply.go:249-256 | While no journal is on disk no managed file has been written since the last transaction ended |
| `UpdateTheorems.TouchedMeansWritten` | cmd/sub2api-limit-updater/apply.go:296-311 | The remembered set of operations that changed a file is exactly the set for which some step of the run wrote one |
| `UpdateTheorems.BaseWasRunFrom` | cmd/sub2api-limit-updater/apply.go:211-243 | The remembered start files are the disk at a moment the portal ran, with no managed file written by the updater since |
| `UpdateTheorems.ReferenceWasOnDisk` | cmd/sub2api-limit-updater/apply.go:249-272 | The reference is what was on disk when the last transaction was opened, or when the portal was stopped under its prepared journal |
| `UpdateTheorems.NotDirtyMeansUnwritten` | cmd/sub2api-limit-updater/apply.go:249-299 | While nothing is marked as changed, no step since the journal appeared wrote a managed file |
| `UpdateTheorems.UntouchedMeansUnwritten` | cmd/sub2api-limit-updater/apply.go:172-336 | If no transaction ended in a commit or a restore, no step of the whole run wrote a managed file |
| `UpdateTheorems.RolledBackHasReference` | cmd/sub2api-limit-updater/apply.go:159-170 | A `rolled_back` status stands only under its journal or after a completed restore |
| `UpdateProtocol.StepKeepsInv` | cmd/sub2api-limit-updater/apply.go:172-419 | Every step keeps the invariant tying journal, files, backups, status and request together; that a restored or settled file is the reference is derived here, from the backups and the cursor |
| `UpdateProtocol.RunKeepsInv` | cmd/sub2api-limit-updater/apply.go:172-419 | The invariant holds after every legal run |
| `UpdateProtocol.CheckpointIsLegal` | cmd/sub2api-limit-updater/apply.go:406-419 | A file that has just been restored from its backup may be checkpointed |
| `UpdateProtocol.BackupsRestore` | cmd/sub2api-limit-updater/files.go:99-110 | What a restore copies from a matching backup, or removes, is the reference content of that file |
| `UpdateRecovery.RecoveryCanFinish` | cmd/sub2api-limit-updater/apply.go:338-398 | Recovery is never stuck: from every reachable state with a journal the schedule of the code (running status, stop, restores, start and check, terminal status) can be followed to no journal, `rolled_back` and everything restored; that the code follows it is `Updater.RunApply` |
| `UpdateRecovery.RestoreCanFinish` | cmd/sub2api-limit-updater/apply.go:406-419 | From every persisted cursor the restore can be driven to the full cursor; with a full cursor no step is needed |
| `UpdateRecovery.RestoreCanAdvance` | cmd/sub2api-limit-updater/apply.go:406-419 | From every cursor short of the end the next backup can be copied back and checkpointed |
| `UpdateRecovery.NextFileIsLegal` | cmd/sub2api-limit-updater/apply.go:406-419 | The file the cursor points at may be restored from its backup, and its checkpoint written after it |
| `UpdateRecovery.RecoveryCanBegin` | cmd/sub2api-limit-updater/apply.go:338-382 | Every state with a journal admits the running status and, where the code stops the portal, the stop; neither touches a file |
| `UpdateRecovery.ReopeningCanFinish` | cmd/sub2api-limit-updater/apply.go:383-398 | After a full restore the old portal can be started again and checked, each where the code does so |
| `UpdateRecovery.RollbackCanBeRecorded` | cmd/sub2api-limit-updater/apply.go:159-170 | Status, request and journal of a reopened portal can be concluded |
| `UpdateRecovery.RestoredFully` | cmd/sub2api-limit-updater/apply.go:211-243 | With a full cursor, or before any write, the binaries are the reference ones and report the old version |
| `UpdateLimits.BackupCanBeReached` | cmd/sub2api-limit-updater/apply.go:249-294 | Every installation of an older version can reach a durable complete backup of itself |
| `UpdateLimits.InstallCanSucceed` | cmd/sub2api-limit-updater/apply.go:296-331 | From a fresh backup the update can be installed, started and checked |
| `UpdateLimits.CommitCanStayUnrecorded` | cmd/sub2api-limit-updater/apply.go:332-336 | A commit can be durable while its status still runs |
| `UpdateLimits.FailureAfterCommit` | cmd/sub2api-limit-updater/apply.go:46-52 | A run in which an ordinary failure is recorded although both binaries are new |
| `UpdateLimits.LateWritesAreLost` | cmd/sub2api-limit-updater/apply.go:289-299 | A run in which recovery overwrites what the portal wrote after an early rollback |
| `UpdateLimits.RepeatedRecoveryKeepsLaterWrites` | cmd/sub2api-limit-updater/apply.go:366-398 | A run in which a repeated recovery starts the portal from a database that is not the reference |
| `UpdateLimits.RecoveryKeepsFilesExactlyWhen` | cmd/sub2api-limit-updater/apply.go:406-419 | A recovery leaves the files as it finds them if and only if the cursor is full or they are the reference anyway: when late writes are lost, and when they are kept |
| `UpdateLimits.FinishedRollbackCanReturn` | cmd/sub2api-limit-updater/apply.go:159-170 | A run in which maintenance looks over and the operation is then taken up again |
| `UpdateExclusion.JobsAndUpdatesExcludeEachOther` | internal/httpapi/admin_update.go:38-83 | No reachable state has an active batch job and a queued, running or `rollback_failed` operation, unless a finished operation re-enters recovery, or a read failed on a request that is there or on an active status |
| `UpdateExclusion.StepKeepsExcluded` | internal/releasecheck/manager.go:98-115 | Every step of updater, handlers and jobs keeps the exclusion and what the lock holder has seen |
| `UpdateExclusion.UpdaterOnlyEndsMaintenance` | internal/releasecheck/manager.go:98-153 | No step of the updater makes maintenance pending, unless it takes up a finished operation |
| `UpdateExclusion.UpdaterBreaksExactlyWhen` | cmd/sub2api-limit-updater/apply.go:338-347 | A step of the updater breaks the exclusion if and only if it takes up a finished operation while a job is active |
| `UpdateExclusion.ReadingBreaksExactlyWhen` | internal/releasecheck/manager.go:384-433 | A handler's read loses the exclusion if and only if it fails on a request that is there, or on an active status |
| `UpdateExclusion.WorldsAreLegal` | internal/releasecheck/manager.go:286-326 | Updater, handlers, jobs and restarts of the portal together make a legal run of the update protocol, so its theorems hold of them |
| `UpdateExclusion.OnlyFinishedOperationsReturn` | cmd/sub2api-limit-updater/apply.go:338-347 | An operation that re-enters recovery unseen is one whose own terminal status is durable, and not `rollback_failed` |
| `UpdateExclusion.PublishingIsLegal` | internal/releasecheck/manager.go:286-326 | `Apply` publishes only where no request and no job exist, which is what the update protocol asks of the portal |
| `UpdateExclusion.NoUpdaterStepDuringAMutation` | internal/httpapi/quota_resets.go:183-215 | While a mutation holds the lock past its check, or a job runs, the updater can neither stop the portal nor write a managed file |
| `UpdateExclusion.ReturningRollbackMeetsAJob` | cmd/sub2api-limit-updater/apply.go:159-170 | The first exception: a job created between the `rolled_back` status and the removal of the journal meets the returning operation |
| `UpdateExclusion.UnreadableRequestMeetsAJob` | internal/releasecheck/manager.go:419-433 | The second: an unreadable request that is pending looks like none, and a job starts beside a queued update |
| `UpdateExclusion.UnreadableStatusMeetsAJob` | internal/releasecheck/manager.go:398-417 | The third: with no request on disk, an active status that cannot be read, such as `rollback_failed`, lets a job start |
| `UpdaterMachine.Machine.Attempt` | cmd/sub2api-limit-updater/apply.go:428-432 | A system call may fail with or without its effect and may be the process's last; without a mishap it succeeds |
| `UpdaterMachine.Machine.Strike` | cmd/sub2api-limit-updater/apply.go:428-432 | The call takes effect or not, reports that or not, kills the process or not; each counts as at most one mishap, and so does starting a portal that will never become ready |
| `UpdaterMachine.Machine.Ready` | cmd/sub2api-limit-updater/apply.go:555-575 | A portal that was started such that it never becomes ready never answers; any other one does, unless something goes wrong |
| `UpdaterMachine.Machine.ServiceState` | cmd/sub2api-limit-updater/apply.go:450-462 | A printed `inactive` or `failed` means the portal was stopped, and any other readable state that it ran; without a mishap the state printed is the portal's |
| `UpdaterMachine.Machine.LetPortalRun` | internal/releasecheck/manager.go:286-326 | While an updater process runs, the portal changes nothing but its database, an absent request and its own run state, and nothing at all when stopped |
| `UpdaterMachine.Machine.LetSystemRun` | internal/releasecheck/manager.go:286-326 | Between two updater processes the portal may also be started again by anyone while no transaction is open, any number of times; binaries, backups, journal and status stay |
| `UpdaterMachine.Machine.Launch` | cmd/sub2api-limit-updater/apply.go:30-52 | A new updater process meets whatever the portal and earlier processes have left |
| `UpdaterMachine.Machine.Sound` | cmd/sub2api-limit-updater/apply.go:30-120 | The present state satisfies the protocol's invariant |
| `Updater.RunApply` | cmd/sub2api-limit-updater/apply.go:30-120 | Any failures and crashes: the run stays legal, success means no journal and a terminal status, and with no transaction open the binaries only change for a target that is newer than the installed version, the latest release, for this host and not manual. Without mishaps: an open transaction is rolled back; an answered request is only deleted; any other request ends with exactly the state and phase of `Verdict`; a request for a newer installable release ends with both its binaries in place and `completed`, never as up to date |
| `Updater.ServePending` | cmd/sub2api-limit-updater/apply.go:46-119 | The same once no transaction is open; success means up to date exactly for an installed version that is newer than the target |
| `Updater.VerdictExactlyWhen` | cmd/sub2api-limit-updater/release.go:65-147 | Exactly when an undisturbed request ends up to date, completed, for the installer, or because its target is no longer the latest release: each in terms of the order of the two versions, the host, the release's tag and mode, and what the binaries report |
| `Updater.BeginAndServe` | cmd/sub2api-limit-updater/apply.go:56-119 | The same from the running status of a new operation on, with the request it answers gone at the end |
| `Updater.ServeRequest` | cmd/sub2api-limit-updater/apply.go:60-119 | Reconciles a request whose target is installed, otherwise prepares and installs; undisturbed, the outcome is the one of `Verdict`, success exactly when that is `succeeded` |
| `Updater.PrepareAndInstall` | cmd/sub2api-limit-updater/apply.go:66-119 | From `prepareUpdate` on: each refusal ends with its own terminal status, an accepted release with that of the transaction; success means that the release is in place if it was newer, and up to date otherwise |
| `Updater.CheckAndInstall` | cmd/sub2api-limit-updater/apply.go:79-119 | Nothing is installed unless both candidates report the target and the portal the running version; undisturbed, exactly then |
| `Updater.InstallUpdate` | cmd/sub2api-limit-updater/apply.go:96-119 | Success means both candidate binaries are in place and `completed` is durable; undisturbed, that happens exactly for a stable installed version. After any one mishap the process survives, either both are in place, or both old ones are and that is durable: `rolled_back` with no journal, every file as the portal left it and the portal running if and only if it was; or `failed`/`backing_up` before anything was written; or `rollback_failed` with the old portal still running because it could not be stopped |
| `Updater.RecordFailure` | cmd/sub2api-limit-updater/apply.go:97-117 | A transaction that was not committed ends with the status its result calls for: without further mishaps `rolled_back` durable with request and journal gone, `rollback_failed` beside its journal, or the ordinary failure with its request gone |
| `Updater.InstalledPortalMatchesRequest` | cmd/sub2api-limit-updater/apply.go:122-135 | Matches only if the running updater's version is the target and the portal reports it; an error only for the same version |
| `Updater.TouchedRequestIsInstalled` | cmd/sub2api-limit-updater/apply.go:122-135 | A request without journal that changed files was committed: the updater on disk is its target, so the next run reconciles it |
| `Updater.PrepareUpdate` | cmd/sub2api-limit-updater/release.go:65-204 | A release is accepted only if its tag is the requested one and newer than the installed version, and it is for this host and not manual; found installed only if it is not newer; left to the installer only if the host or the release asks for that. Undisturbed, each exactly then; accepted, the candidates are the release's |
| `Updater.FetchRelease` | cmd/sub2api-limit-updater/release.go:113-204 | The downloads in order, with the manifest's mode looked at after the first; undisturbed only a manual release is refused |
| `Updater.Progress` | cmd/sub2api-limit-updater/status.go:172-179 | A progress report changes the status and nothing else the updater relies on |
| `Updater.FetchPart` | cmd/sub2api-limit-updater/release.go:121-134 | A download and its check, with a progress report before each; nothing but the status changes |
| `Updater.FinishOperation` | cmd/sub2api-limit-updater/apply.go:145-150 | The terminal status becomes durable first, then the request goes, without a look at whose it is, and it is this operation's; undisturbed both happen |
| `Updater.FinishRolledBackOperation` | cmd/sub2api-limit-updater/apply.go:159-170 | Success means `rolled_back` is durable, this operation's request is gone, no journal is left and all files are restored; the binaries and, undisturbed, the portal stay as they are; after one mishap `rolled_back` is durable all the same unless it could not be written |
| `Updater.ClearRolledBack` | cmd/sub2api-limit-updater/apply.go:163-168 | The request of the rolled-back operation goes before its journal |
| `Updater.ApplyTransaction` | cmd/sub2api-limit-updater/apply.go:172-336 | Applied means committed binaries and no journal; rolled back means everything reopened as it was; any other failure wrote no file. Undisturbed it commits exactly when target and installed version are stable. After one mishap it commits too, or rolls back to both old binaries with the portal running if and only if it was, unless the journal was not written, the portal could not be stopped, or only the journal of the new, checked version could not be removed |
| `Updater.RunTransaction` | cmd/sub2api-limit-updater/apply.go:257-335 | From the durable `prepared` journal on: committed, rolled back to the binaries of the reference, or rollback failed; after one mishap the last only with the portal still running or the new version in place |
| `Updater.PrepareBackup` | cmd/sub2api-limit-updater/apply.go:181-248 | The service state and a fresh, empty backup directory, and the progress report, before anything is journalled; the state recorded is the one at the call |
| `Updater.MakeBackupDirectory` | cmd/sub2api-limit-updater/apply.go:185-194 | A new backup directory is empty and changes nothing else |
| `Updater.WritePreparedJournal` | cmd/sub2api-limit-updater/apply.go:249-256 | The `prepared` journal is accepted exactly for stable versions and leaves the files alone |
| `Updater.BackUpPhase` | cmd/sub2api-limit-updater/apply.go:257-294 | Done means the journal is `backed_up` with all five entries, the portal is stopped and nothing was changed |
| `Updater.StopForBackup` | cmd/sub2api-limit-updater/apply.go:257-273 | A portal that ran is stopped before the backup; with one mishap it gives up (`rollback_failed`) exactly on a portal that still runs after a failing stop, and goes on to roll back one that has stopped, or that it has not tried to stop |
| `Updater.RecordBackup` | cmd/sub2api-limit-updater/apply.go:274-294 | The backed-up journal is written only over complete backups of the files as the portal left them |
| `Updater.BackUpFiles` | cmd/sub2api-limit-updater/apply.go:274-288 | After the loop every backup equals its file or records its absence, and nothing but backups changed |
| `Updater.SaveFile` | cmd/sub2api-limit-updater/files.go:78-97 | The entry records the file or its absence, the copy equals it, and no other backup changes |
| `Updater.CopyFile` | cmd/sub2api-limit-updater/files.go:187-223 | Success means the backup equals the content; after a failure only this backup may differ |
| `Updater.InstallPhase` | cmd/sub2api-limit-updater/apply.go:296-311 | Success means both candidates are in place; `changed` is set before any write |
| `Updater.AtomicInstall` | cmd/sub2api-limit-updater/files.go:112-122 | The destination is as before or the candidate, and the candidate on success |
| `Updater.RestartPhase` | cmd/sub2api-limit-updater/apply.go:313-331 | Success means the new portal reports the target, and was started and found healthy if it ran before |
| `Updater.StartUpdatedPortal` | cmd/sub2api-limit-updater/apply.go:320-328 | The new portal is started only with both binaries installed; undisturbed the start succeeds |
| `Updater.InstallAndRestart` | cmd/sub2api-limit-updater/apply.go:296-331 | The two phases in order; without a mishap they reach a committable state |
| `Updater.CommitOrRollBack` | cmd/sub2api-limit-updater/apply.go:296-335 | Removing the journal is the commit; undisturbed it commits. A failed install, restart or health check after which nothing else goes wrong is rolled back, with the portal running if and only if it was; rollback fails then only if the new version is in place and checked and just its journal could not be removed |
| `Updater.Rollback` | cmd/sub2api-limit-updater/apply.go:211-244 | The closure: nothing if no journal was written; otherwise rolled back means reopened and restored; without further mishaps a journalled operation is always rolled back, and the portal runs if and only if it did |
| `Updater.RollBackJournaled` | cmd/sub2api-limit-updater/apply.go:216-243 | With a journal the result is exactly one of rolled back and rollback failed |
| `Updater.RestoreChanged` | cmd/sub2api-limit-updater/apply.go:216-229 | Files are restored exactly when they may have changed; afterwards none differs from the reference |
| `Updater.StopAndRestore` | cmd/sub2api-limit-updater/apply.go:216-228 | Success means the portal stopped, every entry was restored and checkpointed, and all files equal the reference |
| `Updater.Reopen` | cmd/sub2api-limit-updater/apply.go:229-243 | The old portal is started only on restored files, and found to report the old version; undisturbed this succeeds, and the portal runs if and only if it did |
| `Updater.RestoreTransactionFiles` | cmd/sub2api-limit-updater/apply.go:400-419 | Success means a full cursor and all files restored; a full cursor at the start changes nothing; undisturbed it succeeds |
| `Updater.RestoreNext` | cmd/sub2api-limit-updater/apply.go:408-417 | One file restored, then the cursor made durable |
| `Updater.RestoreFile` | cmd/sub2api-limit-updater/files.go:99-110 | The original becomes its backup, or is removed if it did not exist; it fails on its own only if the backup is missing |
| `Updater.NextRestoreIsLegal` | cmd/sub2api-limit-updater/apply.go:406-412 | What the next restore copies from its backup is the reference content of its file |
| `Updater.RecoverInterruptedTransaction` | cmd/sub2api-limit-updater/apply.go:338-364 | Recovered exactly when a journal was on disk; success means no journal, `rolled_back` of that operation durable, and everything restored; undisturbed it succeeds. After one mishap `rollback_failed` is durable beside the journal, or `rolled_back` is, unless a status could not be written |
| `Updater.RestoreAndRecord` | cmd/sub2api-limit-updater/apply.go:348-364 | The restore of an interrupted transaction and the terminal status its result calls for |
| `Updater.RestoreInterruptedTransaction` | cmd/sub2api-limit-updater/apply.go:366-398 | Success means the old portal is back on restored files (or was never stopped for good), under either journal phase |
| `Updater.PreparedIsUntouched` | cmd/sub2api-limit-updater/apply.go:366-398 | Under a `prepared` journal there is nothing to restore |
| `Updater.StopPortalService` | cmd/sub2api-limit-updater/apply.go:428-448 | Stopped means inactive, also after a failing `systemctl stop`; every other answer is an error; with one mishap it reports a portal as not stopped only if it still runs |
| `Updater.SeeItStop` | cmd/sub2api-limit-updater/apply.go:435-447 | Undisturbed, the portal is reported as stopped exactly if it is inactive |
| `Updater.ServiceIsActive` | cmd/sub2api-limit-updater/apply.go:478-494 | Without an error, active exactly if the portal ran at the call; `deactivating` and unknown states are errors |
| `Updater.BinaryVersion` | cmd/sub2api-limit-updater/apply.go:496-514 | Success exactly when the file runs and reports the expected version |
| `Updater.ReportsVersion` | cmd/sub2api-limit-updater/apply.go:496-514 | A binary passes exactly with the expected version, compared as versions |
| `Updater.WaitForHealthy` | cmd/sub2api-limit-updater/apply.go:516-553 | Success means active, ready and reporting the version; undisturbed a running portal is found healthy exactly if it becomes ready and reports it; with a second attempt one missing answer makes no difference |
| `Updater.CheckHealth` | cmd/sub2api-limit-updater/apply.go:523-531 | One round: active, ready and reporting the version |
| `Updater.VerifyPortal` | cmd/sub2api-limit-updater/apply.go:329-331 | The portal binary's version, checked when it was not running before |
| `Updater.StatusWriter.Running` | cmd/sub2api-limit-updater/status.go:172-179 | The running status of this operation, in memory and on disk |
| `Updater.StatusWriter.Finish` | cmd/sub2api-limit-updater/status.go:181-190 | The terminal status of this operation, in memory and on disk |
| `Updater.ReadUpdateRequest` | cmd/sub2api-limit-updater/status.go:46-82 | A request read is the one on disk; a missing one is told apart from an unreadable one |
| `Updater.ReadUpdateStatus` | cmd/sub2api-limit-updater/status.go:109-138 | The status on disk, or an error |
| `Updater.ConsumeFinishedRequest` | cmd/sub2api-limit-updater/status.go:140-156 | Deletes a request exactly when a terminal status of the same operation is durable, and otherwise changes nothing |
| `Updater.ConsumeRequestForOperation` | cmd/sub2api-limit-updater/status.go:158-170 | Afterwards no request of this operation is left; a request of another one is never touched |
| `Updater.ConsumeUpdateRequest` | cmd/sub2api-limit-updater/transaction.go:181-189 | Deletes the request if there is one |
| `Updater.WriteTransactionJournal` | cmd/sub2api-limit-updater/transaction.go:75-83 | The journal becomes durable if and only if it passes its check, unless something goes wrong |
| `Updater.ReadTransactionJournal` | cmd/sub2api-limit-updater/transaction.go:85-115 | The journal on disk, which always passes its check |
| `Updater.JournalIsValid` | cmd/sub2api-limit-updater/transaction.go:117-169 | Every journal a run leaves on disk satisfies `validateTransactionJournal` |
| `Updater.Operate` | cmd/sub2api-limit-updater/apply.go:30-120 | Any number of updater processes, each started on what the last one left and failing or killed anywhere, with the portal restarted in between: at every moment of the run the transaction is all or nothing, the journal describes the disk, the status tells the truth, files move only while the portal is stopped and maintenance is pending, and requests (also by the unconditional delete of `finishOperation`) go only after their own terminal status, and every commit replaced an older version |
| `FileRestore.RestoredContents` | cmd/sub2api-limit-updater/apply.go:406-419 | A restore puts every remaining entry back and touches no other path |
| `FileRestore.RestoringTwice` | cmd/sub2api-limit-updater/apply.go:406-419 | Restoring the next file again, as after a crash before its checkpoint, does not change where the restore ends |
| `FileRestore.ReplayEndsAlike` | cmd/sub2api-limit-updater/apply.go:406-419 | For every interleaving of restores, checkpoints and crashes from any persisted cursor: with the full cursor the files are those of one uninterrupted restore, and each checkpoint brings it one file nearer |
| `FileRestore.RestoreUntilDone` | cmd/sub2api-limit-updater/apply.go:406-419 | Interrupted any number of times and resumed from the cursor on disk, the restore ends in the files of one uninterrupted restore; it ends once there are fewer mishaps than attempts |
| `FileRestore.RestoreTransactionFiles` | cmd/sub2api-limit-updater/apply.go:406-419 | Wherever it stops, where the restore will end is unchanged; the cursor only grows; a full cursor rewrites no file |
| `FileRestore.RestoreFile` | cmd/sub2api-limit-updater/files.go:99-110 | The original is as before or restored; a temporary file is left only if the process was killed, or if removing it failed as well |
| `FileRestore.AtomicCopy` | cmd/sub2api-limit-updater/files.go:128-185 | The destination is as before or exactly the source, whatever fails; success means the source; a temporary file is left only if the process was killed, or if removing it failed as well |
| `FileRestore.RemoveTemporary` | cmd/sub2api-limit-updater/files.go:136-141 | The deferred removal, whose error is ignored |
| `FileRestore.CopyWithContext` | cmd/sub2api-limit-updater/files.go:225-253 | The target always holds a prefix of the source, and all of it on success; short writes and reads without progress are errors |
| `SemverText.ParseFindsWhatIsDenoted` | cmd/sub2api-limit-updater/semver.go:10-42 | Cutting a text at its signs finds exactly the version it denotes under sections 2, 9 and 10, so no text denotes two |
| `SemverText.ParseRender` | internal/sub2api/version.go:73-82 | Parsing the text of a version gives the version back |
| `SemverOrder.PrecedesIsTotal` | cmd/sub2api-limit-updater/semver.go:44-83 | The relation both comparators compute (`UpdaterSemver.CompareSemVersion`, `PortalVersion.AtLeast`) is a strict total order on the versions the parsers can return |
| `SemverOrder.StandardExamples` | cmd/sub2api-limit-updater/semver.go:44-83 | The relation orders the examples of sections 11.2 and 11.4.4 as the standard does |
| `SemverOrder.NumeralOrder` | cmd/sub2api-limit-updater/semver.go:107-118 | Comparing length, then text, compares the values of numeric identifiers, because they have no leading zeros |
| `SemverOrder.SameLengthText` | cmd/sub2api-limit-updater/semver.go:107-118 | For numerals of one length, text order is numeric order |
| `UpdaterSemver.PatternLanguage` | cmd/sub2api-limit-updater/semver.go:10 | The updater's regular expression accepts exactly major.minor.patch with optional identifiers, and its groups are their texts |
| `UpdaterSemver.ParseSemVersion` | cmd/sub2api-limit-updater/semver.go:19-42 | Accepts exactly the texts of Semantic Versioning whose numbers fit 64 bits, with the version they denote |
| `UpdaterSemver.ParsePreRelease` | cmd/sub2api-limit-updater/semver.go:32-40 | Accepts exactly the pre-release texts without leading zeros in numeric identifiers |
| `UpdaterSemver.ParseNumbers` | cmd/sub2api-limit-updater/semver.go:24-31 | The three numbers, if all fit 64 bits |
| `UpdaterSemver.SubmatchesMean` | cmd/sub2api-limit-updater/semver.go:19-42 | What the groups of a match mean for the version |
| `UpdaterSemver.CompareSemVersion` | cmd/sub2api-limit-updater/semver.go:44-83 | -1, 0 or 1 exactly as section 11 orders the versions, 0 exactly for equal ones |
| `UpdaterSemver.CompareIdentifierIsOrder` | cmd/sub2api-limit-updater/semver.go:63-81 | The comparator's loop body is the identifier order of 11.4.1 to 11.4.3 |
| `PortalVersion.ParseVersion` | internal/sub2api/version.go:19-71 | Accepts exactly the texts that denote a version once white space and a `v` are stripped and whose numbers fit an int |
| `PortalVersion.BareStrips` | internal/sub2api/version.go:19-27 | White space around a text and one leading v or V make no difference; a second one is not taken off |
| `PortalVersion.ParseBare` | internal/sub2api/version.go:29-46 | Cuts build and pre-release text and checks each |
| `PortalVersion.CutPreRelease` | internal/sub2api/version.go:36-46 | The text after the first minus sign, checked, and the core before it |
| `PortalVersion.ParseCore` | internal/sub2api/version.go:48-71 | Exactly three numerals without leading zeros or overflow |
| `PortalVersion.ParseByPieces` | internal/sub2api/version.go:27-71 | Checking the pieces one by one accepts what the standard accepts |
| `PortalVersion.ValidateIdentifiers` | internal/sub2api/version.go:144-165 | Accepts exactly non-empty identifiers over the allowed characters, without leading zeros where that is asked |
| `PortalVersion.ComparePrerelease` | internal/sub2api/version.go:97-142 | Orders pre-release texts as 11.3 and 11.4 do |
| `PortalVersion.CompareIdentifierIsOrder` | internal/sub2api/version.go:110-137 | The loop body is the identifier order of section 11.4 |
| `PortalVersion.AtLeast` | internal/sub2api/version.go:86-95 | True exactly when the version does not precede the minimum |
| `ReleaseAgreement.ParsersAgree` | internal/sub2api/version.go:19-71 | Both parsers read the same version in a text with nothing to strip whose numbers fit an int; the portal alone strips, the updater alone takes larger numbers |
| `ReleaseAgreement.CompareBoth` | internal/sub2api/version.go:86-95 | On texts both parsers accept, the portal finds "at least" exactly when the updater's comparison is not negative, and that is negative exactly for a preceding version |
| `ReleaseAgreement.CanonicalVersion` | internal/releasecheck/manager.go:551-561 | `v` and the version without build metadata, or the empty text for an unreadable one |
| `ReleaseAgreement.CanonicalRoundTrip` | internal/releasecheck/manager.go:551-561 | Parsing a canonical version gives the same components, for both parsers; making it canonical again changes nothing |
| `ReleaseAgreement.StableReleaseVersion` | internal/releasecheck/manager.go:533-545 | Accepts exactly the stable tags and returns their canonical form |
| `ReleaseAgreement.StableTagIsCanonical` | internal/releasecheck/manager.go:533-545 | On an accepted tag the result is the tag without surrounding white space, so the tag itself exactly when there is none |
| `ReleaseAgreement.TrailingSpaceTag` | internal/releasecheck/manager.go:533-545 | Any stable tag with a trailing space is accepted and is not its own canonical form |
| `ReleaseAgreement.ViewVerdict` | internal/releasecheck/manager.go:328-360 | Available and compatible exactly as the order of the three versions and the mode say |
| `ReleaseAgreement.UpdaterGates` | cmd/sub2api-limit-updater/release.go:65-147 | Proceeds exactly for a newer target, mode binary and a sufficient updater, on the requested tag; a development build or an unreadable version of its own is for the installer whatever the release; an unstable or not requested tag is rejected; an older or equal one is up to date before its manifest is read; a newer one whose manifest does not fit is rejected |
| `ReleaseAgreement.VerdictsAgree` | internal/releasecheck/manager.go:328-360 | On releases and installed versions both sides accept, the portal offers exactly what the updater's gates let through, under the tag the updater insists on |
| `ReleaseAgreement.OfferAndGates` | internal/releasecheck/manager.go:328-360 | A release stored, shown, requested and looked at again: on what both sides accept, the code of the one offers it exactly when the code of the other lets it through |
| `ReleaseAgreement.StoredReading` | internal/releasecheck/manager.go:328-360 | Storing a version in canonical form loses nothing for the view |
| `ResetTheorems.MutationsAreExclusive` | internal/httpapi/quota_resets.go:74-174 | At most one upstream reset or limit change of a key is in flight |
| `ResetTheorems.BatchAndSingleExclude` | internal/httpapi/quota_resets.go:183-220 | A batch worker and a single mutation that has passed its checks never coexist, whatever their keys |
| `ResetTheorems.WorkerFindsItsGateOpen` | internal/httpapi/quota_resets.go:312-315 | A worker about to enter its key's gate finds it open, so no item is skipped as busy |
| `ResetTheorems.OneCallPerItem` | internal/httpapi/quota_resets.go:298-326 | Over any run upstream is called at most once for a batch item |
| `ResetTheorems.OneCallPerKey` | internal/store/quota_reset.go:82-93 | And at most once for a key within a job |
| `ResetTheorems.BindingStaysDuringCall` | internal/httpapi/quota_resets.go:344-362 | While an upstream call is in flight its user is bound to the key being changed, in a batch to the snapshotted one |
| `ResetTheorems.OutcomesAreHonest` | internal/httpapi/quota_resets.go:35-64 | Skipped never reached upstream; succeeded and failed are what upstream answered; an applied reset ends succeeded, or unknown after an abort or restart; at most one call each |
| `ResetChecks.CallsWereChecked` | internal/httpapi/admin_users.go:21-25 | Over any run, for every upstream reset or limit change in flight: at some moment since its thread took the read lock, its user was an active or disabled user, no administrator, bound to exactly this key, and the key listed upstream; and all of that but the listing still holds |
| `ResetChecks.ReliantWasChecked` | internal/httpapi/quota_resets.go:98-106 | The same of every thread that has passed its check |
| `ResetChecks.SkippedExactlyWhen` | internal/httpapi/quota_resets.go:344-362 | Over any run, of a job that was not aborted: an item ends skipped if and only if its check found the user gone, deleted, an administrator, unbound, bound to another key or bound to a missing one; and if and only if the check found none of that, upstream was called for it, once |
| `ResetChecks.SkippedWasRefused` | internal/httpapi/quota_resets.go:302-311 | An item is skipped, or about to be, only after such a check, and never because its key was busy |
| `ResetChecks.CalledWasAllowed` | internal/httpapi/quota_resets.go:302-318 | Upstream is called for an item, or about to be, only after a check that found its user resettable with the key of its snapshot |
| `ResetChecks.OneCheckPerItem` | internal/httpapi/quota_resets.go:298-326 | An item is checked at most once in its life |
| `ResetChecks.UserIsRefusedExactlyWhen` | internal/httpapi/quota_resets.go:98-106 | A single mutation goes on exactly with a user that may be reset with the key it then uses, and is refused exactly when no key makes that true |
| `ResetChecks.BatchRefusesExactlyWhen` | internal/httpapi/quota_resets.go:107-115 | It is refused for a batch exactly while some job is queued or running |
| `ResetChecks.SingleFindsItsGateOpen` | internal/httpapi/quota_resets.go:118-121 | And never as busy: while it is checked, no batch runs and no other mutation has come as far |
| `ResetTheorems.FinishCannotFail` | internal/store/quota_reset.go:336-383 | When the workers are done and none reported an error, the transition check of FinishQuotaResetJob passes |
| `ResetTheorems.CalmJobsDrain` | internal/httpapi/quota_resets.go:245-296 | Without store errors no worker breaks off and no job is cancelled or aborted, in any interleaving |
| `ResetProgress.OpenJobsCanFinish` | internal/httpapi/quota_resets.go:245-296 | In every reachable state in which no store call has failed, whatever the interleaving so far, every open job has a way to completed with every item terminal |
| `ResetProgress.CalmRunnersFinish` | internal/httpapi/quota_resets.go:245-296 | From every phase of a runner its job can be worked off: bindingMu is let go, items in hand are finished, the channel empties, the workers end, the job is finished |
| `ResetProgress.OpenJobsHaveRunners` | internal/httpapi/quota_resets.go:205-215 | Without store errors every open job has its runner |
| `ResetProgress.WorkerFinishesItem` | internal/httpapi/quota_resets.go:298-326 | A worker at any stage of an item can bring it to its end while nobody else moves but a writer that lets bindingMu go |
| `ResetProgress.ChannelEmpties` | internal/httpapi/quota_resets.go:266-282 | As long as the channel holds items some worker can take and finish the next |
| `ResetTheorems.CalmRunsDoNotFail` | internal/httpapi/quota_resets.go:245-296 | Only a failing store call sets the failure a runner aborts on |
| `ResetTheorems.RunsAdvance` | internal/store/quota_reset.go:268-383 | Along every run jobs and items persist, the statuses of both only move forward, totals and terminal items never change |
| `ResetTheorems.JobsAreConserved` | internal/store/quota_reset.go:442-472 | In every reachable state at most one job is open, stored counters are the item tallies and add up to the total, and completed means nothing pending or running |
| `ResetTheorems.RunKeepsInv` | internal/httpapi/quota_resets.go:74-378 | The engine's invariant (locks, gates, channel coverage, calls, bindings, rows) holds in every reachable state |
| `ResetTheorems.StepKeepsInv` | internal/httpapi/quota_resets.go:74-378 | Every step of every thread keeps it, and the rows advance |
| `ResetInvariant.StepKeepsLocks` | internal/httpapi/quota_resets.go:74-136 | Lock ownership follows the program counters through every step |
| `ResetKeeps.StepKeepsGates` | internal/httpapi/quota_resets.go:328-342 | Every gate keeps exactly one owner, and every thread past a gate owns it |
| `ResetKeeps.StepKeepsBindings` | internal/httpapi/quota_resets.go:302-320 | What a reader has checked of a binding holds until it releases the lock |
| `ResetKeeps.StepKeepsNoJob` | internal/httpapi/quota_resets.go:108-115 | A single mutation past its check keeps jobs from opening until it returns |
| `ResetWork.StepKeepsWork` | internal/httpapi/quota_resets.go:245-296 | Every unfinished item of a job that is not cancelled waits in the channel or is in one worker's hands; calls and results stay recorded |
| `ResetTables.CountersAddUp` | internal/store/quota_reset.go:442-472 | The six status counters of a job add up to its total |
| `ResetTables.CreatedJobIsSound` | internal/store/quota_reset.go:57-116 | Creating a job keeps the tables' invariant: one open job, distinct users and keys, counters equal to tallies |
| `ResetTables.CreatedJobCovers` | internal/store/quota_reset.go:69-108 | A new job is queued with a pending item for every active or disabled user who is no administrator, and for nobody else, each with the key bound then; its total is their number |
| `ResetTables.SetItemIsSound` | internal/store/quota_reset.go:279-334 | So does an item transition, which sets this status and changes no other item |
| `ResetTables.ItemStartsExactlyWhen` | internal/store/quota_reset.go:279-302 | An item starts exactly if it is a pending item of that running job; then only its row and the counters of its job change; otherwise it is missing or in the wrong state, told apart |
| `ResetTables.ItemEndsExactlyWhen` | internal/store/quota_reset.go:304-334 | And ends exactly with a terminal status from pending or running, in a running job |
| `ResetTables.MarkJobRunningIsSound` | internal/store/quota_reset.go:268-277 | So does starting a job, from queued to running |
| `ResetTables.JobStartsExactlyWhen` | internal/store/quota_reset.go:268-277 | A job starts exactly from queued; a missing job and a wrong state are told apart; no other row changes |
| `ResetTables.FinishJobSucceedsWhenDrained` | internal/store/quota_reset.go:336-383 | Finishing succeeds exactly on a running job whose items are all terminal |
| `ResetTables.FinishJobIsSound` | internal/store/quota_reset.go:336-383 | And keeps the invariant |
| `ResetTables.AbortJobIsSound` | internal/store/quota_reset.go:193-241 | Aborting gives every unfinished item up and keeps the invariant |
| `ResetTables.AbortGivesUp` | internal/store/quota_reset.go:193-241 | An aborted job is completed, its pending and running items are unknown, and no other item or job has changed |
| `ResetTables.RecoveredIsSound` | internal/store/quota_reset.go:137-173 | After restart recovery no job is open, the invariant holds and only unfinished items of open jobs changed |
| `ResetTables.ChangeUserIsSound` | internal/store/bindings.go:83-131 | Binding writers never give one key to two users and leave jobs and items alone |
| `ResetTables.BindingIsSet` | internal/store/bindings.go:83-112 | A binding is set exactly for an active or disabled user, no administrator, and a key nobody else has; the user is then bound to that key, as listed, and nobody else changes |
| `ResetTables.BindingIsDeleted` | internal/store/bindings.go:114-131 | A binding is deleted exactly where there is one; the user is then unbound, and nobody else changes |
| `ResetTables.UserIsCreated` | internal/store/users.go:81-112 | A new user is active, no administrator and bound to the chosen key, exactly if nobody else has it |
| `ResetTables.UserIsDeleted` | internal/store/users.go:164-188 | Exactly a user who is no administrator and not deleted yet can be deleted, and is then unbound |
| `ResetTables.UserIsUpdatedExactlyWhen` | internal/store/users.go:114-140 | Exactly a user who is no administrator and not deleted can be enabled or disabled |
| `ResetTables.UpdateUserIsSound` | internal/store/users.go:114-140 | Enabling or disabling a user sets that status, and changes no binding and no other user |
| `ResetTables.KeysListedIsSound` | internal/store/bindings.go:133-175 | After a keys sync a bound key is missing exactly if it was not listed; no binding and no user changes otherwise |
| `ResetTables.NothingLeft` | internal/store/quota_reset.go:356-360 | The two counters are zero exactly when every item is terminal |
| `ResetStore.Store.CreateQuotaResetJob` | internal/store/quota_reset.go:57-116 | Refused exactly while a job is open (the partial unique index); otherwise one pending item per eligible user; an error leaves the rows as they were or fully created |
| `ResetStore.Store.InsertJob` | internal/store/quota_reset.go:69-108 | The job row, its items and its counts |
| `ResetStore.SelectUsers` | internal/store/quota_reset.go:82-93 | Exactly one row for every user that is not deleted and not an administrator, with its bound key |
| `ResetStore.Store.MarkQuotaResetJobRunning` | internal/store/quota_reset.go:268-277 | Only from queued; the errors tell a missing job from a wrong state |
| `ResetStore.Store.MarkQuotaResetItemRunning` | internal/store/quota_reset.go:279-302 | Only a pending item of a running job |
| `ResetStore.Store.CompleteQuotaResetItem` | internal/store/quota_reset.go:304-334 | Only an unfinished item of a running job, only to a terminal status |
| `ResetStore.Store.UpdateItem` | internal/store/quota_reset.go:279-334 | The transaction of both: the row and the recounted counters, or no change |
| `ResetStore.Store.FinishQuotaResetJob` | internal/store/quota_reset.go:336-383 | Completes exactly when nothing is pending or running, with recounted counters |
| `ResetStore.Store.AbortQuotaResetJob` | internal/store/quota_reset.go:178-191 | Commits the abort or nothing |
| `ResetStore.Store.AbortQuotaResetJobTx` | internal/store/quota_reset.go:193-241 | Unfinished items become unknown and the job completed; a completed job stays |
| `ResetStore.Store.RecoverInterruptedQuotaResetJobs` | internal/store/quota_reset.go:133-173 | After it no job is open, or nothing changed |
| `ResetStore.Store.RecoverTx` | internal/store/quota_reset.go:137-173 | The loop over open jobs closes each and changes nothing else |
| `ResetStore.Store.RecomputeQuotaResetCounters` | internal/store/quota_reset.go:442-472 | The stored counters become the item tallies |
| `ResetStore.UpdateItems` | internal/store/quota_reset.go:279-334 | The UPDATE changes exactly the selected rows, and its count is zero exactly if there are none |
| `ResetStore.Store.Commit` | internal/store/quota_reset.go:109-115 | A commit that reports an error may have taken effect |
| `ResetServer.Goroutine.RunQuotaResetItem` | internal/httpapi/quota_resets.go:298-326 | Uninterrupted, the worker is idle again with the item at the status the call or the check decided, or broken after a failing store call of its own; every step is the engine's |
| `ResetServer.Goroutine.ValidateQuotaResetItem` | internal/httpapi/quota_resets.go:344-362 | Unless the user could not be read: valid exactly if the item's user is active or disabled, no administrator, and bound to the key of the snapshot, which is not missing |
| `ResetServer.Goroutine.ResetItem` | internal/httpapi/quota_resets.go:312-326 | From the gate on: the item ends with the status its upstream answer decides |
| `ResetServer.Goroutine.SkipItem` | internal/httpapi/quota_resets.go:308-311 | The lock is released and the item ends skipped |
| `ResetServer.Goroutine.BeginQuotaReset` | internal/httpapi/quota_resets.go:328-336 | In a worker always entered |
| `ResetServer.Goroutine.EndQuotaReset` | internal/httpapi/quota_resets.go:338-342 | Leaves the gate of the item's key |
| `ResetServer.Goroutine.ResetQuota` | internal/httpapi/quota_resets.go:316-318 | One upstream call, whose outcome decides the item's status |
| `ResetServer.Goroutine.MarkQuotaResetItemRunning` | internal/httpapi/quota_resets.go:299-301 | Marked, or broken; broken only after a failing store call |
| `ResetServer.Goroutine.CompleteQuotaResetItem` | internal/httpapi/quota_resets.go:364-369 | Idle again with the item's row at that status, or broken; broken only after a failing store call |
| `ResetServer.Goroutine.Receive` | internal/httpapi/quota_resets.go:270-273 | Takes the head of the channel, drops it exactly if the job is cancelled, and reports the channel closed only when it is empty |
| `ResetServer.Goroutine.RunWorker` | internal/httpapi/quota_resets.go:266-282 | A worker ends on the closed channel, or is idle between items |
| `ResetServer.Goroutine.Report` | internal/httpapi/quota_resets.go:274-279 | The first error cancels the job |
| `ResetServer.Goroutine.RunQuotaResetJob` | internal/httpapi/quota_resets.go:245-296 | Uninterrupted the runner ends with its job completed and every item terminal, or a store call has failed |
| `ResetServer.Goroutine.MarkQuotaResetJobRunning` | internal/httpapi/quota_resets.go:249-252 | Loading, or aborting on an error |
| `ResetServer.Goroutine.StartWorkers` | internal/httpapi/quota_resets.go:253-282 | The channel then holds exactly the items of the job, in order of their identifiers, and four idle workers are there |
| `ResetServer.Goroutine.SelectItems` | internal/store/quota_reset.go:243-266 | Exactly the items of the job, each once, by id |
| `ResetServer.Goroutine.AwaitWorkers` | internal/httpapi/quota_resets.go:283-292 | All workers gone: finishing if none reported an error, aborting otherwise |
| `ResetServer.Goroutine.FinishQuotaResetJob` | internal/httpapi/quota_resets.go:293-295 | Completed with every item terminal, or aborting on a store error |
| `ResetServer.Goroutine.AbortQuotaResetJob` | internal/httpapi/quota_resets.go:371-378 | The runner ends; it only aborts after a store error |
| `ResetServer.Goroutine.CreateQuotaResetJob` | internal/httpapi/quota_resets.go:183-220 | With an update pending, and only then, the store is not asked; uninterrupted the handler takes and releases its lock around exactly that one step |
| `ResetServer.Goroutine.InsertJob` | internal/httpapi/quota_resets.go:192-215 | Under the lock: with no update pending the store is asked; the job's rows and its runner appear exactly when no job was open, and otherwise nothing changes |
| `ResetServer.Goroutine.ResetUserQuota` | internal/httpapi/quota_resets.go:74-174 | Uninterrupted, the handler does exactly the steps of its answer, each check in the code's order, and gives back every lock it has taken; it answers that an update is pending exactly if one is, never that the key is busy, and a store error only after a failing read |
| `ResetServer.Goroutine.CheckUser` | internal/httpapi/quota_resets.go:98-106 | Unless the read fails: goes on with the key exactly if the user may be reset with it, and refuses exactly if there is no such key |
| `ResetServer.Goroutine.CheckBatch` | internal/httpapi/quota_resets.go:107-115 | Unless the read fails: refuses exactly while a job is queued or running |
| `ResetServer.Goroutine.Mutate` | internal/httpapi/quota_resets.go:117-136 | From the gate on: uninterrupted the gate is entered, upstream called once, and gate and locks given back in the code's order |
| `ResetServer.Goroutine.CallUpstream` | internal/httpapi/quota_resets.go:123-125 | The upstream call under the gate |
| `ResetServer.Goroutine.ReturnEarly` | internal/httpapi/quota_resets.go:90-106 | A refusal releases exactly the two locks taken so far |
| `ResetServer.Goroutine.WriteBinding` | internal/httpapi/admin_users.go:171-195 | Takes the write lock, which waits for every reader, makes the one change, and ends with the lock released |
| `ResetServer.Goroutine.StoreChange` | internal/store/bindings.go:83-131 | Under the write lock: one transaction, which did what `ResetTables.ChangeUser` says, or reported its error |
| `ResetServer.OthersKeepTheirPlace` | internal/httpapi/quota_resets.go:245-296 | No step of another goroutine moves this one's program counter |
| `SyncTheorems.StaleSyncNeverWins` | internal/syncer/manager.go:146-237 | Once a mutation of a key is confirmed, no later keys sync in any interleaving writes a value of that key read before the mutation took effect |
| `SyncEffects.StoredMutationIsShown` | internal/syncer/manager.go:166-184 | Over any run: once a confirmed mutation is stored, every row of its key shows at least its version, over the same connection, for as long as the user stays bound: no sync and no later mutation takes it back |
| `SyncEffects.MutationReachesRows` | internal/store/bindings.go:185-248 | After a confirmed mutation that is stored, every row of its key shows exactly the version it left; no other row and no cached value changes; one that cannot be stored changes what no row shows |
| `SyncEffects.StaleMutationWritesNothing` | internal/syncer/manager.go:166-184 | A mutation answered over a connection that is gone changes no row, no cached value and no generation |
| `SyncEffects.SyncReachesRows` | internal/store/bindings.go:133-175 | After a keys sync in time, every row of a listed key shows exactly what was read of that key, every other row is as it was, and the cache holds exactly the listed keys with those readings |
| `SyncEffects.StaleSyncWritesNothing` | internal/syncer/manager.go:303-323 | A keys sync that is stale, or whose transaction fails, changes no row and no cached value |
| `SyncEffects.ChangedRowsAreFresh` | internal/syncer/manager.go:146-323 | What a keys sync has changed in a row is not older than any mutation of that key confirmed before |
| `SyncEffects.ChangedCacheIsFresh` | internal/syncer/manager.go:303-323 | Nor is what it has changed in the cache |
| `SyncEffects.ReadingWasUpstream` | internal/syncer/manager.go:276-300 | Every reading of a keys sync is what upstream held at some moment of the run after the sync had captured its generation |
| `SyncTheorems.PublishedIsFresh` | internal/syncer/manager.go:276-323 | What a keys sync publishes is at least as new as the key's last confirmed mutation |
| `SyncTheorems.PublishedWasUpstream` | internal/syncer/manager.go:276-323 | And was upstream at some time before |
| `SyncTheorems.ConnectionIsolation` | internal/httpapi/admin_pool_settings.go:148-208 | In every reachable state every cached key, binding and pool row came over the current connection, across rotations, failed rotations and responses in flight |
| `SyncTheorems.OldRowsHaveACause` | internal/store/bindings.go:232-248 | A row older than its key's last confirmed mutation was last written neither by a sync nor by a stored mutation |
| `SyncTheorems.RowIsOldExactlyWhen` | internal/store/bindings.go:83-112 | A row is older than its key's last confirmed mutation if and only if it was inserted older and kept, or kept under a confirmed mutation that could not be stored |
| `SyncTheorems.CacheLagsOnlyBehindMutations` | internal/syncer/manager.go:166-184 | A cached value is older than the last confirmed mutation of its key if and only if a mutation that left a newer version was confirmed while it was already cached |
| `SyncTheorems.RebindInsertsAnOldValue` | internal/httpapi/admin_users.go:182-192 | A run in which a binding made after a confirmed reset stores a value older than that reset |
| `SyncTheorems.FoundIsOldExactlyWhen` | internal/httpapi/admin_users.go:57-65 | The snapshot a handler finds is older than a confirmed mutation if and only if one overtook the cached value |
| `SyncTheorems.BoundIsOldExactlyWhen` | internal/httpapi/admin_users.go:182-192 | The binding it stores has exactly that snapshot, and is older if and only if it is |
| `SyncEffects.BindingStoresWhatWasCached` | internal/httpapi/admin_users.go:171-195 | A new binding stores the key and the values the cache held while its handler was holding bindingMu, for that user alone, and no other user has the key |
| `SyncEffects.FoundWasCached` | internal/httpapi/admin_users.go:57-65 | A handler's snapshot is what the cache held for its key at some moment while it has been holding bindingMu |
| `SyncEffects.UnbindingRemovesOneRow` | internal/store/bindings.go:114-131 | Unbinding a user removes that row and no other |
| `SyncEffects.KeysAreBoundOnce` | internal/store/bindings.go:83-112 | In every reachable state no key is bound to two users |
| `SyncTheorems.CachedWasUpstream` | internal/syncer/manager.go:303-323 | What is cached was upstream at some time |
| `SyncTheorems.SyncsMayPublishOutOfOrder` | internal/syncer/manager.go:276-323 | A run in which the older of two readings is published last |
| `SyncOvertaking.OutOfOrderExactlyWhen` | internal/syncer/manager.go:172-176 | A keys sync that has read a key can be overtaken by a newer publication and then publish the older value if and only if singleflight has forgotten it, or another keys sync that can still publish is under way |
| `SyncOvertaking.OvertakenWasOvertakable` | internal/syncer/manager.go:112-140 | Only then: while singleflight holds new syncs back and no other is live, nobody publishes before it |
| `SyncOvertaking.OvertakableIsOvertaken` | internal/syncer/manager.go:276-323 | And always then: another sync can read a newer value and publish it first |
| `SyncOvertaking.RegisteredIsThere` | internal/syncer/manager.go:112-140 | The call singleflight remembers is under way |
| `SyncTheorems.ConfirmationsGrow` | internal/syncer/manager.go:166-187 | The last confirmed version of a key never decreases |
| `SyncInvariant.StepKeepsInv` | internal/syncer/manager.go:146-407 | Every step keeps isolation, connection bookkeeping and freshness |
| `SyncInvariant.RunKeepsInv` | internal/syncer/manager.go:146-407 | They hold in every reachable state |
| `SyncInvariant.PersistingKeepsFreshness` | internal/syncer/manager.go:166-187 | Raising the generation before writing the row invalidates every reading in flight |
| `SyncInvariant.ReadingIsFresh` | internal/syncer/manager.go:276-300 | Values read under the current generation are not older than the last confirmed mutation |
| `SyncInvariant.RotatingKeepsInv` | internal/syncer/manager.go:54-65 | A rotation empties the cache and cuts off every flight and mutation of the old connection |
| `SyncInvariant.StoringKeepsInv` | internal/store/setup.go:123-162 | Storing new settings keeps isolation, because nothing is bound or published then |
| `SyncEffects.SettingsAreStoredExactlyWhen` | internal/store/setup.go:123-162 | New settings can be stored exactly while nothing is bound and no pool account published; the pool is then empty, and otherwise nothing changes |
| `SyncEffects.InventoryReachesRows` | internal/store/pool.go:34-65 | An accounts sync over the current connection gives every listed account a row of that connection, new ones unpublished, keeps what administrators decided, and touches no other row; one over an old connection changes nothing |
| `SyncEffects.UsageReachesRows` | internal/store/pool.go:84-125 | A usage sync over the current connection marks exactly the listed accounts that have a row |
| `SyncManager.ApplyKeySnapshots` | internal/store/bindings.go:133-175 | The loop over bound keys gives every row of a listed key what was read of it and leaves the others as they were |
| `SyncManager.ApplyPoolInventory` | internal/store/pool.go:34-65 | The upserts give every listed account the current origin and leave the others |
| `SyncManager.Process.ConnectionSettings` | internal/syncer/manager.go:260-265 | Settings and connection generation of one moment |
| `SyncManager.Process.CaptureGeneration` | internal/syncer/manager.go:276-279 | The key generation before the list is read |
| `SyncManager.Process.ListKeys` | internal/syncer/manager.go:280 | Every listed key is read, page by page, after the generation was captured |
| `SyncManager.Process.PublishKeyList` | internal/syncer/manager.go:303-323 | Without failures rows and cache are written exactly if neither generation has moved on, and then show exactly what the flight has read; a stale flight only ends |
| `SyncManager.Process.Publish` | internal/syncer/manager.go:303-323 | Rows and cache as decided, and the flight is over |
| `SyncManager.Process.SyncKeys` | internal/syncer/manager.go:239-323 | Settings, generation, list, publication, in this order; without failures the whole list is read, and rows and cache show it unless the flight is stale |
| `SyncManager.Process.EndSync` | internal/syncer/manager.go:281-302 | A failed list publishes nothing |
| `SyncManager.Process.SyncAccounts` | internal/syncer/manager.go:325-345 | The inventory is applied only under the connection it was read over |
| `SyncManager.Process.PublishRows` | internal/syncer/manager.go:338-344 | Pool rows as decided, and the flight is over |
| `SyncManager.Process.ConfirmMutation` | internal/syncer/manager.go:146-237 | Settings, upstream call, then the confirmed answer persisted; without failures every row of the key shows it, unless the connection has changed |
| `SyncManager.Process.MutationSettings` | internal/syncer/manager.go:148-151 | Settings and connection generation of one moment |
| `SyncManager.Process.CallUpstream` | internal/syncer/manager.go:156-165 | The mutation takes effect upstream, one version on, and answers with the value it left |
| `SyncManager.Process.PersistConfirmed` | internal/syncer/manager.go:166-187 | Only under the connection it was made over: generation first, then every row of its key, and without failures each shows the answer |
| `SyncManager.Process.EndMutationCall` | internal/syncer/manager.go:156-159 | An unanswered call persists nothing |
| `SyncManager.Process.BeginConnectionRotation` | internal/syncer/manager.go:54-65 | Cache emptied and connection generation raised under the lock, which stays taken |
| `SyncManager.Process.UpdateSettings` | internal/store/setup.go:123-162 | Stored exactly if nothing is bound and nothing published, with the pool wiped; otherwise nothing changes |
| `LockOrder.NoDeadlock` | internal/httpapi/admin_pool_settings.go:148-208 | For any number of threads running programs in the order, scheduled in any way: every thread that is not done can move or waits, directly or along others, on one that can |
| `LockOrder.PortalHasNoDeadlock` | internal/httpapi/admin_pool_settings.go:148-208 | Any number of single mutations, job creations, runners with their workers, binding writers, settings rotations, keys and pool syncs, updates, release checks and key listings, scheduled in any way, never deadlock |
| `LockOrder.PortalIsInOrder` | internal/httpapi/quota_resets.go:74-136 | Each of these programs is above its level in the one order and awaits only flights and workers that are there |
| `LockOrder.FollowTheBlockers` | internal/syncer/manager.go:54-65 | From every stuck thread a chain of who waits on whom ends in a thread that can move |
| `LockOrder.SomeoneBlocks` | internal/httpapi/quota_resets.go:74-136 | What a stuck thread waits on can move, waits for something of higher rank, or is a writer a reader lets pass |
| `LockOrder.StepKeepsFit` | internal/httpapi/quota_resets.go:74-136 | Every step keeps the order between what a thread holds and what it may still wait for |
| `LockOrder.RunFits` | internal/httpapi/quota_resets.go:74-136 | The order holds in every reachable state |
| `LockOrder.OppositeOrdersBlock` | internal/httpapi/admin_pool_settings.go:182-208 | The order is needed: with the two locks of the rotation taken the other way round, two threads block for good |
| `LockOrder.SingleMutation` | internal/httpapi/quota_resets.go:74-174 | Takes its locks in the one order, none below maintenanceMu, awaits exactly the keys flight and does so under no lock ranked above a flight; takes exactly maintenanceMu, bindingMu for reading, the gate, connectionMu, keySnapshotMu and the database |
| `LockOrder.JobRunner` | internal/httpapi/quota_resets.go:245-296 | Takes its locks in the one order, awaits exactly its workers and the final keys flight, and awaits its workers under no lock at all; takes exactly only the database |
| `LockOrder.BatchItem` | internal/httpapi/quota_resets.go:298-326 | Takes its locks in the one order, none ranked below bindingMu, and awaits nobody; takes exactly bindingMu for reading, the gate, connectionMu, keySnapshotMu and the database |
| `LockOrder.BatchWorker` | internal/httpapi/quota_resets.go:266-282 | Takes its locks in the one order, none ranked below bindingMu, and awaits nobody; takes exactly the same locks as an item |
| `LockOrder.CreateJob` | internal/httpapi/quota_resets.go:183-220 | Takes its locks in the one order, none ranked below maintenanceMu, and awaits nobody; takes exactly maintenanceMu and the database |
| `LockOrder.BindingWriter` | internal/httpapi/admin_users.go:86-98 | Takes its locks in the one order, none ranked below bindingMu, and awaits nobody; takes exactly bindingMu for writing, the cache lock for reading and the database |
| `LockOrder.PutSettings` | internal/httpapi/admin_pool_settings.go:148-223 | Takes its locks in the one order, none ranked below settingsMu, and awaits nobody; takes exactly settingsMu, bindingMu for writing, connectionMu, the cache lock and the database |
| `LockOrder.KeysFlight` | internal/syncer/manager.go:239-323 | Takes its locks in the one order, none ranked below the slots of concurrent syncs, and awaits nobody; takes exactly a sync slot, connectionMu, keySnapshotMu, the cache lock and the database |
| `LockOrder.PoolFlight` | internal/syncer/manager.go:325-407 | Takes its locks in the one order, none ranked below the slots of concurrent syncs, and awaits nobody; takes exactly a sync slot, connectionMu and the database |
| `LockOrder.UpstreamMutation` | internal/syncer/manager.go:146-187 | Takes its locks in the one order, none ranked below connectionMu, and awaits nobody; takes exactly connectionMu, keySnapshotMu and the database |
| `LockOrder.ConnectionSettings` | internal/syncer/manager.go:260-265 | Takes its locks in the one order, none ranked below connectionMu, and awaits nobody; takes exactly connectionMu and the database |
| `LockOrder.ApplyUpdate` | internal/httpapi/admin_update.go:38-83 | Takes its locks in the one order, none ranked below maintenanceMu, and awaits nobody; takes exactly maintenanceMu, the release manager's lock and the database |
| `LockOrder.CheckRelease` | internal/releasecheck/manager.go:261-284 | Takes its locks in the one order, none ranked below the release manager's lock, and awaits nobody; takes exactly the release manager's lock and the database |
| `LockOrder.Gate` | internal/httpapi/quota_resets.go:328-342 | The gate's mutex takes nothing ranked below it and awaits nobody |
| `LockOrder.Store` | internal/store/store.go:55 | The database connection ranks last: nothing is taken under it, and nobody awaited |
| `LockOrder.ListKeys` | internal/httpapi/admin_users.go:211-232 | Takes its locks in the one order, none ranked below the cache lock, and awaits nobody; takes exactly the cache lock for reading and the database |
| `LockOrder.AwaitAll` | internal/httpapi/quota_resets.go:283 | Waits for every worker, and for nobody else |

## Left out

Assumptions of the models:

- While an updater process runs or a transaction is open, a service that is inactive or was stopped stays stopped until the updater starts it. Otherwise anyone may start it at any time.
- One updater runs at a time (the process lock), and operation identifiers never repeat.
- A rename is the durable point of a write; fsync, file modes and owners are not modelled.
- A portal becomes ready or never does, as decided when it is started; a single answer that does not come is a failure of that request.
- Time is left out: a timeout, a cancelled context or an unanswered call is a failure that may happen at any step.
- The protocol of the sync manager assumes that mutations of one key do not overlap; `ResetTheorems.MutationsAreExclusive` proves it of the handlers.
- The lock programs in `LockOrder` are written down by hand from the handlers; their contracts, not a translation, tie them to the order.

Not modelled, because it is plumbing or would only add easy members:

- HTTP routing, JSON, cookies, the Sub2API client, GitHub downloads, hashing, archives and encryption; their results are parameters or free choices.
- systemd and the version command of the binaries, beyond the run state and the version a file reports.
- Error codes and messages of statuses, items and sync failures, and audit rows.
- Sessions, the login limiter, announcements, the Codex forecast, dashboards, masking and retry delays.
- `web/`, scripts and packaging.
- A pool row's `normalized_status`, key names, masks and limit values; a key's value is the version it shows.

Members that say less than the code does:

- Updater.PrepareUpdate: takes what the release says as one value; its asset checks are reduced to downloads and verifications that may fail. The version and mode gates themselves are in `ReleaseAgreement.UpdaterGates`.
- ResetServer.Goroutine.ResetUserQuota: setUserKeyLimits is not written out separately; it takes the same locks, checks and gate around another upstream call. That each refusal was justified is a condition of the engine's step for it, stated in `ResetChecks`.
- ResetServer.Goroutine.RunWorker: the number of rounds is a parameter.
- ResetServer.Goroutine.StartWorkers: goroutine identifiers are arbitrary; a clash counts as an interruption.
- ResetStore.SelectUsers: items are created in an arbitrary order of users instead of ORDER BY u.id.
- SyncManager.Process.SyncAccounts: the syncs of usage are a step of `SyncProtocol` only, without a method.
- Updater.CommitOrRollBack: that a failure is rolled back is stated for one mishap between the call and its end, of any kind, including a new portal that never becomes ready or exits; what several at once lead to is left to the theorems over runs.
- UpdaterMachine.Machine.ServiceState: an answer that does not fit the run state is treated as unreadable.
