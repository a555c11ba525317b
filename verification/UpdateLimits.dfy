/**
 Updates can succeed, and the corners where a stronger claim than those of UpdateTheorems fails.
 Each corner is a legal run whose steps are the ones the code takes.
 */
module UpdateLimits {
  import opened Options
  import opened SemverOrder
  import opened UpdateProtocol
  import opened UpdateTheorems
  import opened UpdateRecovery

  // ----- an update can succeed

  ghost predicate BackingUp(w: World, j: Journal) {
    && UnderRecovery(w, j.request) && w.disk.journal == Some(j) && j.phase.Prepared? && w.history.base.None?
    && w.disk.request == Some(j.request)
  }

  ghost predicate BackedUpTo(w: World, dir: BackupDir, n: nat)
    requires n <= FILE_COUNT
  {
    && dir in w.disk.backups
    && forall i :: 0 <= i < n && w.disk.files[i].Some? ==>
         i in w.disk.backups[dir] && w.disk.backups[dir][i] == w.disk.files[i].value
  }

  lemma {:induction false} BackUpCanFinish(run: Run, j: Journal, n: nat) returns (longer: Run)
    requires LegalRun(run) && BackingUp(End(run), j) && n <= FILE_COUNT && BackedUpTo(End(run), j.backupDir, n)
    ensures LegalRun(longer) && Continues(run, longer) && BackingUp(End(longer), j)
    ensures BackedUpTo(End(longer), j.backupDir, FILE_COUNT)
    ensures End(longer).history == End(run).history
    decreases FILE_COUNT - n
  {
    if n == FILE_COUNT {
      return run;
    }
    var next := run;
    if End(run).disk.files[n].Some? {
      next := Extend(run, run, BackUp(j.backupDir, n, End(run).disk.files[n].value));
    }
    longer := BackUpCanFinish(next, j, n + 1);
    ContinuesTransitive(run, next, longer);
  }

  function SavedFiles(files: FileMap): seq<SavedFile> {
    seq(FILE_COUNT, i requires 0 <= i < FILE_COUNT => SavedFile(i, files[i].Some?))
  }

  lemma RecordingIsLegal(w: World, j: Journal)
    requires Inv(w) && BackingUp(w, j) && BackedUpTo(w, j.backupDir, FILE_COUNT)
    ensures Legal(w, WriteJournal(j.(phase := BackedUp, files := SavedFiles(w.disk.files)), w.history.candidates))
  {
    var next := j.(phase := BackedUp, files := SavedFiles(w.disk.files));
    assert w.disk.files == w.history.reference;
    assert forall i :: 0 <= i < FILE_COUNT ==> BackedUpAs(w.disk, next.backupDir, next.files[i], i, w.history.reference[i]);
    assert BackupsMatch(w, next);
  }

  /** A request is published and taken up. */
  lemma {:induction false} RequestCanBeTakenUp(w: World, request: Request) returns (run: Run)
    requires Initial(w) && w.portal.Active? && request.op !in w.history.issued && request.target.Stable()
    ensures LegalRun(run) && RunningAs(End(run).disk, request.op) && End(run).disk.request == Some(request)
    ensures End(run).disk == w.disk.(request := Some(request), status := End(run).disk.status)
    ensures End(run).portal == w.portal && End(run).history == w.history.(issued := End(run).history.issued)
  {
    run := Begin(w);
    run := Extend(run, run, PortalPublishes(request));
    run := Extend(run, run, WriteStatus(Status(request.op, request.target, Running, Checking, false, false)));
  }

  /** Then its transaction is journalled, and the portal stopped. */
  lemma {:induction false} TransactionCanOpen(w: World, request: Request, oldVersion: ParsedVersion, candidates: (Blob, Blob))
    returns (run: Run, j: Journal)
    requires Initial(w) && w.portal.Active? && request.op !in w.history.issued && request.target.Stable() && w.disk.backups == map[]
    requires Reports(w.disk.files[PORTAL], oldVersion) && oldVersion.Stable() && Precedes(oldVersion, request.target)
    requires candidates.0.version == Some(request.target) && candidates.1.version == Some(request.target)
    ensures LegalRun(run) && j == Journal(request, Prepared, oldVersion, true, 0, [], 0)
    ensures BackingUp(End(run), j) && BackedUpTo(End(run), 0, 0)
    ensures End(run).history.candidates == candidates
  {
    j := Journal(request, Prepared, oldVersion, true, 0, [], 0);
    run := RequestCanBeTakenUp(w, request);
    RunKeepsInv(run);
    run := Extend(run, run, MakeBackupDir(0));
    run := Extend(run, run, WriteJournal(j, candidates));
    run := Extend(run, run, StopPortal);
  }

  /** Every installation of an older version can reach a durable, complete backup of itself. */
  lemma {:induction false} BackupCanBeReached(w: World, request: Request, oldVersion: ParsedVersion, candidates: (Blob, Blob)) returns (run: Run)
    requires Initial(w) && w.portal.Active? && request.op !in w.history.issued && request.target.Stable() && w.disk.backups == map[]
    requires Reports(w.disk.files[PORTAL], oldVersion) && oldVersion.Stable() && Precedes(oldVersion, request.target)
    requires candidates.0.version == Some(request.target) && candidates.1.version == Some(request.target)
    ensures LegalRun(run) && JustBackedUp(End(run)) && End(run).disk.journal.value.request == request
    ensures End(run).history.candidates == candidates
  {
    var opening, j := TransactionCanOpen(w, request, oldVersion, candidates);
    var saved := BackUpCanFinish(opening, j, 0);
    RunKeepsInv(saved);
    RecordingIsLegal(End(saved), j);
    run := Extend(saved, saved, WriteJournal(j.(phase := BackedUp, files := SavedFiles(End(saved).disk.files)), End(saved).history.candidates));
  }

  /** The backed-up journal has just become durable; the portal was running before. */
  ghost predicate JustBackedUp(w: World) {
    && InTransaction(w) && w.portal.Inactive? && w.history.base.None? && !w.history.dirty
    && w.disk.journal.value.phase.BackedUp? && w.disk.journal.value.cursor == 0 && w.disk.journal.value.wasActive
    && w.disk.request == Some(w.disk.journal.value.request)
  }

  /** From there the update can be installed, started, checked and committed. */
  lemma {:induction false} InstallCanSucceed(run: Run) returns (longer: Run)
    requires LegalRun(run) && JustBackedUp(End(run))
    ensures LegalRun(longer) && Continues(run, longer) && Installed(End(longer)) && Commits(End(longer))
    ensures End(longer).history.verified && End(longer).history.base.Some?
    ensures End(longer).disk.request == Some(End(longer).disk.journal.value.request)
  {
    var (portal, updater) := End(run).history.candidates;
    longer := Extend(run, run, WriteOriginal(PORTAL, Some(portal)));
    longer := Extend(run, longer, WriteOriginal(UPDATER, Some(updater)));
    longer := Extend(run, longer, StartPortal);
    RunKeepsInv(longer);
    longer := Extend(run, longer, PortalVerified);
  }

  // ----- corner: a failure recorded after a commit

  /** The commit is durable; the operation's status still runs and its request is still on disk. */
  ghost predicate CommittedUnrecorded(w: World) {
    && w.disk.journal.None? && w.history.outcome.Committed? && BothNew(w)
    && w.disk.request == Some(w.history.outcome.request)
    && RunningAs(w.disk, w.history.outcome.request.op) && w.history.outcome.request.op in w.history.touched
  }

  lemma {:induction false} CommitCanStayUnrecorded(run: Run) returns (longer: Run)
    requires LegalRun(run) && Commits(End(run)) && End(run).history.verified && End(run).history.base.Some?
    requires End(run).disk.request == Some(End(run).disk.journal.value.request)
    ensures LegalRun(longer) && Continues(run, longer) && CommittedUnrecorded(End(longer))
  {
    RunKeepsInv(run);
    longer := Extend(run, run, RemoveJournal);
    CrashAtomicity(longer);
  }

  /** A process that dies between the commit and the status leaves the next one to reconcile; if that one cannot
      run the installed portal it records an ordinary failure, although both binaries are new.  So "an ordinary
      failure changed no managed file" holds of each process, not of each operation. */
  lemma {:induction false} FailureAfterCommit(run: Run) returns (longer: Run)
    requires LegalRun(run) && CommittedUnrecorded(End(run))
    ensures LegalRun(longer) && Continues(run, longer) && BothNew(End(longer))
    ensures var w := End(longer);
            && w.disk.status.Some? && w.disk.status.value.state.Failed? && w.disk.status.value.phase.Verifying?
            && w.disk.status.value.op in w.history.touched
  {
    var request := End(run).history.outcome.request;
    longer := Extend(run, run, WriteStatus(Status(request.op, request.target, Running, Checking, false, false)));
    longer := Extend(run, longer, WriteStatus(Status(request.op, request.target, Failed, Verifying, true, false)));
  }

  // ----- corner: writes after an early rollback are lost

  /** A rollback before the first install restarts the portal without restoring.  If the updater dies before the
      journal is gone, recovery restores the backups over whatever the portal has written since. */
  lemma {:induction false} LateWritesAreLost(run: Run, db: Option<Blob>) returns (written: Run, longer: Run)
    requires LegalRun(run) && JustBackedUp(End(run)) && db != End(run).history.reference[DATABASE]
    ensures LegalRun(longer) && Continues(run, written) && Continues(written, longer)
    ensures written.Then? && written.event.PortalWrites? && End(written).disk.files[DATABASE] == db
    ensures End(longer).disk.files == End(run).history.reference && End(longer).disk.files[DATABASE] != db
  {
    var request := End(run).disk.journal.value.request;
    RunKeepsInv(run);
    var restarted := Extend(run, run, StartPortal);
    written := Extend(run, restarted, PortalWrites(db, None, None));
    longer := RecoveryCanBegin(written);
    var restored := RestoreCanFinish(longer, request);
    ContinuesTransitive(written, longer, restored);
    longer := restored;
    RestoredFully(longer);
  }

  // ----- corner: a later recovery restarts the portal on its own writes

  /** When recovery is repeated after everything was restored and the portal restarted, nothing is restored again:
      the portal restarts from what it wrote meanwhile, not from the reference. */
  lemma {:induction false} RepeatedRecoveryKeepsLaterWrites(run: Run, db: Option<Blob>) returns (longer: Run)
    requires LegalRun(run) && Reopened(End(run)) && End(run).portal.Active?
    requires End(run).disk.journal.value.phase.BackedUp? && End(run).disk.journal.value.cursor == FILE_COUNT
    requires End(run).disk.journal.value.wasActive && db != End(run).history.reference[DATABASE]
    ensures LegalRun(longer) && Continues(run, longer) && longer.Then? && longer.event.StartPortal?
    ensures End(longer.before).disk.files[DATABASE] == db != End(longer).history.reference[DATABASE]
  {
    var written := Extend(run, run, PortalWrites(db, None, None));
    var recovering := RecoveryCanBegin(written);
    ContinuesTransitive(run, written, recovering);
    RestoredFully(recovering);
    longer := Extend(run, recovering, StartPortal);
  }

  /** Exactly when a recovery leaves the files as it finds them: with a full cursor, or if they are the reference anyway. */
  lemma {:induction false} RecoveryKeepsFilesExactlyWhen(run: Run, request: Request) returns (longer: Run)
    requires LegalRun(run) && UnderRecovery(End(run), request) && End(run).disk.journal.value.phase.BackedUp?
    ensures LegalRun(longer) && Continues(run, longer)
    ensures End(longer).disk.journal == Some(End(run).disk.journal.value.(cursor := FILE_COUNT))
    ensures End(longer).disk.files == End(run).disk.files <==>
            End(run).disk.journal.value.cursor == FILE_COUNT || End(run).disk.files == End(run).history.reference
  {
    longer := RestoreCanFinish(run, request);
    RestoredFully(longer);
  }

  // ----- corner: a finished rollback can be taken up again

  /** The rolled_back status is durable before the journal goes: in between, maintenance looks over and yet the
      operation can return to recovering. */
  lemma {:induction false} FinishedRollbackCanReturn(run: Run) returns (finished: Run, again: Run)
    requires LegalRun(run) && Reopened(End(run))
    requires End(run).disk.request == Some(End(run).disk.journal.value.request)
    ensures LegalRun(again) && Continues(run, finished) && again.Then? && again.before == finished && again.event.WriteStatus?
    ensures End(finished).portal == End(run).portal
    ensures !MaintenancePending(End(finished).disk) && MaintenancePending(End(again).disk)
  {
    var request := End(run).disk.journal.value.request;
    finished := Extend(run, run, WriteStatus(Status(request.op, request.target, Failed, Phase.RolledBack, true, true)));
    again := Extend(finished, finished, WriteStatus(Status(request.op, request.target, Running, Phase.Recovering, false, false)));
  }
}
