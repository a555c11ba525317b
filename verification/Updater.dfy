/**
 The updater: cmd/sub2api-limit-updater/apply.go, with the parts of transaction.go, status.go and
 files.go it calls.  Each method follows its Go function; error values that only carry text are
 dropped.  Whatever fails and wherever the process is killed, `m.Valid()` holds at the end of every
 method: the run so far is legal (see UpdateProtocol), so every theorem about legal runs applies.
 Facts about the present are stated for a process that is still alive.
 */
module Updater {
  import opened Options
  import opened SemverOrder
  import opened UpdateProtocol
  import opened UpdaterMachine
  import opened UpdateTheorems
  import UpdaterSemver

  datatype TransactionResult = Applied | Aborted(phase: Phase, rolledBack: bool, rollbackFailed: bool)

  /** This event took effect, or did not, and then the portal ran. */
  ghost predicate Tried(before: World, e: Event, after: World) {
    PortalRan(before, after) || PortalRan(Step(before, e), after)
  }

  /** The status, a request on disk and what is known of past operations are as before. */
  ghost predicate SameOperation(before: World, after: World) {
    && after.disk.status == before.disk.status
    && (before.disk.request.Some? ==> after.disk.request == before.disk.request)
    && before.history.issued <= after.history.issued
    && after.history.outcome == before.history.outcome
    && after.history.candidates == before.history.candidates
  }

  /** Both binaries are the same. */
  ghost predicate SameBinaries(files: FileMap, others: FileMap) {
    files[PORTAL] == others[PORTAL] && files[UPDATER] == others[UPDATER]
  }

  ghost predicate HasBoth(files: FileMap, candidates: (Blob, Blob)) {
    files[PORTAL] == Some(candidates.0) && files[UPDATER] == Some(candidates.1)
  }

  // ----- status.go

  class StatusWriter {
    var status: Status

    constructor (request: Request)
      ensures status == Status(request.op, request.target, State.Running, Checking, false, false)
    {
      status := Status(request.op, request.target, State.Running, Checking, false, false);
    }

    method Running(m: Machine, phase: Phase) returns (ok: bool)
      requires m.Valid() && !phase.RolledBack? && !phase.RollbackFailed? && !phase.Completed?
      requires m.alive ==> MayRun(m.Now(), Request(status.op, status.target))
      modifies this, m
      ensures m.Valid() && m.Aged()
      ensures status == old(status).(state := State.Running, phase := phase, finished := false)
      ensures ok ==> m.alive && PortalRan(Step(old(m.Now()), WriteStatus(status)), m.Now())
      ensures m.alive ==> Tried(old(m.Now()), WriteStatus(status), m.Now())
      ensures m.SamePortal() && (m.Smooth() ==> ok && m.portal == old(m.portal))
      ensures m.Once() && !ok ==> m.failed == Some(WriteStatus(status))
    {
      status := status.(state := State.Running, phase := phase, finished := false);
      ok := m.Attempt(WriteStatus(status));
    }

    method Finish(m: Machine, state: State, phase: Phase, rolledBack: bool) returns (ok: bool)
      requires m.Valid()
      requires m.alive ==> LegalStatus(m.Now(), status.(state := state, phase := phase, finished := true, rolledBack := rolledBack))
      modifies this, m
      ensures m.Valid() && m.Aged()
      ensures status == old(status).(state := state, phase := phase, finished := true, rolledBack := rolledBack)
      ensures ok ==> m.alive && PortalRan(Step(old(m.Now()), WriteStatus(status)), m.Now())
      ensures m.alive ==> Tried(old(m.Now()), WriteStatus(status), m.Now())
      ensures m.SamePortal() && (m.Smooth() ==> ok && m.portal == old(m.portal))
      ensures m.Once() && !ok ==> m.failed == Some(WriteStatus(status))
    {
      status := status.(state := state, phase := phase, finished := true, rolledBack := rolledBack);
      ok := m.Attempt(WriteStatus(status));
    }
  }

  /** A progress report changes the status and nothing else the updater relies on. */
  ghost predicate Progressed(before: World, after: World) {
    && after.disk.journal == before.disk.journal && after.disk.backups == before.disk.backups
    && SameBinaries(after.disk.files, before.disk.files)
    && after.history == before.history.(issued := after.history.issued)
    && (before.portal.Inactive? ==> after.portal.Inactive? && after.disk.files == before.disk.files)
  }

  /** status.running as the transaction's progress report. */
  method Progress(m: Machine, status: StatusWriter, request: Request, phase: Phase) returns (ok: bool)
    requires m.Valid() && status.status.op == request.op && status.status.target == request.target
    requires !phase.RolledBack? && !phase.RollbackFailed? && !phase.Completed?
    requires m.alive ==> Serving(m.Now(), request) && MayRun(m.Now(), request)
    modifies m, status
    ensures m.Valid() && m.Aged() && m.SamePortal()
    ensures status.status == old(status.status).(state := State.Running, phase := phase, finished := false)
    ensures ok ==> m.alive
    ensures m.alive ==> Serving(m.Now(), request) && Progressed(old(m.Now()), m.Now())
    ensures m.Smooth() ==> ok && m.portal == old(m.portal)
  {
    ok := status.Running(m, phase);
  }

  /** None is an error; a missing file is reported separately. */
  method ReadUpdateRequest(m: Machine) returns (request: Option<Request>, missing: bool)
    modifies m`mishaps, m`failed
    ensures request.Some? ==> request == m.disk.request
    ensures missing ==> m.disk.request.None? && request.None?
    ensures m.Aged() && (m.Smooth() ==> request == m.disk.request && (missing <==> request.None?))
  {
    var failed := m.Mishap();
    request := if failed then None else m.disk.request;
    missing := m.disk.request.None?;
  }

  method ReadUpdateStatus(m: Machine) returns (status: Option<Status>, ok: bool)
    modifies m`mishaps, m`failed
    ensures ok ==> status == m.disk.status
    ensures m.Aged() && (m.Smooth() ==> ok)
  {
    var failed := m.Mishap();
    ok := !failed;
    status := if ok then m.disk.status else None;
  }

  method ConsumeUpdateRequest(m: Machine) returns (ok: bool)
    requires m.Valid()
    requires m.alive && m.disk.request.Some? ==> Finished(m.disk, m.disk.request.value.op)
    modifies m
    ensures m.Valid() && m.Aged()
    ensures m.alive ==> Tried(old(m.Now()), RemoveRequest, m.Now())
    ensures m.alive && ok ==> PortalRan(Step(old(m.Now()), RemoveRequest), m.Now())
    ensures m.Smooth() ==> ok && m.portal == old(m.portal)
  {
    if m.disk.request.None? {
      var unsynced := m.Mishap();
      return !unsynced;
    }
    ok := m.Attempt(RemoveRequest);
  }

  method ConsumeRequestForOperation(m: Machine, op: OperationId) returns (ok: bool)
    requires m.Valid() && (m.alive ==> Finished(m.disk, op))
    modifies m
    ensures m.Valid() && m.Aged()
    ensures m.alive ==> Tried(old(m.Now()), RemoveRequest, m.Now())
    ensures m.alive && ok ==> (m.disk.request.Some? ==> m.disk.request.value.op != op)
    ensures m.Smooth() ==> ok && m.portal == old(m.portal)
  {
    m.Sound();
    var request, missing := ReadUpdateRequest(m);
    if missing {
      return true;
    }
    if request.None? {
      return false;
    }
    if request.value.op != op {
      return true;
    }
    ok := ConsumeUpdateRequest(m);
  }

  predicate AlreadyFinished(d: Disk) {
    && d.request.Some? && d.status.Some? && d.status.value.op == d.request.value.op && d.status.value.finished
    && (d.status.value.state.Succeeded? || d.status.value.state.Failed?)
  }

  /** A request whose terminal status is already durable is only deleted. */
  method ConsumeFinishedRequest(m: Machine) returns (reconciled: bool, ok: bool)
    requires m.Valid()
    modifies m
    ensures m.Valid() && m.Aged()
    ensures !reconciled ==> m.Now() == old(m.Now()) && m.alive == old(m.alive)
    ensures m.alive ==> Tried(old(m.Now()), RemoveRequest, m.Now())
    ensures m.alive && reconciled ==> m.disk.status.Some? && m.disk.status.value.finished
    ensures m.Smooth() ==> ok && (reconciled <==> AlreadyFinished(old(m.disk)))
    ensures m.Smooth() ==> (reconciled <==> && old(m.disk.request).Some? && old(m.disk.status).Some?
                                            && old(m.disk.status).value.op == old(m.disk.request).value.op && old(m.disk.status).value.finished)
    ensures m.Smooth() && reconciled && m.disk.request.Some? ==> m.disk.request != old(m.disk.request)
  {
    m.Sound();
    var request, _ := ReadUpdateRequest(m);
    if request.None? {
      return false, true;
    }
    var status, readable := ReadUpdateStatus(m);
    if !readable || status.None? {
      return false, readable;
    }
    var s := status.value;
    if s.op != request.value.op || !s.finished || (!s.state.Succeeded? && !s.state.Failed?) {
      return false, true;
    }
    ok := ConsumeRequestForOperation(m, request.value.op);
    return true, ok;
  }

  // ----- commands

  /** binaryVersion on a managed file. */
  method BinaryVersion(m: Machine, file: nat, expected: ParsedVersion) returns (ok: bool)
    requires file < FILE_COUNT
    modifies m`mishaps, m`failed
    ensures ok ==> Reports(m.disk.files[file], expected)
    ensures m.Aged() && (m.Smooth() ==> (ok <==> Reports(m.disk.files[file], expected)))
  {
    var broken := m.Mishap();
    if broken || m.disk.files[file].None? {
      return false;
    }
    ok := ReportsVersion(m.disk.files[file].value, expected);
  }

  method ReportsVersion(binary: Blob, expected: ParsedVersion) returns (ok: bool)
    ensures ok <==> binary.version == Some(expected)
  {
    if binary.version.None? {
      return false;
    }
    var c := UpdaterSemver.CompareSemVersion(binary.version.value, expected);
    return c == 0;
  }

  method ServiceIsActive(m: Machine) returns (active: bool, ok: bool)
    requires m.Valid()
    modifies m
    ensures m.Valid() && m.alive == old(m.alive) && PortalRan(old(m.Now()), m.Now())
    ensures ok && !active ==> m.portal.Inactive?
    ensures (active ==> ok) && (ok ==> (active <==> old(m.portal).Active?)) && m.SamePortal()
    ensures m.Aged() && (m.Smooth() ==> ok && m.portal == old(m.portal) && (active <==> m.portal.Active?))
  {
    var state := m.ServiceState();
    match state {
      case Some(StateActive) => return true, true;
      case Some(StateInactive) => return false, true;
      case Some(StateFailed) => return false, true;
      case _ => return false, false;
    }
  }

  method StopPortalService(m: Machine) returns (stopped: bool, ok: bool)
    requires m.Valid() && (m.alive ==> InTransaction(m.Now()))
    modifies m
    ensures m.Valid() && m.Aged()
    ensures m.alive ==> Tried(old(m.Now()), StopPortal, m.Now())
    ensures m.alive && stopped ==> m.portal.Inactive?
    ensures ok ==> stopped
    ensures m.alive && ok ==> PortalRan(Step(old(m.Now()), StopPortal), m.Now())
    ensures m.SamePortal() && (m.Smooth() ==> ok)
    // with nothing else in its way it gives up only on a portal that still runs
    ensures m.Once() && !ok ==> m.failed == Some(StopPortal) && (stopped <==> m.portal.Inactive?)
  {
    ok := m.Attempt(StopPortal);
    if ok {
      return true, true;
    }
    stopped := SeeItStop(m);
  }

  /** After a failing systemctl stop: the portal's state, up to 120 times. */
  method SeeItStop(m: Machine) returns (stopped: bool)
    requires m.Valid()
    modifies m
    ensures m.Valid() && m.alive == old(m.alive) && m.Aged() && PortalRan(old(m.Now()), m.Now()) && m.SamePortal()
    ensures stopped ==> m.portal.Inactive?
    ensures m.Smooth() ==> (stopped <==> m.portal.Inactive?)
  {
    for attempt := 0 to 120
      invariant m.Valid() && m.alive == old(m.alive) && m.Aged() && PortalRan(old(m.Now()), m.Now()) && m.SamePortal()
      invariant m.Smooth() && attempt > 0 ==> m.portal.Active?
    {
      var state := m.ServiceState();
      if state == Some(StateInactive) || state == Some(StateFailed) {
        return true;
      }
      if state.None? {
        return false;
      }
      var interrupted := m.Mishap();
      if interrupted {
        return false;
      }
    }
    return false;
  }

  /** Nothing but the portal's own activity, and possibly a passed check. */
  ghost predicate OnlyVerified(before: World, after: World) {
    PortalRan(before, after.(history := after.history.(verified := before.history.verified)))
  }

  /** The portal is expected to report this version. */
  ghost predicate Expecting(w: World, expected: ParsedVersion) {
    InTransaction(w) && expected in {w.disk.journal.value.request.target, w.disk.journal.value.oldVersion}
  }

  /** One round of waitForHealthy: active, ready and of the right version. */
  method CheckHealth(m: Machine, expected: ParsedVersion) returns (healthy: bool)
    requires m.Valid() && (m.alive ==> Expecting(m.Now(), expected))
    modifies m
    ensures m.Valid() && m.alive == old(m.alive) && OnlyVerified(old(m.Now()), m.Now())
    ensures !healthy ==> PortalRan(old(m.Now()), m.Now())
    ensures m.alive && healthy ==> m.history.verified && Reports(m.disk.files[PORTAL], expected)
    ensures m.Aged() && m.SamePortal() && (m.Smooth() ==> m.portal == old(m.portal))
    ensures healthy ==> !m.sick
    ensures m.Smooth() && m.portal.Active? ==> (healthy <==> !m.sick && Reports(m.disk.files[PORTAL], expected))
  {
    var active, _ := ServiceIsActive(m);
    healthy := false;
    if active {
      var ready := m.Ready();
      if ready {
        healthy := VerifyPortal(m, expected);
      }
    }
  }

  method WaitForHealthy(m: Machine, expected: ParsedVersion, readyAttempts: nat) returns (ok: bool)
    requires m.Valid() && (m.alive ==> Expecting(m.Now(), expected))
    modifies m
    ensures m.Valid() && m.alive == old(m.alive) && OnlyVerified(old(m.Now()), m.Now())
    ensures m.alive && ok ==> m.history.verified && Reports(m.disk.files[PORTAL], expected)
    ensures m.Aged() && m.SamePortal() && (m.Smooth() ==> m.portal == old(m.portal))
    ensures ok ==> !m.sick
    ensures m.Smooth() && readyAttempts > 0 && m.portal.Active? ==> (ok <==> !m.sick && Reports(m.disk.files[PORTAL], expected))
    // one answer that does not come is waited out
    ensures m.Once() && readyAttempts > 1 && m.portal.Active? && !m.sick && Reports(m.disk.files[PORTAL], expected) ==> ok
  {
    for attempt := 0 to readyAttempts
      invariant m.Valid() && m.alive == old(m.alive) && PortalRan(old(m.Now()), m.Now())
      invariant m.Aged() && m.SamePortal() && (m.Smooth() ==> m.portal == old(m.portal))
      invariant attempt > 0 && m.Smooth() && m.portal.Active? ==> m.sick || !Reports(m.disk.files[PORTAL], expected)
      invariant attempt > 1 && m.Once() && m.portal.Active? ==> m.sick || !Reports(m.disk.files[PORTAL], expected)
    {
      var healthy := CheckHealth(m, expected);
      if healthy {
        return true;
      }
      var interrupted := m.Mishap();
      if interrupted {
        return false;
      }
    }
    return false;
  }

  /** binaryVersion on the portal, at the end of a transaction or of its rollback. */
  method VerifyPortal(m: Machine, expected: ParsedVersion) returns (ok: bool)
    requires m.Valid() && (m.alive ==> Expecting(m.Now(), expected))
    modifies m
    ensures m.Valid() && m.alive == old(m.alive) && OnlyVerified(old(m.Now()), m.Now())
    ensures m.alive && ok ==> m.history.verified && Reports(m.disk.files[PORTAL], expected)
    ensures !ok ==> m.Now() == old(m.Now())
    ensures m.Aged() && m.portal == old(m.portal) && m.sick == old(m.sick) && (m.Smooth() ==> (ok <==> Reports(m.disk.files[PORTAL], expected)))
  {
    ok := BinaryVersion(m, PORTAL, expected);
    if ok && m.alive {
      m.Take(PortalVerified);
    }
  }

  // ----- files.go

  /** Only the backup of one file changed. */
  ghost predicate OnlyBackup(before: World, after: World, dir: BackupDir, index: nat) {
    && after == before.(disk := before.disk.(backups := after.disk.backups))
    && dir in before.disk.backups && dir in after.disk.backups
    && forall k :: k != index ==>
         (k in after.disk.backups[dir] <==> k in before.disk.backups[dir]) &&
         (k in after.disk.backups[dir] ==> after.disk.backups[dir][k] == before.disk.backups[dir][k])
  }

  /** copyFile: create, fill, and remove again after an error. */
  method CopyFile(m: Machine, content: Blob, dir: BackupDir, index: nat) returns (ok: bool)
    requires m.Valid()
    requires m.alive ==> m.portal.Inactive? && m.history.base.None? && BackingUpInto(m.Now(), dir) && dir in m.disk.backups
    modifies m
    ensures m.Valid() && m.Aged()
    ensures m.alive ==> OnlyBackup(old(m.Now()), m.Now(), dir, index)
    ensures m.alive && ok ==> index in m.disk.backups[dir] && m.disk.backups[dir][index] == content
    ensures m.Smooth() ==> ok
  {
    var partial: Blob := *;
    ok := m.Attempt(BackUp(dir, index, partial));
    if !ok {
      return;
    }
    ok := FillOrDiscard(m, content, dir, index);
  }

  method FillOrDiscard(m: Machine, content: Blob, dir: BackupDir, index: nat) returns (ok: bool)
    requires m.Valid()
    requires m.alive ==> m.portal.Inactive? && m.history.base.None? && BackingUpInto(m.Now(), dir) && dir in m.disk.backups
    modifies m
    ensures m.Valid() && m.Aged()
    ensures m.alive ==> OnlyBackup(old(m.Now()), m.Now(), dir, index)
    ensures m.alive && ok ==> index in m.disk.backups[dir] && m.disk.backups[dir][index] == content
    ensures m.Smooth() ==> ok
  {
    var cancelled := m.Mishap();
    if !cancelled {
      ok := m.Attempt(BackUp(dir, index, content));
      if ok {
        return;
      }
    }
    var _ := m.Attempt(DiscardBackup(dir, index));
    ok := false;
  }

  method SaveFile(m: Machine, original: nat, dir: BackupDir) returns (entry: SavedFile, ok: bool)
    requires m.Valid() && original < FILE_COUNT
    requires m.alive ==> m.portal.Inactive? && m.history.base.None? && BackingUpInto(m.Now(), dir)
    modifies m
    ensures m.Valid() && m.Aged()
    ensures m.alive ==> OnlyBackup(old(m.Now()), m.Now(), dir, original)
    ensures entry.original == original
    ensures m.alive && ok ==> BackedUpAs(m.disk, dir, entry, original, m.disk.files[original])
    ensures m.Smooth() ==> ok
  {
    m.Sound();
    entry := SavedFile(original, false);
    var unreadable := m.Mishap();
    if unreadable {
      return entry, false;
    }
    if m.disk.files[original].None? {
      return entry, true;
    }
    entry := SavedFile(original, true);
    ok := CopyFile(m, m.disk.files[original].value, dir, original);
  }

  method AtomicInstall(m: Machine, candidate: Blob, destination: nat) returns (ok: bool)
    requires m.Valid() && destination < FILE_COUNT
    requires m.alive ==> Legal(m.Now(), WriteOriginal(destination, Some(candidate)))
    modifies m
    ensures m.Valid() && m.Aged()
    ensures m.alive ==> Tried(old(m.Now()), WriteOriginal(destination, Some(candidate)), m.Now())
    ensures m.alive && ok ==> m.Now() == Step(old(m.Now()), WriteOriginal(destination, Some(candidate)))
    ensures m.Smooth() ==> ok
  {
    var missing := m.Mishap();
    if missing {
      return false;
    }
    ok := m.Attempt(WriteOriginal(destination, Some(candidate)));
  }

  method RestoreFile(m: Machine, dir: BackupDir, entry: SavedFile) returns (ok: bool)
    requires m.Valid()
    requires m.alive ==> Legal(m.Now(), WriteOriginal(entry.original, Saved(m.disk, dir, entry)))
    modifies m
    ensures m.Valid() && m.Aged()
    ensures m.alive ==> Tried(old(m.Now()), WriteOriginal(entry.original, Saved(old(m.disk), dir, entry)), m.Now())
    ensures ok ==> m.alive && m.Now() == Step(old(m.Now()), WriteOriginal(entry.original, Saved(old(m.disk), dir, entry)))
    ensures m.Smooth() ==> (ok <==> entry.existed ==> Saved(old(m.disk), dir, entry).Some?)
  {
    var cancelled := m.Mishap();
    if cancelled {
      return false;
    }
    if entry.existed && Saved(m.disk, dir, entry).None? {
      return false;
    }
    ok := m.Attempt(WriteOriginal(entry.original, Saved(m.disk, dir, entry)));
  }

  // ----- transaction.go

  method WriteTransactionJournal(m: Machine, journal: Journal, candidates: (Blob, Blob)) returns (ok: bool)
    requires m.Valid() && (m.alive ==> ValidJournal(m.disk, journal) ==> LegalJournal(m.Now(), journal, candidates))
    modifies m
    ensures m.Valid() && m.Aged()
    ensures m.alive ==> Tried(old(m.Now()), WriteJournal(journal, candidates), m.Now())
    ensures ok ==> m.alive && PortalRan(Step(old(m.Now()), WriteJournal(journal, candidates)), m.Now())
    ensures m.SamePortal() && (m.Once() && !ok && ValidJournal(old(m.disk), journal) ==> m.failed == Some(WriteJournal(journal, candidates)))
    ensures m.Smooth() ==> m.portal == old(m.portal) && (ok <==> ValidJournal(old(m.disk), journal))
    ensures m.alive && !ValidJournal(old(m.disk), journal) ==> m.Now() == old(m.Now())
  {
    if !m.alive || !ValidJournal(m.disk, journal) {
      return false;
    }
    ok := m.Attempt(WriteJournal(journal, candidates));
  }

  /** The journal on disk always passes its own check, so reading fails only if the file cannot be read. */
  method ReadTransactionJournal(m: Machine) returns (journal: Option<Journal>, ok: bool)
    requires m.Valid()
    modifies m`mishaps, m`failed
    ensures ok ==> journal == m.disk.journal
    ensures m.Aged() && (m.Smooth() ==> ok)
  {
    var failed := m.Mishap();
    ok := !failed;
    if !ok {
      return None, false;
    }
    m.Sound();
    journal := m.disk.journal;
    assert journal.Some? ==> ValidJournal(m.disk, journal.value);
  }

  lemma NextRestoreIsLegal(m: Machine, j: Journal)
    requires m.Valid() && Restoring(m.Now(), j) && j.cursor < FILE_COUNT
    ensures |j.files| == FILE_COUNT
    ensures var i := FILE_COUNT - 1 - j.cursor;
            j.files[i].original == i && Saved(m.disk, j.backupDir, j.files[i]) == m.history.reference[i] &&
            (j.files[i].existed <==> m.history.reference[i].Some?) &&
            Legal(m.Now(), WriteOriginal(i, Saved(m.disk, j.backupDir, j.files[i])))
  {
    m.Sound();
    var w := m.Now();
    var i := FILE_COUNT - 1 - j.cursor;
    assert BackedUpAs(w.disk, j.backupDir, j.files[i], i, w.history.reference[i]);
  }

  lemma {:induction false} NextCheckpointIsLegal(m: Machine, before: Run, j: Journal, candidates: (Blob, Blob))
    requires m.Valid() && LegalRun(before) && Restoring(End(before), j) && j.cursor < FILE_COUNT
    requires |j.files| == FILE_COUNT
    requires var i := FILE_COUNT - 1 - j.cursor;
             m.Now() == Step(End(before), WriteOriginal(i, Saved(End(before).disk, j.backupDir, j.files[i])))
    ensures Restoring(m.Now(), j) && LegalJournal(m.Now(), j.(cursor := j.cursor + 1), candidates)
  {
    m.Sound();
    RunKeepsInv(before);
    CheckpointIsLegal(End(before), m.Now(), j, candidates);
  }

  /** One round of the restore loop: restore the next file, advance the cursor, write the checkpoint. */
  method RestoreNext(m: Machine, journal: Journal) returns (ok: bool)
    requires m.Valid() && |journal.files| == FILE_COUNT && journal.cursor < FILE_COUNT
    requires m.alive ==> Restoring(m.Now(), journal)
    modifies m
    ensures m.Valid() && m.Aged()
    ensures m.alive ==> SameOperation(old(m.Now()), m.Now()) && m.history.reference == old(m.history.reference) && m.disk.journal.Some?
    ensures ok ==> m.alive && m.history.base.None? && Restoring(m.Now(), journal.(cursor := journal.cursor + 1))
    ensures m.Smooth() ==> ok
  {
    var index := |journal.files| - 1 - journal.cursor;
    ghost var before, sofar := m.Now(), m.run;
    if m.alive {
      NextRestoreIsLegal(m, journal);
    }
    var restored := RestoreFile(m, journal.backupDir, journal.files[index]);
    if !restored {
      return false;
    }
    var none := (Blob(0, None), Blob(0, None));
    NextCheckpointIsLegal(m, sofar, journal, none);
    ok := WriteTransactionJournal(m, journal.(cursor := journal.cursor + 1), none);
  }

  /** restoreTransactionFiles: the remaining files, last first, with a checkpoint after each. */
  method RestoreTransactionFiles(m: Machine, start: Journal) returns (ok: bool)
    requires m.Valid() && |start.files| == FILE_COUNT && start.cursor <= FILE_COUNT
    requires m.alive ==> Restoring(m.Now(), start)
    modifies m
    ensures m.Valid() && m.Aged()
    ensures m.alive ==> SameOperation(old(m.Now()), m.Now()) && m.history.reference == old(m.history.reference) && m.disk.journal.Some?
    ensures m.alive && ok ==> Restoring(m.Now(), start.(cursor := FILE_COUNT)) && Settled(m.Now())
    // a full cursor changes nothing; any other restores all five files
    ensures m.alive && ok && start.cursor < FILE_COUNT ==> m.disk.files == m.history.reference
    ensures m.alive && start.cursor == FILE_COUNT ==> m.Now() == old(m.Now())
    ensures m.Smooth() ==> ok
  {
    var journal := start;
    while journal.cursor < |journal.files|
      invariant m.Valid() && m.Aged()
      invariant start.cursor <= journal.cursor <= FILE_COUNT && journal == start.(cursor := journal.cursor)
      invariant m.alive ==> Restoring(m.Now(), journal)
      invariant m.alive ==> SameOperation(old(m.Now()), m.Now()) && m.history.reference == old(m.history.reference)
      invariant m.alive && start.cursor < journal.cursor ==> m.history.base.None?
      invariant journal.cursor == start.cursor ==> m.Now() == old(m.Now())
      decreases FILE_COUNT - journal.cursor
    {
      var advanced := RestoreNext(m, journal);
      if !advanced {
        return false;
      }
      journal := journal.(cursor := journal.cursor + 1);
    }
    m.Sound();
    return true;
  }

  // ----- apply.go: the transaction

  /** This operation's transaction is open on disk. */
  ghost predicate Open(w: World, request: Request, wasActive: bool) {
    InTransaction(w) && w.disk.journal.value.request == request && w.disk.journal.value.wasActive == wasActive
  }

  /** Stop the portal and restore what the journal lists (both rollback and crash recovery). */
  method StopAndRestore(m: Machine, journal: Journal) returns (ok: bool)
    requires m.Valid() && |journal.files| == FILE_COUNT && journal.cursor <= FILE_COUNT
    requires m.alive ==> m.disk.journal == Some(journal) && journal.phase.BackedUp? && InTransaction(m.Now())
    modifies m
    ensures m.Valid() && m.Aged()
    ensures m.alive ==> SameOperation(old(m.Now()), m.Now()) && m.history.reference == old(m.history.reference) && m.disk.journal.Some?
    ensures m.alive && ok ==> Restoring(m.Now(), journal.(cursor := FILE_COUNT)) && Settled(m.Now())
    ensures m.Smooth() ==> ok
  {
    var stopped, _ := StopPortalService(m);
    if !stopped {
      return false;
    }
    assert m.alive ==> Restoring(m.Now(), journal);
    ok := RestoreTransactionFiles(m, journal);
  }

  /** Start the previous portal again if it was running, and check it (both rollback and crash recovery). */
  method Reopen(m: Machine, wasActive: bool, oldVersion: ParsedVersion, restored: bool, readyAttempts: nat) returns (ok: bool)
    requires m.Valid()
    requires m.alive ==> InTransaction(m.Now()) && m.disk.journal.value.wasActive == wasActive && RolledBackFully(m.Now())
    requires m.alive ==> m.disk.journal.value.oldVersion == oldVersion && (m.history.dirty ==> restored)
    modifies m
    ensures m.Valid() && m.Aged()
    ensures m.alive ==> SameOperation(old(m.Now()), m.Now()) && m.disk.journal == old(m.disk.journal)
    ensures m.alive ==> m.history.reference == old(m.history.reference)
    ensures m.alive && ok ==> Reopened(m.Now())
    ensures m.alive && ok && (wasActive || restored) ==> Reports(m.disk.files[PORTAL], oldVersion)
    // a portal that still runs, and never becomes ready, is not started anew
    ensures m.Smooth() && readyAttempts > 0 && (wasActive ==> old(m.Well())) ==> ok && (m.portal.Active? <==> wasActive)
  {
    m.Sound();
    if wasActive {
      var started := m.Attempt(StartPortal);
      if !started {
        return false;
      }
      ok := WaitForHealthy(m, oldVersion, readyAttempts);
    } else if restored {
      ok := VerifyPortal(m, oldVersion);
    } else {
      ok := true;
    }
  }

  lemma UntouchedIsRolledBack(m: Machine)
    requires m.Valid() && m.disk.journal.Some? && !m.history.dirty
    ensures RolledBackFully(m.Now())
  {
    m.Sound();
  }

  /** The rollback closure of applyTransaction; the parameters are its captured variables. */
  method Rollback(m: Machine, journalWritten: bool, changed: bool, journal: Journal, wasActive: bool,
                  oldVersion: ParsedVersion, phase: Phase, readyAttempts: nat) returns (r: TransactionResult)
    requires m.Valid()
    requires m.alive && journalWritten ==> Open(m.Now(), journal.request, wasActive)
    requires m.alive && journalWritten ==> m.disk.journal.value.oldVersion == oldVersion && (!changed ==> !m.history.dirty)
    requires changed ==> journalWritten && |journal.files| == FILE_COUNT && journal.cursor == 0 && journal.phase.BackedUp?
    requires m.alive && changed ==> m.disk.journal == Some(journal)
    modifies m
    ensures m.Valid() && m.Aged()
    ensures m.alive ==> SameOperation(old(m.Now()), m.Now())
    ensures r.Aborted? && r.phase == phase && !(r.rolledBack && r.rollbackFailed)
    ensures m.alive && r.rolledBack ==> Open(m.Now(), journal.request, wasActive) && Reopened(m.Now())
    ensures !r.rolledBack && !r.rollbackFailed <==> !journalWritten
    ensures !journalWritten ==> m.Now() == old(m.Now())
    ensures m.alive ==> m.history.reference == old(m.history.reference)
    // if nothing goes wrong any more the old portal is back, and runs if it was running
    ensures m.Smooth() && readyAttempts > 0 && journalWritten && (changed || old(m.Well())) ==> r.rolledBack && (m.portal.Active? <==> wasActive)
  {
    if !journalWritten {
      return Aborted(phase, false, false);
    }
    r := RollBackJournaled(m, changed, journal, wasActive, oldVersion, phase, readyAttempts);
  }

  /** The rollback of an operation whose journal is durable. */
  method RollBackJournaled(m: Machine, changed: bool, journal: Journal, wasActive: bool,
                           oldVersion: ParsedVersion, phase: Phase, readyAttempts: nat) returns (r: TransactionResult)
    requires m.Valid()
    requires m.alive ==> Open(m.Now(), journal.request, wasActive)
    requires m.alive ==> m.disk.journal.value.oldVersion == oldVersion && (!changed ==> !m.history.dirty)
    requires changed ==> |journal.files| == FILE_COUNT && journal.cursor == 0 && journal.phase.BackedUp?
    requires m.alive && changed ==> m.disk.journal == Some(journal)
    modifies m
    ensures m.Valid() && m.Aged()
    ensures m.alive ==> SameOperation(old(m.Now()), m.Now())
    ensures r.Aborted? && r.phase == phase && r.rolledBack != r.rollbackFailed
    ensures m.alive && r.rolledBack ==> Open(m.Now(), journal.request, wasActive) && Reopened(m.Now())
    ensures m.alive ==> m.history.reference == old(m.history.reference)
    ensures m.Smooth() && readyAttempts > 0 && (changed || old(m.Well())) ==> r.rolledBack && (m.portal.Active? <==> wasActive)
  {
    var restored := RestoreChanged(m, changed, journal, wasActive);
    if !restored {
      return Aborted(phase, false, true);
    }
    var reopened := Reopen(m, wasActive, oldVersion, changed, readyAttempts);
    return Aborted(phase, reopened, !reopened);
  }

  /** The first half of the rollback: nothing to do unless a file may have changed. */
  method RestoreChanged(m: Machine, changed: bool, journal: Journal, wasActive: bool) returns (ok: bool)
    requires m.Valid()
    requires m.alive ==> Open(m.Now(), journal.request, wasActive) && (!changed ==> !m.history.dirty)
    requires changed ==> |journal.files| == FILE_COUNT && journal.cursor == 0 && journal.phase.BackedUp?
    requires m.alive && changed ==> m.disk.journal == Some(journal)
    modifies m
    ensures m.Valid() && m.Aged()
    ensures m.alive ==> SameOperation(old(m.Now()), m.Now())
    ensures m.alive && ok ==> Open(m.Now(), journal.request, wasActive) && RolledBackFully(m.Now()) && (m.history.dirty ==> changed)
    ensures m.alive && ok ==> m.disk.journal.value.oldVersion == old(m.disk.journal).value.oldVersion
    ensures !changed ==> ok && m.Now() == old(m.Now()) && m.sick == old(m.sick)
    ensures m.alive ==> m.history.reference == old(m.history.reference)
    ensures m.alive && ok && changed ==> m.portal.Inactive?
    ensures m.Smooth() ==> ok
  {
    ok := true;
    if changed {
      ok := StopAndRestore(m, journal);
    } else if m.alive {
      UntouchedIsRolledBack(m);
    }
  }

  /** The backup loop of applyTransaction. */
  method BackUpFiles(m: Machine, dir: BackupDir) returns (backups: seq<SavedFile>, ok: bool)
    requires m.Valid()
    requires m.alive ==> m.portal.Inactive? && m.history.base.None? && BackingUpInto(m.Now(), dir)
    modifies m
    ensures m.Valid() && m.Aged()
    ensures m.alive ==> m.Now() == old(m.Now()).(disk := old(m.disk).(backups := m.disk.backups))
    ensures ok ==> |backups| == FILE_COUNT
    ensures m.alive && ok ==> dir in m.disk.backups
    ensures m.alive && ok ==> forall i :: 0 <= i < FILE_COUNT ==> BackedUpAs(m.disk, dir, backups[i], i, m.disk.files[i])
    ensures m.Smooth() ==> ok
  {
    m.Sound();
    backups := [];
    for source := 0 to FILE_COUNT
      invariant m.Valid() && m.Aged() && |backups| == source
      invariant m.alive ==> m.Now() == old(m.Now()).(disk := old(m.disk).(backups := m.disk.backups)) && dir in m.disk.backups
      invariant m.alive ==> forall i :: 0 <= i < source ==> BackedUpAs(m.disk, dir, backups[i], i, m.disk.files[i])
    {
      ghost var before := m.Now();
      var entry, saved := SaveFile(m, source, dir);
      if !saved {
        return backups, false;
      }
      assert m.alive ==> forall i :: 0 <= i < source ==> BackedUpAs(before.disk, dir, backups[i], i, before.disk.files[i]);
      backups := backups + [entry];
      var cancelled := m.Mishap();
      if cancelled {
        return backups, false;
      }
    }
    var unsynced := m.Mishap();
    return backups, !unsynced;
  }

  /** The operation's status runs and its request is still on disk. */
  ghost predicate Serving(w: World, request: Request) {
    RunningAs(w.disk, request.op) && w.disk.request == Some(request)
  }

  datatype PhaseResult = Done | Failing | StopUnknown

  /** The stop before the backup (lines 256-272). */
  method StopForBackup(m: Machine, prepared: Journal) returns (r: PhaseResult)
    requires m.Valid() && prepared.phase.Prepared?
    requires m.alive ==> m.disk.journal == Some(prepared) && InTransaction(m.Now())
    modifies m
    ensures m.Valid() && m.Aged()
    ensures m.alive ==> m.disk.journal == Some(prepared) && SameOperation(old(m.Now()), m.Now())
    ensures m.alive ==> SameBinaries(m.history.reference, old(m.history.reference)) && m.SamePortal()
    ensures m.alive && r.Done? ==> m.portal.Inactive? && m.history.base.None?
    ensures m.Smooth() ==> r.Done?
    // it gives up on a portal it has not seen stop, and goes on to roll back one it has, or has not tried to stop
    ensures m.Once() && r.StopUnknown? ==> m.failed == Some(StopPortal) && m.portal.Active?
    ensures m.Once() && r.Failing? ==> m.failed != Some(StopPortal) || m.portal.Inactive?
  {
    m.Sound();
    if prepared.wasActive {
      var cancelled := m.Mishap();
      if cancelled {
        return Failing;
      }
      var stopped, clean := StopPortalService(m);
      if !clean {
        return if stopped then Failing else StopUnknown;
      }
      cancelled := m.Mishap();
      if cancelled {
        return Failing;
      }
    }
    return Done;
  }

  lemma StoppedMeansReference(m: Machine)
    requires m.Valid() && IsPrepared(m.disk) && m.portal.Inactive? && m.history.base.None?
    ensures m.disk.files == m.history.reference && !m.history.dirty
  {
    m.Sound();
  }

  lemma PreparedIsClean(m: Machine)
    requires m.Valid() && IsPrepared(m.disk)
    ensures !m.history.dirty
  {
    m.Sound();
  }

  /** From the stop to the durable backed-up journal (lines 256-294). */
  method BackUpPhase(m: Machine, prepared: Journal, candidates: (Blob, Blob)) returns (journal: Journal, r: PhaseResult)
    requires m.Valid() && prepared.phase.Prepared? && prepared.files == [] && prepared.cursor == 0
    requires m.alive ==> m.disk.journal == Some(prepared) && InTransaction(m.Now()) && Serving(m.Now(), prepared.request)
    modifies m
    ensures m.Valid() && m.Aged()
    ensures m.alive ==> SameOperation(old(m.Now()), m.Now()) && Open(m.Now(), prepared.request, prepared.wasActive) && !m.history.dirty
    ensures m.alive ==> m.disk.journal.value.oldVersion == prepared.oldVersion
    ensures m.alive ==> SameBinaries(m.history.reference, old(m.history.reference))
    ensures r.Done? ==> journal == prepared.(phase := BackedUp, files := journal.files) && |journal.files| == FILE_COUNT
    ensures m.alive && r.Done? ==> m.disk.journal == Some(journal) && m.portal.Inactive?
    ensures m.alive && r.StopUnknown? ==> m.disk.journal == Some(prepared)
    ensures m.alive && old(m.Well()) ==> m.Well()
    ensures m.Smooth() ==> r.Done?
    ensures m.Once() && r.StopUnknown? ==> m.failed == Some(StopPortal) && m.portal.Active?
  {
    journal := prepared;
    r := StopForBackup(m, prepared);
    if m.alive {
      PreparedIsClean(m);
    }
    if !r.Done? {
      return;
    }
    journal, r := RecordBackup(m, prepared, candidates);
  }

  /** The backups and the journal that lists them (lines 274-294). */
  method RecordBackup(m: Machine, prepared: Journal, candidates: (Blob, Blob)) returns (journal: Journal, r: PhaseResult)
    requires m.Valid() && prepared.phase.Prepared? && prepared.files == [] && prepared.cursor == 0
    requires m.alive ==> m.disk.journal == Some(prepared) && InTransaction(m.Now()) && m.portal.Inactive? && m.history.base.None?
    modifies m
    ensures m.Valid() && m.Aged()
    ensures m.alive ==> SameOperation(old(m.Now()), m.Now()) && Open(m.Now(), prepared.request, prepared.wasActive) && !m.history.dirty
    ensures m.alive ==> m.disk.journal.value.oldVersion == prepared.oldVersion
    ensures m.alive ==> m.history.reference == old(m.history.reference) && m.portal.Inactive?
    ensures !r.StopUnknown?
    ensures r.Done? ==> journal == prepared.(phase := BackedUp, files := journal.files) && |journal.files| == FILE_COUNT
    ensures m.alive && r.Done? ==> m.disk.journal == Some(journal) && m.portal.Inactive?
    ensures m.Smooth() ==> r.Done?
  {
    journal := prepared;
    if m.alive {
      StoppedMeansReference(m);
      JournalIsValid(m);
    }
    var backups, saved := BackUpFiles(m, prepared.backupDir);
    if !saved {
      return journal, Failing;
    }
    journal := prepared.(phase := BackedUp, files := backups);
    assert m.alive ==> ValidJournal(m.disk, journal);
    var written := WriteTransactionJournal(m, journal, candidates);
    if !written {
      return journal, Failing;
    }
    var cancelled := m.Mishap();
    return journal, if cancelled then Failing else Done;
  }

  /** Both atomic installs (lines 296-312). */
  method InstallPhase(m: Machine, status: StatusWriter, journal: Journal, candidates: (Blob, Blob)) returns (changed: bool, ok: bool)
    requires m.Valid() && journal.phase.BackedUp? && journal.cursor == 0
    requires status.status.op == journal.request.op && status.status.target == journal.request.target
    requires m.alive ==> m.disk.journal == Some(journal) && Serving(m.Now(), journal.request) && m.portal.Inactive?
    requires m.alive ==> !m.history.dirty && m.history.candidates == candidates
    modifies m, status
    ensures m.Valid() && m.Aged()
    ensures status.status.op == old(status.status.op) && status.status.target == old(status.status.target)
    ensures m.alive ==> m.disk.journal == Some(journal) && Serving(m.Now(), journal.request) && m.history.candidates == candidates
    ensures m.alive ==> m.history.reference == old(m.history.reference) && m.portal.Inactive?
    ensures m.alive && !changed ==> !m.history.dirty
    ensures ok ==> changed
    ensures m.alive && ok ==> Commits(m.Now())
    ensures m.Smooth() ==> ok
  {
    changed := false;
    ok := Progress(m, status, journal.request, Installing);
    if !ok {
      return;
    }
    changed := true;
    ok := AtomicInstall(m, candidates.0, PORTAL);
    if !ok {
      return;
    }
    var cancelled := m.Mishap();
    if cancelled {
      ok := false;
      return;
    }
    ok := AtomicInstall(m, candidates.1, UPDATER);
    if !ok {
      return;
    }
    cancelled := m.Mishap();
    if cancelled {
      ok := false;
    }
  }

  /** Restart and health check of the new portal, or the check of its binary (lines 314-331). */
  method RestartPhase(m: Machine, status: StatusWriter, journal: Journal, target: ParsedVersion, readyAttempts: nat)
    returns (phase: Phase, ok: bool)
    requires m.Valid() && journal.phase.BackedUp? && journal.cursor == 0
    requires status.status.op == journal.request.op && status.status.target == journal.request.target
    requires m.alive ==> m.disk.journal == Some(journal) && Serving(m.Now(), journal.request) && Commits(m.Now()) && m.portal.Inactive?
    requires target == journal.request.target
    modifies m, status
    ensures m.Valid() && m.Aged()
    ensures status.status.op == old(status.status.op) && status.status.target == old(status.status.target)
    ensures m.alive ==> m.disk.journal == Some(journal) && Serving(m.Now(), journal.request)
    ensures m.alive ==> m.history.candidates == old(m.history.candidates) && m.history.reference == old(m.history.reference)
    ensures m.alive && ok ==> Commits(m.Now()) && Reports(m.disk.files[PORTAL], target)
    ensures m.alive && ok ==> m.history.verified && (journal.wasActive ==> m.history.base.Some?)
    ensures phase in {Restarting, HealthCheck}
    ensures m.Smooth() && readyAttempts > 0 ==> ok
  {
    InstalledReportsTarget(m, journal);
    if journal.wasActive {
      phase := Restarting;
      ok := status.Running(m, Restarting);
      if !ok {
        return;
      }
      var cancelled := m.Mishap();
      if cancelled {
        ok := false;
        return;
      }
      phase, ok := StartUpdatedPortal(m, status, journal, target, readyAttempts);
    } else {
      phase := HealthCheck;
      ok := VerifyPortal(m, target);
    }
  }

  lemma InstalledReportsTarget(m: Machine, journal: Journal)
    requires m.Valid() && (m.alive ==> m.disk.journal == Some(journal) && Installed(m.Now()))
    ensures m.alive ==> Reports(m.disk.files[PORTAL], journal.request.target)
  {
    m.Sound();
  }

  /** systemctl start and the health check (lines 320-327). */
  method StartUpdatedPortal(m: Machine, status: StatusWriter, journal: Journal, target: ParsedVersion, readyAttempts: nat)
    returns (phase: Phase, ok: bool)
    requires m.Valid() && journal.phase.BackedUp? && journal.cursor == 0 && journal.wasActive
    requires status.status.op == journal.request.op && status.status.target == journal.request.target
    requires m.alive ==> m.disk.journal == Some(journal) && Serving(m.Now(), journal.request) && Commits(m.Now()) && m.portal.Inactive?
    requires m.alive ==> Reports(m.disk.files[PORTAL], target)
    requires target == journal.request.target
    modifies m, status
    ensures m.Valid() && m.Aged()
    ensures status.status.op == old(status.status.op) && status.status.target == old(status.status.target)
    ensures m.alive ==> m.disk.journal == Some(journal) && Serving(m.Now(), journal.request)
    ensures m.alive ==> m.history.candidates == old(m.history.candidates) && m.history.reference == old(m.history.reference)
    ensures m.alive && ok ==> Commits(m.Now()) && Reports(m.disk.files[PORTAL], target) && m.history.verified && m.history.base.Some?
    ensures phase in {Restarting, HealthCheck}
    ensures m.Smooth() && readyAttempts > 0 ==> ok
  {
    phase := Restarting;
    ok := m.Attempt(StartPortal);
    if !ok {
      return;
    }
    phase := HealthCheck;
    ok := status.Running(m, HealthCheck);
    if !ok {
      return;
    }
    ok := WaitForHealthy(m, target, readyAttempts);
  }

  ghost predicate ReadyToOpen(w: World, journal: Journal) {
    && Serving(w, journal.request) && w.disk.journal.None? && journal.request.op !in w.history.touched
    && Reports(w.disk.files[PORTAL], journal.oldVersion) && Precedes(journal.oldVersion, journal.request.target)
    && journal.backupDir in w.disk.backups && w.disk.backups[journal.backupDir] == map[]
    && (!journal.wasActive ==> w.portal.Inactive?)
  }

  /** Like ReadyToOpen, before the backup directory exists. */
  ghost predicate Preparing(w: World, journal: Journal) {
    && Serving(w, journal.request) && w.disk.journal.None? && journal.request.op !in w.history.touched
    && Reports(w.disk.files[PORTAL], journal.oldVersion) && Precedes(journal.oldVersion, journal.request.target)
    && (!journal.wasActive ==> w.portal.Inactive?)
  }

  method MakeBackupDirectory(m: Machine, journal: Journal) returns (ok: bool)
    requires m.Valid() && (m.alive ==> Preparing(m.Now(), journal))
    modifies m
    ensures m.Valid() && m.Aged() && (m.alive ==> Preparing(m.Now(), journal))
    ensures m.SamePortal() && (m.alive ==> SameBinaries(m.disk.files, old(m.disk.files)))
    ensures m.alive && ok ==> ReadyToOpen(m.Now(), journal)
    ensures m.Smooth() ==> ok && m.portal == old(m.portal)
  {
    if journal.backupDir in m.disk.backups {
      m.Unlucky();
      return false;
    }
    ok := m.Attempt(MakeBackupDir(journal.backupDir));
  }

  /** The start of applyTransaction: the service's state, the backup directory and the first progress report. */
  method PrepareBackup(m: Machine, status: StatusWriter, request: Request, oldVersion: ParsedVersion)
    returns (journal: Journal, ok: bool)
    requires m.Valid()
    requires status.status.op == request.op && status.status.target == request.target
    requires m.alive ==> Serving(m.Now(), request) && m.disk.journal.None? && request.op !in m.history.touched
    requires m.alive ==> Reports(m.disk.files[PORTAL], oldVersion)
    requires Precedes(oldVersion, request.target)
    modifies m, status
    ensures m.Valid() && m.Aged()
    ensures status.status.op == old(status.status.op) && status.status.target == old(status.status.target)
    ensures m.alive ==> Serving(m.Now(), request) && m.disk.journal.None? && request.op !in m.history.touched
    ensures m.SamePortal() && (m.alive ==> SameBinaries(m.disk.files, old(m.disk.files)))
    ensures ok ==> (journal.wasActive <==> old(m.portal).Active?)
    ensures journal == Journal(request, Prepared, oldVersion, journal.wasActive, journal.backupDir, [], 0)
    ensures m.alive && ok ==> ReadyToOpen(m.Now(), journal)
    ensures m.Smooth() ==> ok && (journal.wasActive <==> old(m.portal).Active?)
  {
    var wasActive, known := ServiceIsActive(m);
    var backupPath: BackupDir := *;
    journal := Journal(request, Prepared, oldVersion, wasActive, backupPath, [], 0);
    if !known {
      return journal, false;
    }
    ok := MakeBackupDirectory(m, journal);
    if !ok {
      return;
    }
    ok := Progress(m, status, request, BackingUp);
  }

  method WritePreparedJournal(m: Machine, journal: Journal, candidates: (Blob, Blob)) returns (ok: bool)
    requires m.Valid() && journal.phase.Prepared? && journal.files == [] && journal.cursor == 0
    requires candidates.0.version == Some(journal.request.target) && candidates.1.version == Some(journal.request.target)
    requires m.alive ==> ReadyToOpen(m.Now(), journal)
    modifies m
    ensures m.Valid() && m.Aged()
    ensures m.alive ==> Serving(m.Now(), journal.request) && journal.request.op !in m.history.touched
    ensures m.SamePortal() && (m.alive ==> SameBinaries(m.disk.files, old(m.disk.files)))
    ensures ok ==> m.alive && m.disk.journal == Some(journal) && m.history.candidates == candidates
    ensures ok ==> SameBinaries(m.history.reference, old(m.disk.files))
    // if it is not written, there is none, or at least its writing has failed
    ensures m.Once() && !ok && journal.request.target.Stable() && journal.oldVersion.Stable() ==> m.failed == Some(WriteJournal(journal, candidates))
    ensures m.Smooth() ==> (ok <==> journal.request.target.Stable() && journal.oldVersion.Stable())
    ensures m.Smooth() && !ok ==> m.disk.journal.None?
  {
    ok := WriteTransactionJournal(m, journal, candidates);
  }

  method InstallAndRestart(m: Machine, status: StatusWriter, journal: Journal, candidates: (Blob, Blob), readyAttempts: nat)
    returns (phase: Phase, changed: bool, ok: bool)
    requires m.Valid() && journal.phase.BackedUp? && journal.cursor == 0
    requires status.status.op == journal.request.op && status.status.target == journal.request.target
    requires m.alive ==> m.disk.journal == Some(journal) && Serving(m.Now(), journal.request) && m.portal.Inactive?
    requires m.alive ==> !m.history.dirty && m.history.candidates == candidates
    modifies m, status
    ensures m.Valid() && m.Aged()
    ensures status.status.op == old(status.status.op) && status.status.target == old(status.status.target)
    ensures m.alive ==> m.disk.journal == Some(journal) && Serving(m.Now(), journal.request) && m.history.candidates == candidates
    ensures m.alive ==> m.history.reference == old(m.history.reference)
    ensures m.alive && !changed ==> !m.history.dirty && m.portal.Inactive?
    ensures m.alive && ok ==> Commits(m.Now()) && Reports(m.disk.files[PORTAL], journal.request.target)
    ensures m.alive && ok ==> m.history.verified && (journal.wasActive ==> m.history.base.Some?)
    ensures phase in {Installing, Restarting, HealthCheck}
    ensures m.Smooth() && readyAttempts > 0 ==> ok
  {
    phase := Installing;
    changed, ok := InstallPhase(m, status, journal, candidates);
    if !ok {
      return;
    }
    phase, ok := RestartPhase(m, status, journal, journal.request.target, readyAttempts);
  }

  /** The writing of the prepared journal has failed. */
  ghost predicate JournalUnsure(failed: Option<Event>) {
    failed.Some? && failed.value.WriteJournal? && failed.value.journal.phase.Prepared?
  }

  /** Both candidates are installed and checked, and only the removal of the journal has failed. */
  ghost predicate CommitUnsure(w: World, failed: Option<Event>, candidates: (Blob, Blob)) {
    failed == Some(RemoveJournal) && HasBoth(w.disk.files, candidates) && w.history.verified
  }

  /** The portal could not be stopped: it runs, and nothing has been written. */
  ghost predicate StillRunning(w: World, failed: Option<Event>) {
    failed == Some(StopPortal) && w.portal.Active? && IsPrepared(w.disk) && !w.history.dirty
  }

  /** applyTransaction.  Applied means committed; rolledBack means every managed file is as the portal left it. */
  method ApplyTransaction(m: Machine, status: StatusWriter, request: Request, candidates: (Blob, Blob),
                          oldVersion: ParsedVersion, readyAttempts: nat) returns (r: TransactionResult)
    requires m.Valid()
    requires status.status.op == request.op && status.status.target == request.target
    requires candidates.0.version == Some(request.target) && candidates.1.version == Some(request.target)
    requires m.alive ==> Serving(m.Now(), request) && m.disk.journal.None? && request.op !in m.history.touched
    requires m.alive ==> Reports(m.disk.files[PORTAL], oldVersion)
    requires Precedes(oldVersion, request.target)
    modifies m, status
    ensures m.Valid() && m.Aged()
    ensures status.status.op == old(status.status.op) && status.status.target == old(status.status.target)
    ensures m.alive ==> Serving(m.Now(), request)
    ensures m.alive && r.Applied? ==> m.disk.journal.None? && Reports(m.disk.files[PORTAL], request.target)
    ensures m.alive && r.Applied? ==> m.history.outcome == Committed(request, candidates.0, candidates.1) && HasBoth(m.disk.files, candidates)
    ensures m.alive && r.Aborted? && (!r.rollbackFailed || IsPrepared(m.disk)) ==> SameBinaries(m.disk.files, old(m.disk.files))
    ensures m.alive && r.Aborted? && r.rolledBack ==> Reopened(m.Now()) && m.disk.journal.value.request == request
    ensures m.alive && r.Aborted? && !r.rolledBack && !r.rollbackFailed ==> request.op !in m.history.touched && r.phase.BackingUp?
    ensures r.Aborted? ==> r.phase in {BackingUp, Installing, Restarting, HealthCheck} && !(r.rolledBack && r.rollbackFailed)
    // with nothing in its way it commits, unless the journal check refuses a pre-release
    ensures m.Smooth() && readyAttempts > 0 ==>
              r == if request.target.Stable() && oldVersion.Stable() then Applied else Aborted(BackingUp, false, false)
    ensures m.Smooth() && readyAttempts > 0 ==> m.disk.journal.None?
    // with one thing in its way it commits too, or leaves everything as it was: before the journal, or by rolling back
    ensures m.Once() && readyAttempts > 0 && old(m.Well()) && request.target.Stable() && oldVersion.Stable() ==>
              match r
              case Applied => true
              case Aborted(_, true, _) => m.portal.Active? <==> old(m.portal).Active?
              case Aborted(_, false, false) => m.disk.journal.None? || JournalUnsure(m.failed)
              case Aborted(_, false, true) => CommitUnsure(m.Now(), m.failed, candidates) || StillRunning(m.Now(), m.failed)
  {
    var journal, ok := PrepareBackup(m, status, request, oldVersion);
    if !ok {
      return Aborted(BackingUp, false, false);
    }
    ok := WritePreparedJournal(m, journal, candidates);
    if !ok {
      return Aborted(BackingUp, false, false);
    }
    r := RunTransaction(m, status, journal, candidates, oldVersion, readyAttempts);
  }

  lemma UnwrittenMeansReference(m: Machine)
    requires m.Valid() && (Reopened(m.Now()) || IsPrepared(m.disk))
    ensures SameBinaries(m.disk.files, m.history.reference)
  {
    m.Sound();
  }

  /** applyTransaction from the durable prepared journal on. */
  method RunTransaction(m: Machine, status: StatusWriter, prepared: Journal, candidates: (Blob, Blob),
                        oldVersion: ParsedVersion, readyAttempts: nat) returns (r: TransactionResult)
    requires m.Valid() && prepared.phase.Prepared? && prepared.files == [] && prepared.cursor == 0
    requires status.status.op == prepared.request.op && status.status.target == prepared.request.target
    requires m.alive ==> m.disk.journal == Some(prepared) && Serving(m.Now(), prepared.request)
    requires m.alive ==> m.history.candidates == candidates && prepared.oldVersion == oldVersion
    modifies m, status
    ensures m.Valid() && m.Aged()
    ensures status.status.op == old(status.status.op) && status.status.target == old(status.status.target)
    ensures m.alive ==> Serving(m.Now(), prepared.request)
    ensures m.alive && r.Applied? ==> m.disk.journal.None? && Reports(m.disk.files[PORTAL], prepared.request.target)
    ensures m.alive && r.Applied? ==> m.history.outcome == Committed(prepared.request, candidates.0, candidates.1) && HasBoth(m.disk.files, candidates)
    ensures m.alive && r.Aborted? && r.rolledBack ==> Reopened(m.Now()) && m.disk.journal.value.request == prepared.request
    ensures m.alive && r.Aborted? && (r.rolledBack || IsPrepared(m.disk)) ==> SameBinaries(m.disk.files, old(m.history.reference))
    ensures r.Aborted? ==> r.phase in {BackingUp, Installing, Restarting, HealthCheck} && r.rolledBack != r.rollbackFailed
    ensures m.Smooth() && readyAttempts > 0 ==> r.Applied?
    ensures m.Once() && readyAttempts > 0 && old(m.Well()) && r.Aborted? && r.rolledBack ==> (m.portal.Active? <==> prepared.wasActive)
    ensures m.Once() && readyAttempts > 0 && old(m.Well()) && r.Aborted? && r.rollbackFailed ==>
              CommitUnsure(m.Now(), m.failed, candidates) || StillRunning(m.Now(), m.failed)
  {
    var journal, result := BackUpPhase(m, prepared, candidates);
    if result.StopUnknown? {
      r := Aborted(BackingUp, false, true);
    } else if result.Failing? {
      r := Rollback(m, true, false, prepared, prepared.wasActive, oldVersion, BackingUp, readyAttempts);
    } else {
      r := CommitOrRollBack(m, status, journal, candidates, oldVersion, readyAttempts);
    }
    if m.alive && r.Aborted? && (r.rolledBack || IsPrepared(m.disk)) {
      UnwrittenMeansReference(m);
    }
  }

  /** From the first install to the removal of the journal, which is the commit. */
  method CommitOrRollBack(m: Machine, status: StatusWriter, journal: Journal, candidates: (Blob, Blob),
                          oldVersion: ParsedVersion, readyAttempts: nat) returns (r: TransactionResult)
    requires m.Valid() && journal.phase.BackedUp? && journal.cursor == 0 && |journal.files| == FILE_COUNT
    requires status.status.op == journal.request.op && status.status.target == journal.request.target
    requires m.alive ==> m.disk.journal == Some(journal) && Serving(m.Now(), journal.request) && m.portal.Inactive?
    requires m.alive ==> !m.history.dirty && m.history.candidates == candidates && journal.oldVersion == oldVersion
    modifies m, status
    ensures m.Valid() && m.Aged()
    ensures status.status.op == old(status.status.op) && status.status.target == old(status.status.target)
    ensures m.alive ==> Serving(m.Now(), journal.request)
    ensures m.alive && r.Applied? ==> m.disk.journal.None? && Reports(m.disk.files[PORTAL], journal.request.target)
    ensures m.alive && r.Applied? ==> m.history.outcome == Committed(journal.request, candidates.0, candidates.1) && HasBoth(m.disk.files, candidates)
    ensures m.alive && r.Aborted? && r.rolledBack ==> Reopened(m.Now()) && m.disk.journal.value.request == journal.request
    ensures m.alive && r.Aborted? ==> m.history.reference == old(m.history.reference)
    ensures r.Aborted? ==> r.phase in {Installing, Restarting, HealthCheck} && r.rolledBack != r.rollbackFailed
    ensures m.Smooth() && readyAttempts > 0 ==> r.Applied?
    // a failed install, restart or health check after which nothing else goes wrong is rolled back: everything is as the portal
    // left it, and it runs if it was running.  Only when the journal of the new, checked version stays is there nothing to do.
    ensures m.Once() && readyAttempts > 0 && r.Aborted? && r.rolledBack ==> (m.portal.Active? <==> journal.wasActive)
    ensures m.Once() && readyAttempts > 0 && r.Aborted? && r.rollbackFailed ==> CommitUnsure(m.Now(), m.failed, candidates)
  {
    var phase, changed, ok := InstallAndRestart(m, status, journal, candidates, readyAttempts);
    if !ok {
      r := Rollback(m, true, changed, journal, journal.wasActive, oldVersion, phase, readyAttempts);
      return;
    }
    assert m.alive ==> HasBoth(m.disk.files, candidates);
    ok := m.Attempt(RemoveJournal);
    if !ok {
      return Aborted(HealthCheck, false, true);
    }
    return Applied;
  }

  // ----- apply.go: finishing an operation

  /** This terminal status is durable, and the request it answers is gone. */
  ghost predicate Concluded(w: World, s: Status, state: State, phase: Phase) {
    && w.disk.status == Some(s.(state := state, phase := phase, finished := true, rolledBack := false))
    && (w.disk.request.Some? ==> w.disk.request.value.op != s.op)
  }

  /** finishOperation: the terminal status first, then the request, whatever operation it names by now. */
  method FinishOperation(m: Machine, status: StatusWriter, state: State, phase: Phase) returns (ok: bool)
    requires m.Valid() && !state.Running? && !phase.RolledBack? && !phase.RollbackFailed?
    requires m.alive ==> Serving(m.Now(), Request(status.status.op, status.status.target))
    requires m.alive ==> LegalStatus(m.Now(), status.status.(state := state, phase := phase, finished := true, rolledBack := false))
    modifies m, status
    ensures m.Valid() && m.Aged()
    ensures m.alive ==> m.disk.journal == old(m.disk.journal) && m.disk.files[PORTAL] == old(m.disk.files[PORTAL]) && m.disk.files[UPDATER] == old(m.disk.files[UPDATER])
    ensures m.alive && ok ==> Finished(m.disk, old(status.status.op)) && m.disk.status.value.phase == phase
    ensures m.Smooth() ==> ok && Concluded(m.Now(), old(status.status), state, phase)
    ensures m.alive ==> m.history.touched == old(m.history.touched) && m.history.dirty == old(m.history.dirty)
  {
    ok := status.Finish(m, state, phase, false);
    if !ok {
      return;
    }
    m.Sound();
    ok := ConsumeUpdateRequest(m);
  }

  method FinishRolledBackOperation(m: Machine, status: StatusWriter) returns (ok: bool)
    requires m.Valid()
    requires m.alive ==> Reopened(m.Now())
    requires m.alive ==> m.disk.journal.value.request == Request(status.status.op, status.status.target)
    modifies m, status
    ensures m.Valid() && m.Aged()
    ensures m.alive && ok ==> m.disk.journal.None? && m.history.outcome.Restored? && Settled(m.Now())
    ensures m.alive && ok ==> m.disk.status.Some? && m.disk.status.value.finished && m.disk.status.value.phase.RolledBack?
    ensures m.alive && ok ==> m.disk.status.value.op == old(status.status.op)
    ensures m.alive && ok ==> m.disk.request.Some? ==> m.disk.request.value.op != old(status.status.op)
    ensures m.alive ==> SameBinaries(m.disk.files, old(m.disk.files))
    ensures m.Smooth() ==> ok && m.portal == old(m.portal)
    ensures m.Once() && !ok ==>
              (m.disk.status.Some? && m.disk.status.value.phase.RolledBack? && m.disk.status.value.op == old(status.status.op)) ||
              (m.failed.Some? && m.failed.value.WriteStatus?)
  {
    ok := status.Finish(m, Failed, Phase.RolledBack, true);
    if !ok {
      return;
    }
    ok := ClearRolledBack(m, status.status.op);
  }

  /** The end of a finished rollback: its request goes first, then its journal. */
  method ClearRolledBack(m: Machine, op: OperationId) returns (ok: bool)
    requires m.Valid()
    requires m.alive ==> m.disk.journal.Some? && m.disk.journal.value.request.op == op && Finished(m.disk, op)
    requires m.alive ==> m.disk.status.value.phase.RolledBack?
    modifies m
    ensures m.Valid() && m.Aged()
    ensures m.alive ==> m.disk.status == old(m.disk.status)
    ensures m.alive && ok ==> m.disk.journal.None? && m.history.outcome.Restored? && Settled(m.Now())
    ensures m.alive && ok ==> m.disk.request.Some? ==> m.disk.request.value.op != op
    ensures m.alive ==> SameBinaries(m.disk.files, old(m.disk.files))
    ensures m.Smooth() ==> ok && m.portal == old(m.portal)
  {
    m.Sound();
    ok := ConsumeRequestForOperation(m, op);
    if !ok {
      return;
    }
    ok := m.Attempt(RemoveJournal);
  }

  // ----- apply.go: recovery

  method RestoreInterruptedTransaction(m: Machine, journal: Journal, readyAttempts: nat) returns (ok: bool)
    requires m.Valid() && (journal.phase.BackedUp? ==> |journal.files| == FILE_COUNT && journal.cursor <= FILE_COUNT)
    requires m.alive ==> m.disk.journal == Some(journal) && InTransaction(m.Now())
    modifies m
    ensures m.Valid() && m.Aged()
    ensures m.alive ==> SameOperation(old(m.Now()), m.Now())
    ensures m.alive && ok ==> Reopened(m.Now()) && m.disk.journal.value.request == journal.request
    ensures m.alive ==> m.disk.journal.Some?
    ensures m.Smooth() && readyAttempts > 0 ==> ok
  {
    if journal.phase.BackedUp? {
      var restored := StopAndRestore(m, journal);
      if !restored {
        return false;
      }
    } else if journal.wasActive {
      var stopped, _ := StopPortalService(m);
      if !stopped {
        return false;
      }
    }
    if m.alive && journal.phase.Prepared? {
      PreparedIsUntouched(m);
    }
    ok := Reopen(m, journal.wasActive, journal.oldVersion, journal.phase.BackedUp?, readyAttempts);
  }

  lemma PreparedIsUntouched(m: Machine)
    requires m.Valid() && m.disk.journal.Some? && m.disk.journal.value.phase.Prepared?
    ensures RolledBackFully(m.Now()) && !m.history.dirty
  {
    m.Sound();
  }

  lemma JournalIsValid(m: Machine)
    requires m.Valid() && m.disk.journal.Some?
    ensures ValidJournal(m.disk, m.disk.journal.value)
  {
    m.Sound();
  }

  /** The rollback_failed status is durable beside the journal; or rolled_back is, and what goes with it may not be gone yet; or
      a status could not be written. */
  ghost predicate NotRecovered(w: World, failed: Option<Event>, request: Request) {
    || (w.disk.journal.Some? && w.disk.status == Some(Status(request.op, request.target, State.Failed, RollbackFailed, true, false)))
    || (w.disk.status.Some? && w.disk.status.value.phase.RolledBack? && w.disk.status.value.op == request.op)
    || (failed.Some? && failed.value.WriteStatus?)
  }

  method RecoverInterruptedTransaction(m: Machine, readyAttempts: nat) returns (recovered: bool, ok: bool)
    requires m.Valid()
    modifies m
    ensures m.Valid() && m.Aged()
    ensures if recovered then old(m.disk.journal).Some? else m.Now() == old(m.Now())
    ensures !recovered && ok ==> m.disk.journal.None?
    ensures m.alive && recovered && ok ==> m.disk.journal.None? && m.history.outcome.Restored? && Settled(m.Now())
    ensures m.alive && recovered && ok ==> m.disk.status.Some? && m.disk.status.value.finished && m.disk.status.value.phase.RolledBack?
    ensures m.alive && recovered && ok ==> old(m.disk.journal).Some? && m.disk.status.value.op == old(m.disk.journal).value.request.op
    ensures m.Smooth() && readyAttempts > 0 ==> ok && (recovered <==> old(m.disk.journal).Some?)
    // when one thing goes wrong the operation fails to roll back, with its journal, or only its end is not recorded
    ensures m.Once() && readyAttempts > 0 && recovered && !ok ==>
              NotRecovered(m.Now(), m.failed, old(m.disk.journal).value.request)
  {
    var journal, readable := ReadTransactionJournal(m);
    if !readable || journal.None? {
      return false, readable;
    }
    JournalIsValid(m);
    var j := journal.value;
    var status := new StatusWriter(j.request);
    ok := status.Running(m, Recovering);
    if !ok {
      return true, false;
    }
    ok := RestoreAndRecord(m, status, j, readyAttempts);
    return true, ok;
  }

  /** The restore of an interrupted transaction, and the terminal status its result calls for. */
  method RestoreAndRecord(m: Machine, status: StatusWriter, journal: Journal, readyAttempts: nat) returns (ok: bool)
    requires m.Valid() && (journal.phase.BackedUp? ==> |journal.files| == FILE_COUNT && journal.cursor <= FILE_COUNT)
    requires m.alive ==> m.disk.journal == Some(journal) && InTransaction(m.Now())
    requires status.status.op == journal.request.op && status.status.target == journal.request.target
    modifies m, status
    ensures m.Valid() && m.Aged()
    ensures m.alive && ok ==> m.disk.journal.None? && m.history.outcome.Restored? && Settled(m.Now())
    ensures m.alive && ok ==> m.disk.status.Some? && m.disk.status.value.finished && m.disk.status.value.phase.RolledBack?
    ensures m.alive && ok ==> m.disk.status.value.op == journal.request.op
    ensures m.Smooth() && readyAttempts > 0 ==> ok
    ensures m.Once() && readyAttempts > 0 && !ok ==> NotRecovered(m.Now(), m.failed, journal.request)
  {
    ok := RestoreInterruptedTransaction(m, journal, readyAttempts);
    if !ok {
      var _ := status.Finish(m, Failed, RollbackFailed, false);
      return;
    }
    ok := FinishRolledBackOperation(m, status);
  }

  // ----- release.go and apply.go: one run of the updater

  datatype Preparation = Ready(candidates: (Blob, Blob)) | AlreadyNew | NeedsManual | Broken

  /** What the updater finds on GitHub and on its host. */
  datatype Release = Release(supported: bool, latest: ParsedVersion, manual: bool, portal: Blob, updater: Blob)

  /** One release asset: its download and its check, each with its progress report. */
  method FetchPart(m: Machine, status: StatusWriter, request: Request) returns (ok: bool)
    requires m.Valid() && status.status.op == request.op && status.status.target == request.target
    requires m.alive ==> Serving(m.Now(), request) && m.disk.journal.None? && request.op !in m.history.touched
    modifies m, status
    ensures m.Valid() && m.Aged()
    ensures status.status.op == old(status.status.op) && status.status.target == old(status.status.target)
    ensures m.alive ==> Serving(m.Now(), request) && m.disk.journal.None? && request.op !in m.history.touched
    ensures m.alive ==> SameBinaries(m.disk.files, old(m.disk.files))
    ensures status.status.phase in {Downloading, Verifying}
    ensures m.Smooth() ==> ok
  {
    ok := Progress(m, status, request, Downloading);
    var lost := m.Mishap();
    if !ok || lost {
      return false;
    }
    ok := Progress(m, status, request, Verifying);
    var wrong := m.Mishap();
    ok := ok && !wrong;
  }

  /** prepareUpdate and extractCandidates: progress reports around checks and downloads that may fail. */
  method PrepareUpdate(m: Machine, status: StatusWriter, currentVersion: ParsedVersion, request: Request, release: Release)
    returns (p: Preparation)
    requires m.Valid() && status.status.op == request.op && status.status.target == request.target
    requires m.alive ==> Serving(m.Now(), request) && m.disk.journal.None? && request.op !in m.history.touched
    modifies m, status
    ensures m.Valid() && m.Aged()
    ensures status.status.op == old(status.status.op) && status.status.target == old(status.status.target)
    ensures m.alive ==> Serving(m.Now(), request) && m.disk.journal.None? && request.op !in m.history.touched
    ensures m.alive ==> SameBinaries(m.disk.files, old(m.disk.files))
    ensures status.status.phase in {Checking, Downloading, Verifying} || status.status.phase == old(status.status.phase)
    ensures m.Smooth() && p.Broken? ==> status.status.phase.Checking?
    // only a newer target that is still the latest stable release, for this host and not manual, is ever prepared, and it as published
    ensures p.Ready? ==>
              && Precedes(currentVersion, request.target) && release.latest == request.target && release.supported && !release.manual
              && p.candidates.0 == release.portal && p.candidates.1 == release.updater
    ensures p.AlreadyNew? ==> release.supported && release.latest == request.target && !Precedes(currentVersion, request.target)
    ensures p.NeedsManual? ==> !release.supported || (release.manual && release.latest == request.target && Precedes(currentVersion, request.target))
    // and if nothing goes wrong, exactly then
    ensures m.Smooth() ==> (p.Ready? <==> release.supported && release.latest == request.target && Precedes(currentVersion, request.target) && !release.manual)
    ensures m.Smooth() ==> (p.AlreadyNew? <==> release.supported && release.latest == request.target && !Precedes(currentVersion, request.target))
    ensures m.Smooth() ==> (p.Broken? <==> release.supported && release.latest != request.target)
  {
    if !release.supported {
      return NeedsManual;
    }
    var ok := Progress(m, status, request, Checking);
    var unread := m.Mishap();
    if !ok || unread || release.latest != request.target {
      return Broken;
    }
    var c := UpdaterSemver.CompareSemVersion(release.latest, currentVersion);
    PrecedesIsTotal(release.latest, currentVersion, currentVersion);
    if c <= 0 {
      return AlreadyNew;
    }
    p := FetchRelease(m, status, request, release);
  }

  /** The downloads of prepareUpdate, and the manifest's mode. */
  method FetchRelease(m: Machine, status: StatusWriter, request: Request, release: Release) returns (p: Preparation)
    requires m.Valid() && status.status.op == request.op && status.status.target == request.target
    requires m.alive ==> Serving(m.Now(), request) && m.disk.journal.None? && request.op !in m.history.touched
    modifies m, status
    ensures m.Valid() && m.Aged()
    ensures status.status.op == old(status.status.op) && status.status.target == old(status.status.target)
    ensures m.alive ==> Serving(m.Now(), request) && m.disk.journal.None? && request.op !in m.history.touched
    ensures m.alive ==> SameBinaries(m.disk.files, old(m.disk.files))
    ensures status.status.phase in {Downloading, Verifying}
    ensures p.Broken? || (p.NeedsManual? && release.manual) || (p.Ready? && !release.manual && p.candidates == (release.portal, release.updater))
    ensures m.Smooth() ==> !p.Broken?
  {
    var ok := FetchPart(m, status, request);  // the manifest
    if !ok {
      return Broken;
    }
    if release.manual {
      return NeedsManual;
    }
    ok := FetchPart(m, status, request);  // SHA256SUMS
    if !ok {
      return Broken;
    }
    ok := FetchPart(m, status, request);  // the archive
    if !ok {
      return Broken;
    }
    return Ready((release.portal, release.updater));
  }

  /** A request that already changed files and has no journal left was committed: this updater is its target. */
  lemma TouchedRequestIsInstalled(m: Machine, request: Request)
    requires m.Valid() && m.disk.request == Some(request) && m.disk.journal.None?
    ensures NothingHalfDone(m.Now(), request.op)
    ensures request.op in m.history.touched ==> Reports(m.disk.files[UPDATER], request.target)
  {
    m.Sound();
  }

  /** installedPortalMatchesRequest */
  method InstalledPortalMatchesRequest(m: Machine, request: Request, currentVersion: Option<ParsedVersion>) returns (matches: bool, ok: bool)
    modifies m`mishaps, m`failed
    ensures m.Aged()
    ensures matches ==> ok && Reports(m.disk.files[PORTAL], request.target) && currentVersion == Some(request.target)
    ensures !matches && ok ==> currentVersion != Some(request.target)
    ensures !ok ==> currentVersion == Some(request.target)
    ensures m.Smooth() && !ok ==> !Reports(m.disk.files[PORTAL], request.target)
    ensures currentVersion == Some(request.target) ==> matches == ok
  {
    if currentVersion.None? {
      return false, true;
    }
    var c := UpdaterSemver.CompareSemVersion(currentVersion.value, request.target);
    if c != 0 {
      return false, true;
    }
    matches := BinaryVersion(m, PORTAL, request.target);
    ok := matches;
  }

  /** The state and phase a request ends with when nothing goes wrong. */
  ghost function Verdict(installed: Option<Blob>, request: Request, current: Option<ParsedVersion>, release: Release): (State, Phase) {
    if current == Some(request.target) then
      if Reports(installed, request.target) then (Succeeded, Completed) else (Failed, Verifying)
    else if current.None? || !release.supported then (Failed, ManualRequired)
    else if release.latest != request.target then (Failed, Checking)
    else if !Precedes(current.value, request.target) then (Succeeded, UpToDate)
    else if release.manual then (Failed, ManualRequired)
    else if release.portal.version != Some(request.target) || release.updater.version != Some(request.target) || !Reports(installed, current.value)
    then (Failed, Verifying)
    else if !current.value.Stable() then (Failed, BackingUp)
    else (Succeeded, Completed)
  }

  /** Exactly when each answer is given. */
  lemma VerdictExactlyWhen(installed: Option<Blob>, request: Request, current: Option<ParsedVersion>, release: Release)
    ensures var (state, phase) := Verdict(installed, request, current, release);
            var target := request.target;
            var offered := release.supported && release.latest == target;
            // up to date: the installed version, which is not the target, does not precede it either
            && (phase.UpToDate? <==> current.Some? && current.value != target && offered && !Precedes(current.value, target))
            // completed: the target is installed already, or an older stable portal is replaced by two binaries that report it
            && (phase.Completed? <==>
                  if current == Some(target) then Reports(installed, target)
                  else && current.Some? && offered && !release.manual && Precedes(current.value, target) && current.value.Stable()
                       && release.portal.version == Some(target) && release.updater.version == Some(target) && Reports(installed, current.value))
            // for the installer: no usable version of its own, another host, or a newer release that says so
            && (phase.ManualRequired? <==>
                  current != Some(target) && (current.None? || !release.supported || (offered && release.manual && Precedes(current.value, target))))
            // not the latest release any more
            && (phase.Checking? <==> current.Some? && current.value != target && release.supported && release.latest != target)
            && (state.Succeeded? <==> phase.Completed? || phase.UpToDate?)
            && (state.Failed? <==> phase.ManualRequired? || phase.Checking? || phase.Verifying? || phase.BackingUp?)
  {
    if current.Some? {
      PrecedesIsTotal(current.value, request.target, request.target);
    }
  }

  /** Success means up to date only for a version that is not older, and for an older one that the release is in place. */
  ghost predicate AnsweredFor(w: World, target: ParsedVersion, current: ParsedVersion, release: Release) {
    && w.disk.status.Some?
    && if current == target then w.disk.status.value.phase.Completed? && Reports(w.disk.files[PORTAL], target)
       else if Precedes(current, target) then w.disk.status.value.phase.Completed? && HasBoth(w.disk.files, (release.portal, release.updater))
       else w.disk.status.value.phase.UpToDate?
  }

  /** What runApply does with its request once the operation has begun. */
  method ServeRequest(m: Machine, status: StatusWriter, request: Request, currentVersion: Option<ParsedVersion>, release: Release,
                      readyAttempts: nat)
    returns (ok: bool)
    requires m.Valid() && status.status.op == request.op && status.status.target == request.target && status.status.phase.Checking?
    requires m.alive ==> Serving(m.Now(), request) && m.disk.journal.None?
    requires m.alive && request.op in m.history.touched ==> currentVersion == Some(request.target)
    modifies m, status
    ensures m.Valid() && m.Aged()
    ensures m.alive && ok ==> m.disk.journal.None? && Finished(m.disk, request.op) && m.disk.status.value.phase in {Completed, UpToDate}
    ensures m.alive && ok ==> currentVersion.Some? && AnsweredFor(m.Now(), request.target, currentVersion.value, release)
    ensures m.alive && !SameBinaries(m.disk.files, old(m.disk.files)) ==>
              && currentVersion.Some? && Precedes(currentVersion.value, request.target)
              && release.latest == request.target && release.supported && !release.manual
    ensures m.Smooth() && readyAttempts > 0 ==>
              var (state, phase) := Verdict(old(m.disk.files[PORTAL]), request, currentVersion, release);
              Ended(m.Now(), request, state, phase) && (ok <==> state.Succeeded?)
  {
    if m.alive {
      TouchedRequestIsInstalled(m, request);
    }
    var installed, checked := InstalledPortalMatchesRequest(m, request, currentVersion);
    if !checked {
      var _ := FinishOperation(m, status, Failed, Verifying);
      return false;
    }
    if installed {
      ok := FinishOperation(m, status, Succeeded, Completed);
      return;
    }
    if currentVersion.None? {
      var _ := FinishOperation(m, status, Failed, ManualRequired);
      return false;
    }
    ok := PrepareAndInstall(m, status, request, currentVersion.value, release, readyAttempts);
  }

  /** From prepareUpdate on. */
  method PrepareAndInstall(m: Machine, status: StatusWriter, request: Request, currentVersion: ParsedVersion, release: Release,
                           readyAttempts: nat) returns (ok: bool)
    requires m.Valid() && status.status.op == request.op && status.status.target == request.target && status.status.phase.Checking?
    requires m.alive ==> Serving(m.Now(), request) && m.disk.journal.None? && request.op !in m.history.touched
    requires currentVersion != request.target
    modifies m, status
    ensures m.Valid() && m.Aged()
    ensures m.alive && ok ==> m.disk.journal.None? && Finished(m.disk, request.op) && m.disk.status.value.phase in {Completed, UpToDate}
    // the binaries only ever change for a newer target that is the latest release, for this host and not manual
    ensures m.alive && !SameBinaries(m.disk.files, old(m.disk.files)) ==>
              Precedes(currentVersion, request.target) && release.latest == request.target && release.supported && !release.manual
    ensures m.alive && ok ==> if Precedes(currentVersion, request.target)
                              then m.disk.status.value.phase.Completed? && HasBoth(m.disk.files, (release.portal, release.updater))
                              else m.disk.status.value.phase.UpToDate?
    ensures m.Smooth() && readyAttempts > 0 ==>
              var (state, phase) := Verdict(old(m.disk.files[PORTAL]), request, Some(currentVersion), release);
              Ended(m.Now(), request, state, phase) && (ok <==> state.Succeeded?)
  {
    var prepared := PrepareUpdate(m, status, currentVersion, request, release);
    match prepared {
      case AlreadyNew =>
        ok := FinishOperation(m, status, Succeeded, UpToDate);
        return;
      case NeedsManual =>
        var _ := FinishOperation(m, status, Failed, ManualRequired);
        return false;
      case Broken =>
        var _ := FinishOperation(m, status, Failed, status.status.phase);
        return false;
      case Ready(candidates) =>
        ok := CheckAndInstall(m, status, request, candidates, currentVersion, readyAttempts);
    }
  }

  /** extractCandidates and the version checks, then the transaction. */
  method CheckAndInstall(m: Machine, status: StatusWriter, request: Request, candidates: (Blob, Blob), currentVersion: ParsedVersion,
                         readyAttempts: nat) returns (ok: bool)
    requires m.Valid() && status.status.op == request.op && status.status.target == request.target
    requires m.alive ==> Serving(m.Now(), request) && m.disk.journal.None? && request.op !in m.history.touched
    requires Precedes(currentVersion, request.target)
    modifies m, status
    ensures m.Valid() && m.Aged()
    ensures m.alive && ok ==> m.disk.journal.None? && Finished(m.disk, request.op) && m.disk.status.value.phase.Completed?
    ensures m.alive && ok ==> HasBoth(m.disk.files, candidates)
    ensures m.Smooth() && readyAttempts > 0 ==>
              if candidates.0.version != Some(request.target) || candidates.1.version != Some(request.target) ||
                 !Reports(old(m.disk.files[PORTAL]), currentVersion)
              then !ok && Ended(m.Now(), request, Failed, Verifying)
              else if !currentVersion.Stable() then !ok && Ended(m.Now(), request, Failed, BackingUp)
              else ok && Ended(m.Now(), request, Succeeded, Completed)
  {
    var portalOk := ReportsVersion(candidates.0, request.target);
    var updaterOk := ReportsVersion(candidates.1, request.target);
    var damaged := m.Mishap();
    var oldOk := BinaryVersion(m, PORTAL, currentVersion);
    if damaged || !portalOk || !updaterOk || !oldOk {
      var _ := FinishOperation(m, status, Failed, Verifying);
      return false;
    }
    ok := InstallUpdate(m, status, request, candidates, currentVersion, readyAttempts);
  }

  /** A terminal status with this state and phase is durable, and the request is gone. */
  ghost predicate Ended(w: World, request: Request, state: State, phase: Phase) {
    && w.disk.journal.None? && Finished(w.disk, request.op) && w.disk.status.value.target == request.target
    && w.disk.status.value.state == state && w.disk.status.value.phase == phase
    && (w.disk.request.Some? ==> w.disk.request.value.op != request.op)
  }

  /** The rolled_back status is durable, everything has been put back, and neither request nor journal is left. */
  ghost predicate RolledBackDurably(w: World, request: Request) {
    && w.disk.journal.None? && Finished(w.disk, request.op) && w.disk.status.value.phase.RolledBack? && Settled(w)
    && (w.disk.request.Some? ==> w.disk.request.value.op != request.op)
  }

  /** The failure is durable, nothing has been written, and there is no journal unless its writing has failed. */
  ghost predicate RefusedDurably(w: World, failed: Option<Event>, request: Request) {
    && Finished(w.disk, request.op) && w.disk.status.value.state.Failed? && w.disk.status.value.phase.BackingUp?
    && request.op !in w.history.touched && (w.disk.journal.None? || JournalUnsure(failed))
    && (w.disk.request.Some? ==> w.disk.request.value.op != request.op)
  }

  /** The end of runApply: the transaction, and the terminal status its result calls for. */
  method InstallUpdate(m: Machine, status: StatusWriter, request: Request, candidates: (Blob, Blob),
                       oldVersion: ParsedVersion, readyAttempts: nat) returns (ok: bool)
    requires m.Valid()
    requires status.status.op == request.op && status.status.target == request.target
    requires candidates.0.version == Some(request.target) && candidates.1.version == Some(request.target)
    requires m.alive ==> Serving(m.Now(), request) && m.disk.journal.None? && request.op !in m.history.touched
    requires m.alive ==> Reports(m.disk.files[PORTAL], oldVersion)
    requires Precedes(oldVersion, request.target)
    modifies m, status
    ensures m.Valid() && m.Aged()
    ensures m.alive && ok ==> m.disk.journal.None? && Finished(m.disk, request.op) && m.disk.status.value.phase.Completed?
    ensures m.alive && ok ==> m.disk.files[PORTAL] == Some(candidates.0) && m.disk.files[UPDATER] == Some(candidates.1)
    ensures m.Smooth() && readyAttempts > 0 && oldVersion.Stable() ==> ok && Ended(m.Now(), request, Succeeded, Completed)
    ensures m.Smooth() && readyAttempts > 0 && !oldVersion.Stable() ==> !ok && Ended(m.Now(), request, Failed, BackingUp)
    // after one mishap the new version is in place, or the old one is back and that is durable
    ensures m.Once() && readyAttempts > 0 && old(m.Well()) && oldVersion.Stable() ==>
              || HasBoth(m.disk.files, candidates)
              || (SameBinaries(m.disk.files, old(m.disk.files)) && RolledBackDurably(m.Now(), request) && (m.portal.Active? <==> old(m.portal).Active?))
              || (SameBinaries(m.disk.files, old(m.disk.files)) && RefusedDurably(m.Now(), m.failed, request))
              || (StillRunning(m.Now(), m.failed) && SameBinaries(m.disk.files, old(m.disk.files)) &&
                  m.disk.status.Some? && m.disk.status.value.op == request.op && m.disk.status.value.phase.RollbackFailed?)
  {
    TargetIsStable(m, request);
    var result := ApplyTransaction(m, status, request, candidates, oldVersion, readyAttempts);
    if result.Applied? {
      m.Sound();
      ok := FinishOperation(m, status, Succeeded, Completed);
    } else {
      RecordFailure(m, status, request, result);
      ok := false;
    }
  }

  /** The terminal status of a transaction that was not committed. */
  method RecordFailure(m: Machine, status: StatusWriter, request: Request, r: TransactionResult)
    requires m.Valid() && r.Aborted? && !(r.rolledBack && r.rollbackFailed) && r.phase in {BackingUp, Installing, Restarting, HealthCheck}
    requires status.status.op == request.op && status.status.target == request.target
    requires m.alive ==> Serving(m.Now(), request)
    requires m.alive && r.rolledBack ==> Reopened(m.Now()) && m.disk.journal.value.request == request
    requires m.alive && !r.rolledBack && !r.rollbackFailed ==> request.op !in m.history.touched
    modifies m, status
    ensures m.Valid() && m.Aged()
    ensures m.alive ==> SameBinaries(m.disk.files, old(m.disk.files))
    ensures m.alive && !r.rolledBack ==>
              m.disk.journal == old(m.disk.journal) && m.history.dirty == old(m.history.dirty) && m.history.touched == old(m.history.touched)
    ensures m.Smooth() && r.rolledBack ==> RolledBackDurably(m.Now(), request) && m.portal == old(m.portal)
    ensures m.Smooth() && r.rollbackFailed ==>
              m.portal == old(m.portal) && m.disk.status == Some(Status(request.op, request.target, Failed, RollbackFailed, true, false))
    ensures m.Smooth() && !r.rolledBack && !r.rollbackFailed ==>
              && m.disk.status == Some(Status(request.op, request.target, Failed, r.phase, true, false))
              && (m.disk.request.Some? ==> m.disk.request.value.op != request.op)
  {
    if r.rollbackFailed {
      var _ := status.Finish(m, Failed, RollbackFailed, false);
    } else if r.rolledBack {
      var _ := FinishRolledBackOperation(m, status);
    } else {
      m.Sound();
      var _ := FinishOperation(m, status, Failed, r.phase);
    }
  }

  lemma TargetIsStable(m: Machine, request: Request)
    requires m.Valid() && (m.alive ==> m.disk.request == Some(request))
    ensures m.alive ==> request.target.Stable()
  {
    m.Sound();
  }

  /** runApply, with the version compiled into the updater binary that was started. */
  method RunApply(m: Machine, currentVersion: Option<ParsedVersion>, release: Release, readyAttempts: nat) returns (ok: bool)
    requires m.Valid() && m.alive
    requires m.disk.files[UPDATER].Some? && m.disk.files[UPDATER].value.version == currentVersion
    modifies m
    ensures m.Valid() && m.Aged()
    // a nil error means that no transaction is open and a terminal status is durable
    ensures m.alive && ok ==> m.disk.journal.None? && m.disk.status.Some? && m.disk.status.value.finished
    // when nothing goes wrong: an open transaction is rolled back, an answered request deleted, any other one answered
    ensures m.Smooth() && readyAttempts > 0 && old(m.disk.journal).Some? ==>
              ok && m.disk.status.value.phase.RolledBack? && m.disk.status.value.op == old(m.disk.journal).value.request.op
    // a request is answered for what it asks: with no transaction open, the binaries only change for a newer, installable target
    ensures m.alive && old(m.disk.journal).None? && !SameBinaries(m.disk.files, old(m.disk.files)) ==>
              && old(m.disk.request).Some? && currentVersion.Some? && Precedes(currentVersion.value, old(m.disk.request).value.target)
              && release.latest == old(m.disk.request).value.target && release.supported && !release.manual
    // and an undisturbed request for one ends with it installed, never as up to date
    ensures m.Smooth() && readyAttempts > 0 && old(m.disk.journal).None? && old(m.disk.request).Some? && !AlreadyFinished(old(m.disk)) && ok ==>
              currentVersion.Some? && AnsweredFor(m.Now(), old(m.disk.request).value.target, currentVersion.value, release)
    ensures m.Smooth() && readyAttempts > 0 && old(m.disk.journal).None? && AlreadyFinished(old(m.disk)) ==>
              ok && (m.disk.request.Some? ==> m.disk.request != old(m.disk.request))
    ensures m.Smooth() && readyAttempts > 0 && old(m.disk.journal).None? && old(m.disk.request).Some? && !AlreadyFinished(old(m.disk)) ==>
              var target := old(m.disk.request).value.target;
              currentVersion.Some? && Precedes(currentVersion.value, target) && currentVersion.value.Stable() &&
              Reports(old(m.disk.files[PORTAL]), currentVersion.value) && release.latest == target && release.supported && !release.manual &&
              release.portal.version == Some(target) && release.updater.version == Some(target) ==>
                ok && HasBoth(m.disk.files, (release.portal, release.updater)) && Ended(m.Now(), old(m.disk.request).value, Succeeded, Completed)
    ensures m.Smooth() && readyAttempts > 0 && old(m.disk.journal).None? && old(m.disk.request).Some? && !AlreadyFinished(old(m.disk)) ==>
              var (state, phase) := Verdict(old(m.disk.files[PORTAL]), old(m.disk.request).value, currentVersion, release);
              Ended(m.Now(), old(m.disk.request).value, state, phase) && (ok <==> state.Succeeded?)
  {
    // root, the managed paths and the process lock
    var refused := m.Mishap();
    if refused {
      return false;
    }
    var recovered: bool;
    recovered, ok := RecoverInterruptedTransaction(m, readyAttempts);
    if recovered || !ok {
      return;
    }
    ok := ServePending(m, currentVersion, release, readyAttempts);
  }

  /** What runApply does once no transaction is open: an answered request is deleted, any other one answered. */
  method ServePending(m: Machine, currentVersion: Option<ParsedVersion>, release: Release, readyAttempts: nat) returns (ok: bool)
    requires m.Valid() && m.disk.journal.None?
    requires m.disk.files[UPDATER].Some? && m.disk.files[UPDATER].value.version == currentVersion
    modifies m
    ensures m.Valid() && m.Aged()
    ensures m.alive && ok ==> m.disk.journal.None? && m.disk.status.Some? && m.disk.status.value.finished
    ensures m.alive && !SameBinaries(m.disk.files, old(m.disk.files)) ==>
              && old(m.disk.request).Some? && currentVersion.Some? && Precedes(currentVersion.value, old(m.disk.request).value.target)
              && release.latest == old(m.disk.request).value.target && release.supported && !release.manual
    ensures m.Smooth() && readyAttempts > 0 && AlreadyFinished(old(m.disk)) ==> ok && (m.disk.request.Some? ==> m.disk.request != old(m.disk.request))
    ensures m.Smooth() && readyAttempts > 0 && old(m.disk.request).Some? && !AlreadyFinished(old(m.disk)) ==>
              var (state, phase) := Verdict(old(m.disk.files[PORTAL]), old(m.disk.request).value, currentVersion, release);
              && Ended(m.Now(), old(m.disk.request).value, state, phase) && (ok <==> state.Succeeded?)
              && (ok ==> currentVersion.Some? && AnsweredFor(m.Now(), old(m.disk.request).value.target, currentVersion.value, release))
  {
    var reconciled: bool;
    reconciled, ok := ConsumeFinishedRequest(m);
    if reconciled || !ok {
      return;
    }
    var request, _ := ReadUpdateRequest(m);
    if request.None? {
      return false;
    }
    ok := BeginAndServe(m, request.value, currentVersion, release, readyAttempts);
  }

  /** beginUpdateOperation and the rest of runApply. */
  method BeginAndServe(m: Machine, request: Request, currentVersion: Option<ParsedVersion>, release: Release, readyAttempts: nat)
    returns (ok: bool)
    requires m.Valid()
    requires m.alive ==> m.disk.request == Some(request) && m.disk.journal.None?
    requires m.alive ==> m.disk.files[UPDATER].Some? && m.disk.files[UPDATER].value.version == currentVersion
    modifies m
    ensures m.Valid() && m.Aged()
    ensures m.alive && ok ==> m.disk.journal.None? && Finished(m.disk, request.op) && m.disk.status.value.phase in {Completed, UpToDate}
    ensures m.alive && ok ==> currentVersion.Some? && AnsweredFor(m.Now(), request.target, currentVersion.value, release)
    ensures m.alive && !SameBinaries(m.disk.files, old(m.disk.files)) ==>
              && currentVersion.Some? && Precedes(currentVersion.value, request.target)
              && release.latest == request.target && release.supported && !release.manual
    ensures m.Smooth() && readyAttempts > 0 ==>
              var (state, phase) := Verdict(old(m.disk.files[PORTAL]), request, currentVersion, release);
              Ended(m.Now(), request, state, phase) && (ok <==> state.Succeeded?)
  {
    if m.alive {
      TouchedRequestIsInstalled(m, request);
    }
    var status := new StatusWriter(request);
    ok := status.Running(m, Checking);
    if !ok {
      return;
    }
    ok := ServeRequest(m, status, request, currentVersion, release, readyAttempts);
  }

  /** Any number of updater processes, each started on what the last one left and killed at any point.  At every
      moment of it the transaction is all or nothing, the journal describes the disk, the status tells the truth,
      files move only in maintenance, and requests are deleted only once they are answered. */
  method Operate(m: Machine, processes: nat, readyAttempts: nat)
    requires m.Valid()
    modifies m
    ensures m.Valid() && Safe(m.run)
  {
    for process := 0 to processes
      invariant m.Valid()
    {
      m.Launch();
      m.Sound();
      var release: Release := *;
      var _ := RunApply(m, m.disk.files[UPDATER].value.version, release, readyAttempts);
    }
    LegalRunsAreSafe(m.run);
  }
}
