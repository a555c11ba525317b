/**
 The durable state the updater and the portal share, the steps that change it, and the
 discipline those steps follow.  `Legal` is the discipline: it says when a disk write or a
 systemctl effect is allowed.  `Inv` is what every legal run keeps.  The updater's code
 (module Updater) is proved to take legal steps only, whatever fails and wherever it is killed.
 */
module UpdateProtocol {
  import opened Options
  import opened SemverOrder

  /** A version parseSemVersion can return. */
  type ParsedVersion = v: SemVersion | WellFormed(v) witness SemVersion(0, 0, 0, [])

  type OperationId = nat
  type BackupDir = nat

  /** A file's content.  `version` is what running it with the argument `version` reports. */
  datatype Blob = Blob(payload: nat, version: Option<ParsedVersion>)

  // The five managed files, in the order they are backed up.
  const PORTAL: nat := 0
  const UPDATER: nat := 1
  const DATABASE: nat := 2
  const WAL: nat := 3
  const SHM: nat := 4
  const FILE_COUNT: nat := 5

  /** The managed files; None is an absent file. */
  type FileMap = f: seq<Option<Blob>> | |f| == FILE_COUNT witness [None, None, None, None, None]

  datatype Request = Request(op: OperationId, target: ParsedVersion)

  datatype JournalPhase = Prepared | BackedUp
  datatype SavedFile = SavedFile(original: nat, existed: bool)
  datatype Journal = Journal(
    request: Request, phase: JournalPhase, oldVersion: ParsedVersion, wasActive: bool,
    backupDir: BackupDir, files: seq<SavedFile>, cursor: nat)

  datatype State = Running | Succeeded | Failed
  datatype Phase =
    | Checking | Downloading | Verifying | BackingUp | Installing | Restarting | HealthCheck
    | Recovering | Completed | UpToDate | ManualRequired | RolledBack | RollbackFailed
  datatype Status = Status(op: OperationId, target: ParsedVersion, state: State, phase: Phase, finished: bool, rolledBack: bool)

  datatype Disk = Disk(
    files: FileMap,
    backups: map<BackupDir, map<nat, Blob>>,
    journal: Option<Journal>,
    status: Option<Status>,
    request: Option<Request>)

  datatype Service = Active | Inactive

  /** How the last transaction whose journal was removed ended. */
  datatype Outcome = Untouched | Committed(request: Request, portal: Blob, updater: Blob) | Restored

  /**
   What the proofs remember about the past.
     reference   the files when the portal stopped for the transaction (or, before that, when its journal appeared)
     base        the files the portal first started from since the updater last wrote one of them (None: not started since)
     dirty       the updater has written a managed file in the open transaction
     verified    the updater has checked the portal since it last stopped, started or wrote it
     candidates  the new portal and updater binaries of the open transaction
     touched     operations in which a managed file was written
     issued      operation identifiers handed out so far
   */
  datatype History = History(
    reference: FileMap, base: Option<FileMap>, dirty: bool, verified: bool, candidates: (Blob, Blob),
    outcome: Outcome, touched: set<OperationId>, issued: set<OperationId>)

  datatype World = World(disk: Disk, portal: Service, history: History)

  datatype Event =
    // the running portal, and what may happen to it
    | PortalWrites(db: Option<Blob>, wal: Option<Blob>, shm: Option<Blob>)
    | PortalExits
    | PortalStarts    // at boot, by systemd or by hand, while no transaction is open
    | PortalPublishes(request: Request)
    // the updater
    | StopPortal
    | StartPortal
    | PortalVerified  // a passed health check, or a passed version check when the portal was not running
    | MakeBackupDir(dir: BackupDir)
    | BackUp(dir: BackupDir, index: nat, copy: Blob)
    | DiscardBackup(dir: BackupDir, index: nat)
    | WriteOriginal(index: nat, content: Option<Blob>)
    | WriteJournal(journal: Journal, candidates: (Blob, Blob))
    | RemoveJournal
    | WriteStatus(status: Status)
    | RemoveRequest

  // ----- what the portal reads

  /** OperationStatus.active, on a status the updater wrote. */
  predicate ActiveStatus(s: Status) { s.phase.RollbackFailed? || s.state.Running? }

  /** MaintenancePending of the view readOperationStatus builds from a request and a status it read. */
  predicate PendingView(request: Option<Request>, status: Option<Status>) {
    if request.Some? && !(status.Some? && status.value.op == request.value.op && status.value.target == request.value.target)
    then true
    else status.Some? && ActiveStatus(status.value)
  }

  predicate MaintenancePending(d: Disk) { PendingView(d.request, d.status) }

  // ----- the journal check

  /** validateTransactionJournal: what writeTransactionJournal and readTransactionJournal insist on. */
  predicate ValidJournal(d: Disk, j: Journal) {
    && j.request.target.Stable() && j.oldVersion.Stable()
    && j.backupDir in d.backups
    && match j.phase
       case Prepared => j.files == [] && j.cursor == 0
       case BackedUp =>
         && |j.files| == FILE_COUNT && j.cursor <= FILE_COUNT
         && forall i :: 0 <= i < FILE_COUNT ==>
              j.files[i].original == i && (j.files[i].existed ==> i in d.backups[j.backupDir])
  }

  /** What restoreFile makes of a file: the content of its backup or, if it did not exist, nothing. */
  function Saved(d: Disk, dir: BackupDir, entry: SavedFile): Option<Blob> {
    if entry.existed && dir in d.backups && entry.original in d.backups[dir]
    then Some(d.backups[dir][entry.original]) else None
  }

  // ----- steps

  function StepDisk(d: Disk, e: Event): Disk
  {
    match e
    case PortalWrites(db, wal, shm) => d.(files := d.files[DATABASE := db][WAL := wal][SHM := shm])
    case PortalPublishes(r) => d.(request := Some(r))
    case MakeBackupDir(dir) => d.(backups := d.backups[dir := map[]])
    case BackUp(dir, i, b) =>
      var saved: map<nat, Blob> := if dir in d.backups then d.backups[dir] else map[];
      d.(backups := d.backups[dir := saved[i := b]])
    case DiscardBackup(dir, i) =>
      var saved: map<nat, Blob> := if dir in d.backups then d.backups[dir] else map[];
      d.(backups := d.backups[dir := saved - {i}])
    case WriteOriginal(i, c) => d.(files := if i < FILE_COUNT then d.files[i := c] else d.files)
    case WriteJournal(j, _) => d.(journal := Some(j))
    case RemoveJournal => d.(journal := None)
    case WriteStatus(s) => d.(status := Some(s))
    case RemoveRequest => d.(request := None)
    case _ => d
  }

  function StepPortal(p: Service, e: Event): Service
  {
    match e
    case PortalExits => Inactive
    case PortalStarts => Active
    case StopPortal => Inactive
    case StartPortal => Active
    case _ => p
  }

  /** The updater has finished installing both new binaries. */
  ghost predicate Installed(w: World) {
    && w.disk.files[PORTAL] == Some(w.history.candidates.0)
    && w.disk.files[UPDATER] == Some(w.history.candidates.1)
  }

  predicate IsPrepared(d: Disk) { d.journal.Some? && d.journal.value.phase.Prepared? }

  ghost function StepHistory(w: World, e: Event): History
  {
    var h := w.history;
    match e
    case PortalPublishes(r) => h.(issued := h.issued + {r.op})
    case PortalStarts => h.(base := if h.base.None? then Some(w.disk.files) else h.base)
    case StopPortal =>
      h.(reference := if IsPrepared(w.disk) then w.disk.files else h.reference, base := if IsPrepared(w.disk) then None else h.base, verified := false)
    case StartPortal => h.(base := if h.base.None? then Some(w.disk.files) else h.base, verified := false)
    case PortalVerified => h.(verified := true)
    case WriteOriginal(_, _) =>
      h.(base := None, dirty := true, verified := false,
         touched := if w.disk.journal.Some? then h.touched + {w.disk.journal.value.request.op} else h.touched)
    case WriteJournal(j, c) =>
      var opens := j.phase.Prepared?;
      h.(reference := if opens then w.disk.files else h.reference,
         base := if !opens then h.base else if w.portal.Active? then Some(w.disk.files) else None,
         dirty := h.dirty && !opens, verified := h.verified && !opens, candidates := if opens then c else h.candidates)
    case RemoveJournal =>
      h.(dirty := false,
         outcome := if w.disk.journal.Some? && Commits(w)
                    then Committed(w.disk.journal.value.request, h.candidates.0, h.candidates.1) else Restored)
    case _ => h
  }

  ghost function Step(w: World, e: Event): World {
    World(StepDisk(w.disk, e), StepPortal(w.portal, e), StepHistory(w, e))
  }

  // ----- the discipline

  /** The binaries are the reference binaries, and the portal's last fresh start (or, if it has not
      started since the last write, the disk as it stands) was from exactly the reference. */
  ghost predicate Settled(w: World) {
    && w.disk.files[PORTAL] == w.history.reference[PORTAL]
    && w.disk.files[UPDATER] == w.history.reference[UPDATER]
    && if w.history.base.Some? then w.history.base == Some(w.history.reference)
       else w.portal.Inactive? && w.disk.files == w.history.reference
  }

  /** The status on disk is this operation's, and running. */
  ghost predicate RunningAs(d: Disk, op: OperationId) {
    d.status.Some? && d.status.value.op == op && d.status.value.state.Running?
  }

  ghost predicate InTransaction(w: World) {
    w.disk.journal.Some? && RunningAs(w.disk, w.disk.journal.value.request.op)
  }

  ghost predicate Commits(w: World) {
    && InTransaction(w) && w.disk.journal.value.phase.BackedUp? && w.disk.journal.value.cursor == 0
    && w.history.dirty && Installed(w)
  }

  /** Nothing was written, or every file has been restored and checkpointed. */
  ghost predicate RolledBackFully(w: World) {
    w.history.dirty ==> w.disk.journal.Some? && w.disk.journal.value.cursor == FILE_COUNT
  }

  /** The previous portal runs again, or was not running, and a changed or restarted one has been checked. */
  ghost predicate Reopened(w: World) {
    && InTransaction(w) && RolledBackFully(w)
    && (w.disk.journal.value.wasActive ==> w.history.base.Some?)
    && (w.disk.journal.value.wasActive || w.history.dirty ==> w.history.verified)
  }

  /** The rolled_back status of the journal's operation is durable, and its request is gone. */
  ghost predicate RollsBack(w: World) {
    && w.disk.journal.Some?
    && w.disk.status.Some? && w.disk.status.value.op == w.disk.journal.value.request.op
    && w.disk.status.value.phase.RolledBack?
    && (w.disk.request.Some? ==> w.disk.request.value.op != w.disk.journal.value.request.op)
  }

  /** A file's backup is the reference content, or records that the file was absent. */
  ghost predicate BackedUpAs(d: Disk, dir: BackupDir, saved: SavedFile, i: nat, reference: Option<Blob>) {
    && saved.original == i && (saved.existed <==> reference.Some?)
    && (saved.existed ==> dir in d.backups && i in d.backups[dir] && d.backups[dir][i] == reference.value)
  }

  ghost predicate BackupsMatch(w: World, j: Journal) {
    && |j.files| == FILE_COUNT
    && forall i :: 0 <= i < FILE_COUNT ==> BackedUpAs(w.disk, j.backupDir, j.files[i], i, w.history.reference[i])
  }

  /** The failing operation changed no managed file, or an earlier process of the same operation committed. */
  ghost predicate NothingHalfDone(w: World, op: OperationId) {
    op in w.history.touched ==> w.disk.journal.None? && w.history.outcome.Committed? && w.history.outcome.request.op == op
  }

  ghost predicate Finished(d: Disk, op: OperationId) {
    d.status.Some? && d.status.value.op == op && d.status.value.finished
  }

  /** This operation is the one the journal belongs to or, with no journal, the one requested. */
  ghost predicate MayRun(w: World, r: Request) {
    if w.disk.journal.Some? then w.disk.journal.value.request == r else w.disk.request == Some(r)
  }

  ghost predicate LegalStatus(w: World, s: Status) {
    && (s.finished <==> !s.state.Running?)
    && (s.phase.RolledBack? || s.phase.RollbackFailed? ==> s.state.Failed?)
    && (s.phase.Completed? ==> s.state.Succeeded?)
    && (s.state.Succeeded? ==> w.disk.journal.None?)
    && if s.state.Running? then
         MayRun(w, Request(s.op, s.target))
       else
         && RunningAs(w.disk, s.op)
         && (s.phase.Completed? ==> Reports(w.disk.files[PORTAL], s.target))
         && (s.phase.RolledBack? ==> Reopened(w))
         && (s.state.Failed? && !s.phase.RolledBack? && !s.phase.RollbackFailed? ==>
               w.disk.request.Some? && w.disk.request.value.op == s.op && (w.disk.journal.Some? ==> !w.history.dirty))
  }

  /** binaryVersion's verdict on a file. */
  predicate Reports(file: Option<Blob>, expected: ParsedVersion) {
    file.Some? && file.value.version == Some(expected)
  }

  ghost predicate LegalJournal(w: World, j: Journal, candidates: (Blob, Blob)) {
    && ValidJournal(w.disk, j) && RunningAs(w.disk, j.request.op)
    && if j.phase.Prepared? then
         && w.disk.journal.None? && w.disk.request == Some(j.request) && j.request.op !in w.history.touched
         && w.disk.backups[j.backupDir] == map[]
         && (!j.wasActive ==> w.portal.Inactive?)
         && candidates.0.version == Some(j.request.target) && candidates.1.version == Some(j.request.target)
         && Reports(w.disk.files[PORTAL], j.oldVersion) && Precedes(j.oldVersion, j.request.target)
       else
         && w.portal.Inactive? && w.history.base.None?
         && if j.cursor == 0 then
              && w.disk.journal == Some(j.(phase := Prepared, files := []))
              && forall i :: 0 <= i < FILE_COUNT ==> BackedUpAs(w.disk, j.backupDir, j.files[i], i, w.disk.files[i])
            else
              && w.disk.journal == Some(j.(cursor := j.cursor - 1)) && w.history.dirty
              && w.disk.files[FILE_COUNT - j.cursor] == Saved(w.disk, j.backupDir, j.files[FILE_COUNT - j.cursor])
  }

  ghost predicate Legal(w: World, e: Event)
  {
    match e
    case PortalWrites(_, _, _) => w.portal.Active?
    case PortalExits => w.portal.Active?
    case PortalStarts => w.portal.Inactive? && w.disk.journal.None?
    case PortalPublishes(r) => w.portal.Active? && w.disk.request.None? && r.op !in w.history.issued && r.target.Stable()
    case StopPortal => InTransaction(w)
    case StartPortal =>
      // never on half-installed or half-restored files
      InTransaction(w) && w.disk.journal.value.wasActive && (RolledBackFully(w) || Commits(w))
    case MakeBackupDir(dir) => dir !in w.disk.backups
    case BackUp(dir, _, _) => w.portal.Inactive? && w.history.base.None? && BackingUpInto(w, dir)
    case DiscardBackup(dir, _) => BackingUpInto(w, dir)
    case WriteOriginal(i, c) =>
      && w.portal.Inactive? && InTransaction(w) && w.disk.journal.value.phase.BackedUp?
      && var j := w.disk.journal.value;
         || (j.cursor == 0 && i == PORTAL && c == Some(w.history.candidates.0))
         || (j.cursor == 0 && i == UPDATER && c == Some(w.history.candidates.1))
         || (j.cursor < |j.files| && i == |j.files| - 1 - j.cursor && c == Saved(w.disk, j.backupDir, j.files[i]))
    case WriteJournal(j, c) => LegalJournal(w, j, c)
    case PortalVerified =>
      && InTransaction(w)
      && (Reports(w.disk.files[PORTAL], w.disk.journal.value.request.target) || Reports(w.disk.files[PORTAL], w.disk.journal.value.oldVersion))
    case RemoveJournal =>
      // a commit is checked first, and restarted first if the portal was running
      || (Commits(w) && w.history.verified && (w.disk.journal.value.wasActive ==> w.history.base.Some?))
      || RollsBack(w)
    case WriteStatus(s) => LegalStatus(w, s)
    case RemoveRequest =>
      w.disk.request.Some? && Finished(w.disk, w.disk.request.value.op)
  }

  ghost predicate BackingUpInto(w: World, dir: BackupDir) {
    InTransaction(w) && w.disk.journal.value.phase.Prepared? && w.disk.journal.value.backupDir == dir
  }

  // ----- the invariant

  ghost predicate JournalInv(w: World)
  {
    match w.disk.journal
    case None => !w.history.dirty
    case Some(j) =>
      && ValidJournal(w.disk, j)
      && j.request.op in w.history.issued
      && w.disk.status.Some? && w.disk.status.value.op == j.request.op
      && w.history.candidates.0.version == Some(j.request.target) && w.history.candidates.1.version == Some(j.request.target)
      && Reports(w.history.reference[PORTAL], j.oldVersion) && w.history.reference[UPDATER].Some?
      && Precedes(j.oldVersion, j.request.target)
      && (!j.wasActive ==> w.portal.Inactive? && w.history.base.None?)
      && (w.portal.Active? ==> w.history.base.Some?)
      && (w.history.dirty <==> j.request.op in w.history.touched)
      && match j.phase
         case Prepared => !w.history.dirty && Settled(w)
         case BackedUp =>
           && BackupsMatch(w, j)
           && (w.disk.files[PORTAL] == w.history.reference[PORTAL] || w.disk.files[PORTAL] == Some(w.history.candidates.0))
           && (w.disk.files[UPDATER] == w.history.reference[UPDATER] || w.disk.files[UPDATER] == Some(w.history.candidates.1))
           && if !w.history.dirty || j.cursor == FILE_COUNT then
                Settled(w) && (!w.history.dirty ==> j.cursor == 0)
              else
                && (w.history.base.Some? ==> j.cursor == 0 && Installed(w))
                && forall i :: FILE_COUNT - j.cursor <= i < FILE_COUNT ==> w.disk.files[i] == w.history.reference[i]
  }

  /** With no journal, the binaries are a matched pair: both new, or both those of the reference. */
  ghost predicate Atomic(w: World)
  {
    match w.history.outcome
    case Untouched => true
    case Committed(request, portal, updater) =>
      && w.disk.files[PORTAL] == Some(portal) && w.disk.files[UPDATER] == Some(updater)
      && portal.version == Some(request.target) && updater.version == Some(request.target)
    case Restored => Settled(w)
  }

  ghost predicate StatusInv(w: World)
  {
    match w.disk.status
    case None => true
    case Some(s) =>
      && s.op in w.history.issued
      && (s.finished <==> !s.state.Running?)
      && (s.phase.RolledBack? || s.phase.RollbackFailed? ==> s.state.Failed?)
      && (s.phase.Completed? ==> s.state.Succeeded? && Reports(w.disk.files[PORTAL], s.target))
      && (s.state.Succeeded? ==> w.disk.journal.None?)
      && (s.phase.RolledBack? ==> Settled(w) && (w.disk.journal.Some? ==> w.disk.journal.value.request.op == s.op))
      && (s.state.Failed? && !s.phase.RolledBack? && !s.phase.RollbackFailed? ==> NothingHalfDone(w, s.op))
  }

  ghost predicate RequestInv(w: World)
  {
    match w.disk.request
    case None => true
    case Some(r) =>
      && r.op in w.history.issued && r.target.Stable()
      && (w.disk.journal.Some? && w.disk.journal.value.request.op == r.op ==> w.disk.journal.value.request == r)
      && (r.op in w.history.touched ==>
            if w.disk.journal.Some? then w.disk.journal.value.request == r
            else w.history.outcome.Committed? && w.history.outcome.request == r)
  }

  ghost predicate Inv(w: World) {
    && w.disk.files[PORTAL].Some? && w.disk.files[UPDATER].Some?
    && w.history.touched <= w.history.issued
    && JournalInv(w)
    && (w.disk.journal.None? ==> Atomic(w))
    && StatusInv(w)
    && RequestInv(w)
  }

  /** An installation on which no update has run yet. */
  ghost predicate Initial(w: World) {
    && w.disk.files[PORTAL].Some? && w.disk.files[UPDATER].Some?
    && w.disk.journal.None? && w.disk.status.None? && w.disk.request.None?
    && !w.history.dirty && w.history.base.None? && w.history.outcome.Untouched? && w.history.touched == {}
  }

  // ----- runs

  /** What has happened so far, from an installation on. */
  datatype Run = Begin(world: World) | Then(before: Run, event: Event)

  ghost function End(run: Run): World {
    match run
    case Begin(w) => w
    case Then(before, e) => Step(End(before), e)
  }

  /** A run that starts on a fresh installation and takes legal steps only. */
  ghost predicate LegalRun(run: Run) {
    match run
    case Begin(w) => Initial(w)
    case Then(before, e) => LegalRun(before) && Legal(End(before), e)
  }

  lemma OpeningKeepsTheJournal(w: World, e: Event)
    requires Inv(w) && Legal(w, e) && e.WriteJournal? && e.journal.phase.Prepared?
    ensures JournalInv(Step(w, e))
  {
  }

  /** The backups of a journal that matches the reference restore the reference. */
  lemma BackupsRestore(w: World, j: Journal, i: nat)
    requires BackupsMatch(w, j) && i < FILE_COUNT
    ensures Saved(w.disk, j.backupDir, j.files[i]) == w.history.reference[i]
  {
    assert BackedUpAs(w.disk, j.backupDir, j.files[i], i, w.history.reference[i]);
  }

  lemma RecordingKeepsTheJournal(w: World, e: Event)
    requires Inv(w) && Legal(w, e) && e.WriteJournal? && e.journal.phase.BackedUp? && e.journal.cursor == 0
    ensures JournalInv(Step(w, e))
  {
    assert BackupsMatch(w, e.journal);
  }

  lemma ContinuingKeepsTheJournal(w: World, e: Event)
    requires Inv(w) && Legal(w, e) && e.WriteJournal? && e.journal.phase.BackedUp? && e.journal.cursor > 0
    ensures JournalInv(Step(w, e))
  {
    BackupsRestore(w, w.disk.journal.value, FILE_COUNT - e.journal.cursor);
    assert BackupsMatch(Step(w, e), e.journal);
  }

  lemma WritingFilesKeepsTheJournal(w: World, e: Event)
    requires Inv(w) && Legal(w, e) && (e.WriteOriginal? || e.PortalWrites?)
    ensures JournalInv(Step(w, e))
  {
    if e.WriteOriginal? {
      BackupsRestore(w, w.disk.journal.value, e.index);
    }
  }

  lemma BackingUpKeepsTheJournal(w: World, e: Event)
    requires Inv(w) && Legal(w, e) && (e.BackUp? || e.DiscardBackup? || e.MakeBackupDir?)
    ensures JournalInv(Step(w, e))
  {
  }

  lemma RunningTheServiceKeepsTheJournal(w: World, e: Event)
    requires Inv(w) && Legal(w, e) && (e.StartPortal? || e.StopPortal? || e.PortalExits? || e.PortalStarts?)
    ensures JournalInv(Step(w, e))
  {
  }

  lemma StepKeepsJournal(w: World, e: Event)
    requires Inv(w) && Legal(w, e)
    ensures JournalInv(Step(w, e))
  {
    if e.WriteJournal? {
      if e.journal.phase.Prepared? {
        OpeningKeepsTheJournal(w, e);
      } else if e.journal.cursor == 0 {
        RecordingKeepsTheJournal(w, e);
      } else {
        ContinuingKeepsTheJournal(w, e);
      }
    } else if e.WriteOriginal? || e.PortalWrites? {
      WritingFilesKeepsTheJournal(w, e);
    } else if e.BackUp? || e.DiscardBackup? || e.MakeBackupDir? {
      BackingUpKeepsTheJournal(w, e);
    } else if e.StartPortal? || e.StopPortal? || e.PortalExits? || e.PortalStarts? {
      RunningTheServiceKeepsTheJournal(w, e);
    }
  }

  lemma StepKeepsAtomic(w: World, e: Event)
    requires Inv(w) && Legal(w, e)
    ensures Step(w, e).disk.journal.None? ==> Atomic(Step(w, e))
  {
  }

  lemma WritingTheStatusKeepsIt(w: World, e: Event)
    requires Inv(w) && Legal(w, e) && e.WriteStatus?
    ensures StatusInv(Step(w, e))
  {
  }

  lemma StepKeepsStatus(w: World, e: Event)
    requires Inv(w) && Legal(w, e) && !e.WriteStatus?
    ensures StatusInv(Step(w, e))
  {
  }

  lemma StepKeepsRequest(w: World, e: Event)
    requires Inv(w) && Legal(w, e)
    ensures RequestInv(Step(w, e))
  {
  }

  /** Every legal step keeps the invariant. */
  lemma StepKeepsInv(w: World, e: Event)
    requires Inv(w) && Legal(w, e)
    ensures Inv(Step(w, e))
  {
    StepKeepsJournal(w, e);
    StepKeepsAtomic(w, e);
    if e.WriteStatus? {
      WritingTheStatusKeepsIt(w, e);
    } else {
      StepKeepsStatus(w, e);
    }
    StepKeepsRequest(w, e);
  }

  /** The invariant holds at the end of every legal run, so in every state the system can reach. */
  lemma {:induction false} RunKeepsInv(run: Run)
    requires LegalRun(run)
    ensures Inv(End(run))
  {
    match run
    case Begin(w) =>
    case Then(before, e) =>
      RunKeepsInv(before);
      StepKeepsInv(End(before), e);
  }

  // ----- a restored file and its checkpoint

  /** The portal is stopped and this backed-up journal is on disk. */
  ghost predicate Restoring(w: World, j: Journal) {
    && w.disk.journal == Some(j) && j.phase.BackedUp? && InTransaction(w) && w.portal.Inactive?
  }

  /** After a file is restored, its checkpoint may be written. */
  lemma CheckpointIsLegal(before: World, w: World, j: Journal, candidates: (Blob, Blob))
    requires Inv(before) && Restoring(before, j) && j.cursor < FILE_COUNT && Inv(w)
    requires |j.files| == FILE_COUNT
    requires var i := FILE_COUNT - 1 - j.cursor; w == Step(before, WriteOriginal(i, Saved(before.disk, j.backupDir, j.files[i])))
    ensures Restoring(w, j) && LegalJournal(w, j.(cursor := j.cursor + 1), candidates)
  {
    assert ValidJournal(w.disk, j.(cursor := j.cursor + 1));
  }
}
