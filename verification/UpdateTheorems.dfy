/** What the discipline of UpdateProtocol guarantees over whole runs, and where tempting claims fail. */
module UpdateTheorems {
  import opened Options
  import opened SemverOrder
  import opened UpdateProtocol

  // ----- looking back along a run

  /** `run` continues `earlier` with steps none of which writes a managed file. */
  ghost predicate NoFileWrittenSince(earlier: Run, run: Run) {
    run == earlier || (run.Then? && !run.event.WriteOriginal? && NoFileWrittenSince(earlier, run.before))
  }

  /** `run` continues `earlier`. */
  ghost predicate Continues(earlier: Run, run: Run) {
    run == earlier || (run.Then? && Continues(earlier, run.before))
  }

  ghost predicate OpensTransaction(run: Run) {
    run.Then? && run.event.WriteJournal? && run.event.journal.phase.Prepared?
  }

  /** The portal was running on exactly these files, and no managed file has been written since. */
  ghost predicate RanFrom(earlier: Run, run: Run, files: FileMap) {
    NoFileWrittenSince(earlier, run) && End(earlier).portal.Active? && End(earlier).disk.files == files
  }

  /** The start files stay remembered while no file is written, or are those the portal now runs on. */
  lemma BaseStays(w: World, e: Event)
    requires Step(w, e).history.base.Some?
    ensures var n := Step(w, e);
            || (n.history.base == w.history.base && !e.WriteOriginal?)
            || (n.portal.Active? && n.history.base == Some(n.disk.files))
  {
  }

  lemma {:induction false} BaseWasRunFrom(run: Run)
    requires LegalRun(run) && End(run).history.base.Some?
    ensures exists earlier :: RanFrom(earlier, run, End(run).history.base.value)
  {
    var files := End(run).history.base.value;
    BaseStays(End(run.before), run.event);
    if End(run.before).history.base == Some(files) && !run.event.WriteOriginal? {
      BaseWasRunFrom(run.before);
      var earlier :| RanFrom(earlier, run.before, files);
      assert RanFrom(earlier, run, files);
    } else {
      assert RanFrom(run, run, files);
    }
  }

  /** `run` continues `earlier`, and no later transaction has been opened since. */
  ghost predicate NoOpeningSince(earlier: Run, run: Run) {
    run == earlier || (run.Then? && !OpensTransaction(run) && NoOpeningSince(earlier, run.before))
  }

  /** The reference is what was on disk when the last transaction was opened, or when the portal was stopped under its
      prepared journal. */
  ghost predicate CapturedReference(earlier: Run, run: Run, files: FileMap) {
    && NoOpeningSince(earlier, run) && earlier.Then? && End(earlier).disk.files == files
    && (OpensTransaction(earlier) || (earlier.event.StopPortal? && IsPrepared(End(earlier.before).disk)))
  }

  lemma {:induction false} ReferenceWasOnDisk(run: Run)
    requires LegalRun(run) && (End(run).disk.journal.Some? || End(run).history.outcome.Restored?)
    ensures exists earlier :: CapturedReference(earlier, run, End(run).history.reference)
  {
    var files := End(run).history.reference;
    var before, e := run.before, run.event;
    if OpensTransaction(run) || (e.StopPortal? && IsPrepared(End(before).disk)) {
      assert CapturedReference(run, run, files);
    } else {
      ReferenceWasOnDisk(before);
      var earlier :| CapturedReference(earlier, before, files);
      assert CapturedReference(earlier, run, files);
    }
  }

  lemma {:induction false} NotDirtyMeansUnwritten(run: Run)
    requires LegalRun(run) && End(run).disk.journal.Some? && !End(run).history.dirty
    ensures exists opening :: OpensTransaction(opening) && NoFileWrittenSince(opening, run)
  {
    if OpensTransaction(run) {
      assert NoFileWrittenSince(run, run);
    } else {
      NotDirtyMeansUnwritten(run.before);
      var opening :| OpensTransaction(opening) && NoFileWrittenSince(opening, run.before);
      assert NoFileWrittenSince(opening, run);
    }
  }

  // ----- crash atomicity

  /** Both binaries are the new ones of one requested version. */
  ghost predicate BothNew(w: World) {
    exists portal: Blob, updater: Blob, target: ParsedVersion ::
      && w.disk.files[PORTAL] == Some(portal) && w.disk.files[UPDATER] == Some(updater)
      && portal.version == Some(target) && updater.version == Some(target)
  }

  ghost predicate BinariesAreReference(w: World) {
    w.disk.files[PORTAL] == w.history.reference[PORTAL] && w.disk.files[UPDATER] == w.history.reference[UPDATER]
  }

  /** All files equal the reference, or the portal ran from exactly the reference and only it wrote since. */
  ghost predicate AllRestored(run: Run) {
    var w := End(run);
    && BinariesAreReference(w)
    && (w.disk.files == w.history.reference || exists earlier :: RanFrom(earlier, run, w.history.reference))
    && exists earlier :: CapturedReference(earlier, run, w.history.reference)
  }

  /** No update has ever changed a file, or both binaries are new, or everything was put back. */
  ghost predicate AllOrNothing(run: Run) {
    match End(run).history.outcome
    case Untouched => NoFileWrittenEver(run)
    case Committed(_, _, _) => BothNew(End(run))
    case Restored => AllRestored(run)
  }

  /**
   Crash atomicity.  Whatever failed and wherever updaters died: whenever no journal is on disk,
   no update ever changed a file, or both binaries are new, or everything was put back to what was
   there when the portal was stopped.
   */
  lemma {:induction false} CrashAtomicity(run: Run)
    requires LegalRun(run) && End(run).disk.journal.None?
    ensures AllOrNothing(run)
  {
    RunKeepsInv(run);
    var w := End(run);
    match w.history.outcome {
      case Untouched =>
        UntouchedMeansUnwritten(run);
      case Committed(request, portal, updater) =>
        assert w.disk.files[PORTAL] == Some(portal);
      case Restored =>
        ReferenceWasOnDisk(run);
        if w.history.base.Some? {
          BaseWasRunFrom(run);
        }
    }
  }

  ghost predicate NoFileWrittenEver(run: Run) {
    run.Then? ==> !run.event.WriteOriginal? && NoFileWrittenEver(run.before)
  }

  lemma {:induction false} UntouchedMeansUnwritten(run: Run)
    requires LegalRun(run) && End(run).history.outcome.Untouched? && !End(run).history.dirty
    ensures NoFileWrittenEver(run)
  {
    if run.Then? {
      RunKeepsInv(run.before);
      WritesLeaveATrace(End(run.before), run.event);
      UntouchedMeansUnwritten(run.before);
    }
  }

  lemma WritesLeaveATrace(w: World, e: Event)
    requires Inv(w) && Legal(w, e)
    requires Step(w, e).history.outcome.Untouched? && !Step(w, e).history.dirty
    ensures !e.WriteOriginal? && w.history.outcome.Untouched? && !w.history.dirty
  {
  }

  // ----- the journal describes the disk

  /** Here the last transaction ended, or no run has happened yet. */
  ghost predicate Closed(run: Run) { run.Begin? || run.event.RemoveJournal? }

  lemma {:induction false} AbsentMeansUnwritten(run: Run)
    requires LegalRun(run) && End(run).disk.journal.None?
    ensures exists closed :: Closed(closed) && NoFileWrittenSince(closed, run)
  {
    if Closed(run) {
      assert NoFileWrittenSince(run, run);
    } else {
      AbsentMeansUnwritten(run.before);
      var closed :| Closed(closed) && NoFileWrittenSince(closed, run.before);
      assert NoFileWrittenSince(closed, run);
    }
  }

  /** With no journal nothing was written since the last transaction ended.  A prepared journal means nothing was
      written since it appeared; a backed-up one with cursor c means that every backup is the reference and the last
      c files are too, until the portal starts from them. */
  ghost predicate Described(run: Run) {
    var w := End(run);
    match w.disk.journal
    case None => exists closed :: Closed(closed) && NoFileWrittenSince(closed, run)
    case Some(j) =>
      && ValidJournal(w.disk, j)
      && (j.phase.Prepared? ==> exists opening :: OpensTransaction(opening) && NoFileWrittenSince(opening, run))
      && (j.phase.BackedUp? ==> BackupsMatch(w, j))
      && (j.phase.BackedUp? && w.history.base.None? ==>
            forall i :: FILE_COUNT - j.cursor <= i < FILE_COUNT ==> w.disk.files[i] == w.history.reference[i])
  }

  lemma {:induction false} JournalDescribesDisk(run: Run)
    requires LegalRun(run)
    ensures Described(run)
  {
    RunKeepsInv(run);
    if End(run).disk.journal.None? {
      AbsentMeansUnwritten(run);
    } else if !End(run).history.dirty {
      NotDirtyMeansUnwritten(run);
    }
  }

  // ----- every step of a run

  lemma {:induction false} StepsAreLegal(run: Run, step: Run)
    requires LegalRun(run) && Continues(step, run) && step.Then?
    ensures LegalRun(step) && Legal(End(step.before), step.event)
  {
    if run != step {
      StepsAreLegal(run.before, step);
    }
  }

  /** No managed file is backed up, installed or restored while the portal runs; every stop and every write of a
      managed file happens while the portal reports maintenance; and the portal is only ever started on two new
      binaries, or on the reference. */
  ghost predicate MovesFilesSafely(w: World, e: Event) {
    && (e.WriteOriginal? || e.BackUp? ==> w.portal.Inactive?)
    && (e.WriteOriginal? || e.StopPortal? ==> MaintenancePending(w.disk))
    && (e.StartPortal? ==> BothNew(w) || BinariesAreReference(w))
  }

  lemma {:induction false} FilesMoveOnlyInMaintenance(run: Run, step: Run)
    requires LegalRun(run) && Continues(step, run) && step.Then?
    ensures MovesFilesSafely(End(step.before), step.event)
  {
    StepsAreLegal(run, step);
    RunKeepsInv(step.before);
    var w := End(step.before);
    if step.event.StartPortal? && Commits(w) {
      assert w.disk.files[PORTAL] == Some(w.history.candidates.0);
    }
  }

  /** An update request is deleted only once a terminal status of the same operation is durable, and a terminal
      status only ever replaces the running one of its operation. */
  ghost predicate AnswersInOrder(d: Disk, e: Event) {
    && (e.RemoveRequest? ==>
          d.request.Some? && d.status.Some? && d.status.value.op == d.request.value.op && !d.status.value.state.Running?)
    && (e.WriteStatus? && e.status.finished ==> RunningAs(d, e.status.op))
  }

  lemma {:induction false} RequestsOutliveTheirOperation(run: Run, step: Run)
    requires LegalRun(run) && Continues(step, run) && step.Then?
    ensures AnswersInOrder(End(step.before).disk, step.event)
  {
    StepsAreLegal(run, step);
    RunKeepsInv(step.before);
  }

  // ----- statuses tell the truth

  /** Succeeded means that the portal reports the version asked for; rolled back, that everything was restored; any
      other failure, that no file was changed, or that both binaries are new. */
  ghost predicate Truthful(run: Run)
    requires End(run).disk.status.Some?
  {
    var w := End(run);
    var s := w.disk.status.value;
    && (s.state.Succeeded? && s.phase.Completed? ==> Reports(w.disk.files[PORTAL], s.target))
    && (s.phase.RolledBack? ==> s.state.Failed? && AllRestored(run))
    && (FailedOrdinarily(s) ==> s.op !in w.history.touched || (w.disk.journal.None? && BothNew(w)))
  }

  ghost predicate FailedOrdinarily(s: Status) { s.state.Failed? && !s.phase.RolledBack? && !s.phase.RollbackFailed? }

  lemma {:induction false} StatusTruthfulness(run: Run)
    requires LegalRun(run) && End(run).disk.status.Some?
    ensures Truthful(run)
  {
    RunKeepsInv(run);
    var w := End(run);
    var s := w.disk.status.value;
    if s.phase.RolledBack? {
      RolledBackHasReference(run);
      ReferenceWasOnDisk(run);
      if w.history.base.Some? {
        BaseWasRunFrom(run);
      }
    }
    if FailedOrdinarily(s) && s.op in w.history.touched {
      assert w.disk.files[PORTAL] == Some(w.history.outcome.portal);
    }
  }

  /** A rolled_back status was written under the journal of its operation, which only ever goes to Restored. */
  lemma RolledBackStep(w: World, e: Event)
    requires Inv(w) && Legal(w, e) && Step(w, e).disk.status.Some? && Step(w, e).disk.status.value.phase.RolledBack?
    requires !e.WriteStatus? ==> w.disk.journal.Some? || w.history.outcome.Restored?
    ensures Step(w, e).disk.journal.Some? || Step(w, e).history.outcome.Restored?
  {
  }

  lemma {:induction false} RolledBackHasReference(run: Run)
    requires LegalRun(run) && End(run).disk.status.Some? && End(run).disk.status.value.phase.RolledBack?
    ensures End(run).disk.journal.Some? || End(run).history.outcome.Restored?
  {
    RunKeepsInv(run.before);
    if !run.event.WriteStatus? {
      RolledBackHasReference(run.before);
    }
    RolledBackStep(End(run.before), run.event);
  }

  /** `touched` is exactly the operations in which some step wrote a managed file. */
  lemma {:induction false} TouchedMeansWritten(run: Run, op: OperationId)
    requires LegalRun(run)
    ensures op in End(run).history.touched <==> exists step :: WroteFor(step, run, op)
  {
    match run
    case Begin(_) =>
    case Then(before, e) =>
      TouchedMeansWritten(before, op);
      if op in End(before).history.touched {
        var step :| WroteFor(step, before, op);
        assert WroteFor(step, run, op);
      }
      if e.WriteOriginal? && End(before).disk.journal.value.request.op == op {
        assert WroteFor(run, run, op);
      }
      forall step | WroteFor(step, run, op)
        ensures op in End(run).history.touched
      {
        if step != run {
          assert WroteFor(step, before, op);
        }
      }
  }

  ghost predicate WroteFor(step: Run, run: Run, op: OperationId) {
    && Continues(step, run) && step.Then? && step.event.WriteOriginal?
    && End(step.before).disk.journal.Some? && End(step.before).disk.journal.value.request.op == op
  }

  // ----- updates only go forward

  /** A commit replaces a portal that was on disk when its transaction was opened, or when the portal was stopped for it,
      and that reported an older version than both new binaries report. */
  ghost predicate Upgrades(commit: Run)
    requires commit.Then? && End(commit.before).disk.journal.Some?
  {
    var j, files := End(commit.before).disk.journal.value, End(commit.before).history.reference;
    && (exists earlier :: CapturedReference(earlier, commit.before, files))
    && Reports(files[PORTAL], j.oldVersion) && Precedes(j.oldVersion, j.request.target)
    && Reports(End(commit).disk.files[PORTAL], j.request.target) && Reports(End(commit).disk.files[UPDATER], j.request.target)
  }

  lemma {:induction false} CommitsUpgrade(run: Run, commit: Run)
    requires LegalRun(run) && Continues(commit, run) && commit.Then? && commit.event.RemoveJournal? && Commits(End(commit.before))
    ensures Upgrades(commit)
  {
    StepsAreLegal(run, commit);
    RunKeepsInv(commit.before);
    ReferenceWasOnDisk(commit.before);
  }

  /** While a transaction is open its target is newer than the version it would replace. */
  lemma {:induction false} NoDowngradeOpens(run: Run)
    requires LegalRun(run) && End(run).disk.journal.Some?
    ensures var j := End(run).disk.journal.value;
            Precedes(j.oldVersion, j.request.target) && Reports(End(run).history.reference[PORTAL], j.oldVersion)
  {
    RunKeepsInv(run);
  }

  // ----- half-changed files mean maintenance

  /** As long as the updater has written a managed file and not put everything back, the portal's view is pending: a
      status runs or has failed to roll back, or a request is not answered yet. */
  lemma {:induction false} HalfChangedMeansMaintenance(run: Run)
    requires LegalRun(run) && End(run).disk.journal.Some? && End(run).history.dirty && !Settled(End(run))
    ensures MaintenancePending(End(run).disk)
    ensures var d := End(run).disk;
            d.status.Some? && d.status.value.op == d.journal.value.request.op && (d.status.value.state.Running? || d.status.value.phase.RollbackFailed?)
  {
    RunKeepsInv(run);
  }

  // ----- everything at once

  /** The theorems above at every moment of a run. */
  ghost predicate Safe(run: Run) {
    && (forall r :: Continues(r, run) && End(r).disk.journal.None? ==> AllOrNothing(r))
    && (forall r :: Continues(r, run) ==> Described(r))
    && (forall r :: Continues(r, run) && End(r).disk.status.Some? ==> Truthful(r))
    && (forall r :: Continues(r, run) && r.Then? ==> MovesFilesSafely(End(r.before), r.event))
    && (forall r :: Continues(r, run) && r.Then? ==> AnswersInOrder(End(r.before).disk, r.event))
    && (forall r :: Continues(r, run) && r.Then? && r.event.RemoveJournal? && Commits(End(r.before)) ==> Upgrades(r))
  }

  lemma {:induction false} PrefixesAreLegal(r: Run, run: Run)
    requires LegalRun(run) && Continues(r, run)
    ensures LegalRun(r)
  {
    if r != run {
      PrefixesAreLegal(r, run.before);
    }
  }

  lemma {:induction false} LegalRunsAreSafe(run: Run)
    requires LegalRun(run)
    ensures Safe(run)
  {
    forall r | Continues(r, run)
      ensures Described(r) && (End(r).disk.journal.None? ==> AllOrNothing(r)) && (End(r).disk.status.Some? ==> Truthful(r))
    {
      PrefixesAreLegal(r, run);
      JournalDescribesDisk(r);
      if End(r).disk.journal.None? {
        CrashAtomicity(r);
      }
      if End(r).disk.status.Some? {
        StatusTruthfulness(r);
      }
    }
    forall r | Continues(r, run) && r.Then?
      ensures MovesFilesSafely(End(r.before), r.event) && AnswersInOrder(End(r.before).disk, r.event)
    {
      FilesMoveOnlyInMaintenance(run, r);
      RequestsOutliveTheirOperation(run, r);
    }
    forall r | Continues(r, run) && r.Then? && r.event.RemoveJournal? && Commits(End(r.before))
      ensures Upgrades(r)
    {
      CommitsUpgrade(run, r);
    }
  }

  // ----- exactly when an ordinary failure leaves changed files

  /** Here a transaction of this operation committed. */
  ghost predicate CommitOf(commit: Run, run: Run, op: OperationId) {
    && Continues(commit, run) && commit.Then? && commit.event.RemoveJournal? && Commits(End(commit.before))
    && End(commit.before).disk.journal.value.request.op == op
  }

  lemma {:induction false} CommittedHasCommit(run: Run)
    requires LegalRun(run) && End(run).history.outcome.Committed?
    ensures exists commit :: CommitOf(commit, run, End(run).history.outcome.request.op)
  {
    var op := End(run).history.outcome.request.op;
    if run.event.RemoveJournal? {
      assert CommitOf(run, run, op);
    } else {
      CommittedHasCommit(run.before);
      var commit :| CommitOf(commit, run.before, op);
      assert CommitOf(commit, run, op);
    }
  }

  lemma TouchedOnlyGrows(w: World, e: Event)
    ensures w.history.touched <= StepHistory(w, e).touched
  {
  }

  lemma CommitsTouched(w: World)
    requires JournalInv(w) && Commits(w)
    ensures w.disk.journal.value.request.op in w.history.touched
  {
  }

  lemma {:induction false} CommittedIsTouched(run: Run, commit: Run, op: OperationId)
    requires LegalRun(run) && CommitOf(commit, run, op)
    ensures op in End(run).history.touched
  {
    TouchedOnlyGrows(End(run.before), run.event);
    if commit == run {
      RunKeepsInv(run.before);
      CommitsTouched(End(run.before));
    } else {
      CommittedIsTouched(run.before, commit, op);
    }
  }

  /** An operation that failed ordinarily changed a file if and only if it had committed before. */
  lemma {:induction false} FailureWroteIffCommitted(run: Run)
    requires LegalRun(run) && End(run).disk.status.Some? && FailedOrdinarily(End(run).disk.status.value)
    ensures var op := End(run).disk.status.value.op;
            (exists step :: WroteFor(step, run, op)) <==> exists commit :: CommitOf(commit, run, op)
  {
    var op := End(run).disk.status.value.op;
    RunKeepsInv(run);
    TouchedMeansWritten(run, op);
    if op in End(run).history.touched {
      CommittedHasCommit(run);
    }
    forall commit | CommitOf(commit, run, op)
      ensures op in End(run).history.touched
    {
      CommittedIsTouched(run, commit, op);
    }
  }

  // ----- exactly when a finished rollback can return

  ghost predicate RolledBackAndGone(d: Disk) { d.status.Some? && d.status.value.phase.RolledBack? && d.journal.None? }

  lemma RequestStaysGone(w: World, e: Event)
    requires Inv(w) && Legal(w, e) && RolledBackAndGone(StepDisk(w.disk, e)) && !e.RemoveJournal?
    ensures RolledBackAndGone(w.disk) && StepDisk(w.disk, e).status == w.disk.status
    ensures StepDisk(w.disk, e).request.Some? ==>
              StepDisk(w.disk, e).request == w.disk.request || StepDisk(w.disk, e).request.value.op !in w.history.issued
  {
  }

  lemma {:induction false} RolledBackRequestIsGone(run: Run)
    requires LegalRun(run) && RolledBackAndGone(End(run).disk)
    ensures End(run).disk.request.Some? ==> End(run).disk.request.value.op != End(run).disk.status.value.op
  {
    RunKeepsInv(run.before);
    if !run.event.RemoveJournal? {
      RequestStaysGone(End(run.before), run.event);
      RolledBackRequestIsGone(run.before);
    }
  }

  ghost predicate CanReturn(w: World, op: OperationId) {
    exists s: Status :: s.op == op && s.state.Running? && Legal(w, WriteStatus(s))
  }

  /** An operation whose rolled_back status is durable can run again if and only if its journal is still on disk. */
  lemma {:induction false} RollbackReturnsIffJournalRemains(run: Run)
    requires LegalRun(run) && End(run).disk.status.Some? && End(run).disk.status.value.phase.RolledBack?
    ensures CanReturn(End(run), End(run).disk.status.value.op) <==> End(run).disk.journal.Some?
  {
    RunKeepsInv(run);
    var w := End(run);
    var op := w.disk.status.value.op;
    match w.disk.journal {
      case None => RolledBackRequestIsGone(run);
      case Some(j) =>
        var s := Status(op, j.request.target, Running, Phase.Recovering, false, false);
        assert s.op == op && s.state.Running? && Legal(w, WriteStatus(s));
    }
  }
}
