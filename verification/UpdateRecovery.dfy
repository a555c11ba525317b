/** Recovery is never stuck: every reachable state with a journal has a legal way to a finished rollback. */
module UpdateRecovery {
  import opened Options
  import opened UpdateProtocol
  import opened UpdateTheorems

  lemma {:induction false} ContinuesTransitive(a: Run, b: Run, c: Run)
    requires Continues(a, b) && Continues(b, c)
    ensures Continues(a, c)
  {
    if b != c {
      ContinuesTransitive(a, b, c.before);
    }
  }

  /** One more step of a run that goes back to `origin`. */
  lemma {:induction false} Extend(origin: Run, run: Run, e: Event) returns (longer: Run)
    requires LegalRun(run) && Continues(origin, run) && Legal(End(run), e)
    ensures longer == Then(run, e) && LegalRun(longer) && Continues(origin, longer)
    ensures End(longer) == Step(End(run), e)
  {
    longer := Then(run, e);
  }

  /** In the middle of a recovery: the status runs, the portal is stopped. */
  ghost predicate UnderRecovery(w: World, request: Request) {
    InTransaction(w) && w.disk.journal.value.request == request && w.portal.Inactive?
  }

  /** The restore the journal on disk asks for next. */
  ghost function NextRestore(w: World): Event
    requires w.disk.journal.Some? && w.disk.journal.value.cursor < |w.disk.journal.value.files|
  {
    var j := w.disk.journal.value;
    var i := |j.files| - 1 - j.cursor;
    WriteOriginal(i, Saved(w.disk, j.backupDir, j.files[i]))
  }

  /** The checkpoint of the next cursor. */
  ghost function NextCheckpoint(w: World): Event
    requires w.disk.journal.Some?
  {
    WriteJournal(w.disk.journal.value.(cursor := w.disk.journal.value.cursor + 1), w.history.candidates)
  }

  ghost predicate Unfinished(w: World) {
    InTransaction(w) && w.portal.Inactive? && w.disk.journal.value.phase.BackedUp? && w.disk.journal.value.cursor < FILE_COUNT
  }

  /** The next file may be restored, and then checkpointed. */
  lemma NextFileIsLegal(w: World)
    requires Inv(w) && Unfinished(w)
    ensures |w.disk.journal.value.files| == FILE_COUNT && Legal(w, NextRestore(w))
    ensures Legal(Step(w, NextRestore(w)), NextCheckpoint(w))
  {
    StepKeepsInv(w, NextRestore(w));
    CheckpointIsLegal(w, Step(w, NextRestore(w)), w.disk.journal.value, w.history.candidates);
  }

  /** What the two steps leave. */
  lemma NextFileIsRestored(w: World)
    requires Unfinished(w) && |w.disk.journal.value.files| == FILE_COUNT
    ensures var n := Step(Step(w, NextRestore(w)), NextCheckpoint(w));
            && InTransaction(n) && n.portal.Inactive? && n.history.reference == w.history.reference && n.history.dirty && n.history.base.None?
            && n.disk.journal == Some(w.disk.journal.value.(cursor := w.disk.journal.value.cursor + 1))
  {
  }

  lemma {:induction false} RestoreCanAdvance(run: Run, request: Request) returns (longer: Run)
    requires LegalRun(run) && UnderRecovery(End(run), request) && Unfinished(End(run))
    ensures LegalRun(longer) && Continues(run, longer) && UnderRecovery(End(longer), request)
    ensures End(longer).disk.journal == Some(End(run).disk.journal.value.(cursor := End(run).disk.journal.value.cursor + 1))
    ensures End(longer).history.reference == End(run).history.reference
    ensures End(longer).history.dirty && End(longer).history.base.None?
  {
    RunKeepsInv(run);
    NextFileIsLegal(End(run));
    NextFileIsRestored(End(run));
    longer := Extend(run, run, NextRestore(End(run)));
    longer := Extend(run, longer, NextCheckpoint(End(run)));
  }

  lemma {:induction false} RestoreCanFinish(run: Run, request: Request) returns (longer: Run)
    requires LegalRun(run) && UnderRecovery(End(run), request) && End(run).disk.journal.value.phase.BackedUp?
    ensures LegalRun(longer) && Continues(run, longer) && UnderRecovery(End(longer), request)
    ensures End(longer).disk.journal == Some(End(run).disk.journal.value.(cursor := FILE_COUNT))
    ensures End(longer).history.reference == End(run).history.reference
    ensures if End(run).disk.journal.value.cursor == FILE_COUNT then longer == run
            else End(longer).history.dirty && End(longer).history.base.None?
    decreases FILE_COUNT - End(run).disk.journal.value.cursor
  {
    RunKeepsInv(run);
    longer := run;
    if End(run).disk.journal.value.cursor < FILE_COUNT {
      var next := RestoreCanAdvance(run, request);
      longer := RestoreCanFinish(next, request);
      ContinuesTransitive(run, next, longer);
    }
  }

  /** The running status of a recovery may always be written, and the portal may then be stopped. */
  lemma {:induction false} RecoveryCanBegin(run: Run) returns (longer: Run)
    requires LegalRun(run) && End(run).disk.journal.Some?
    ensures LegalRun(longer) && Continues(run, longer)
    ensures UnderRecovery(End(longer), End(run).disk.journal.value.request) && End(longer).disk.journal == End(run).disk.journal
    ensures End(run).disk.journal.value.phase.BackedUp? ==> End(longer).history.reference == End(run).history.reference
    ensures End(longer).disk.files == End(run).disk.files
  {
    var request := End(run).disk.journal.value.request;
    longer := Extend(run, run, WriteStatus(Status(request.op, request.target, Running, Phase.Recovering, false, false)));
    if End(run).disk.journal.value.phase.BackedUp? || End(run).disk.journal.value.wasActive {
      longer := Extend(run, longer, StopPortal);
    } else {
      RunKeepsInv(run);
    }
  }

  lemma {:induction false} RestoredFully(run: Run)
    requires LegalRun(run) && End(run).disk.journal.Some?
    requires var j := End(run).disk.journal.value; j.phase.Prepared? || j.cursor == FILE_COUNT
    ensures RolledBackFully(End(run)) && Settled(End(run)) && Reports(End(run).disk.files[PORTAL], End(run).disk.journal.value.oldVersion)
  {
    RunKeepsInv(run);
  }

  /** Restart the portal if it had been running, and check it. */
  lemma {:induction false} ReopeningCanFinish(run: Run, request: Request) returns (longer: Run)
    requires LegalRun(run) && UnderRecovery(End(run), request)
    requires var j := End(run).disk.journal.value; j.phase.Prepared? || j.cursor == FILE_COUNT
    ensures LegalRun(longer) && Continues(run, longer) && Reopened(End(longer))
    ensures End(longer).disk.journal.value.request == request
  {
    RestoredFully(run);
    longer := run;
    if End(run).disk.journal.value.wasActive {
      longer := Extend(run, longer, StartPortal);
      RestoredFully(longer);
    }
    if End(run).disk.journal.value.wasActive || End(run).disk.journal.value.phase.BackedUp? {
      longer := Extend(run, longer, PortalVerified);
    } else {
      RunKeepsInv(run);
    }
  }

  lemma {:induction false} RollbackCanBeRecorded(run: Run, request: Request) returns (longer: Run)
    requires LegalRun(run) && Reopened(End(run)) && End(run).disk.journal.value.request == request
    ensures LegalRun(longer) && Continues(run, longer)
    ensures End(longer).disk.journal.None? && End(longer).history.outcome.Restored?
    ensures End(longer).disk.status.Some? && End(longer).disk.status.value.op == request.op && End(longer).disk.status.value.phase.RolledBack?
  {
    longer := Extend(run, run, WriteStatus(Status(request.op, request.target, Failed, Phase.RolledBack, true, true)));
    if End(run).disk.request.Some? && End(run).disk.request.value.op == request.op {
      longer := Extend(run, longer, RemoveRequest);
    }
    longer := Extend(run, longer, RemoveJournal);
  }

  /** From every reachable state with a journal on disk, the updater's own steps lead to a finished rollback:
      the journal gone, the status rolled_back, and every file restored. */
  lemma {:induction false} RecoveryCanFinish(run: Run) returns (longer: Run)
    requires LegalRun(run) && End(run).disk.journal.Some?
    ensures LegalRun(longer) && Continues(run, longer)
    ensures End(longer).disk.journal.None? && AllRestored(longer)
    ensures End(longer).disk.status.Some? && End(longer).disk.status.value.op == End(run).disk.journal.value.request.op
    ensures End(longer).disk.status.value.phase.RolledBack?
  {
    var request := End(run).disk.journal.value.request;
    var begun := RecoveryCanBegin(run);
    var restored := begun;
    if End(begun).disk.journal.value.phase.BackedUp? {
      restored := RestoreCanFinish(begun, request);
      ContinuesTransitive(run, begun, restored);
    }
    var reopened := ReopeningCanFinish(restored, request);
    ContinuesTransitive(run, restored, reopened);
    longer := RollbackCanBeRecorded(reopened, request);
    ContinuesTransitive(run, reopened, longer);
    CrashAtomicity(longer);
  }
}
