/**
 Updates exclude quota mutations: the portal's handlers that publish an update request, create a batch
 job or change one key, over the disk the updater shares with them.  maintenanceMu admits one handler at a
 time; the updater takes its steps between any two of a handler's.
 */
module UpdateExclusion {
  import opened Options
  import opened UpdateProtocol
  import opened UpdateTheorems
  import opened UpdateLimits

  /** How far the handler that holds maintenanceMu has come. */
  datatype Holder =
    // applyUpdate and releasecheck's Apply
    | Applying
    | ApplyingNoJob                                    // no job was queued or running
    | ApplyingRead(request: Option<Request>)           // View has read the request file
    | ApplyingViewed                                   // View has read the status: no operation is active
    | ApplyingNoMarker                                 // Lstat found no request file
    // createQuotaResetJob, and resetUserQuota and setUserKeyLimits, which keep the lock until they return
    | Mutating
    | MutatingRead(request: Option<Request>)
    | MutatingViewed

  datatype System = System(world: World, jobActive: bool, holder: Option<Holder>)

  datatype SystemEvent =
    | Updater(event: Event)              // a step of the updater, or the portal writing its database or exiting
    | PortalReturns                      // the portal is started by anyone, and recovers interrupted jobs
    | JobEnds
    | Lock(holder: Holder)
    | Leave                              // any refusal, or the handler's end
    | CheckJob
    | ReadRequestFile(readable: bool)
    | ReadStatusFile(readable: bool)
    | FindNoMarker
    | Publish(request: Request)
    | CreateJob

  /** A handler or the portal process ends; the service started here runs RecoverInterruptedQuotaResetJobs first. */
  ghost function StepSystem(s: System, e: SystemEvent): System {
    match e
    case Updater(event) =>
      var next := Step(s.world, event);
      System(next, s.jobActive && !event.StartPortal?, if next.portal.Inactive? || event.StartPortal? then None else s.holder)
    case PortalReturns => System(Step(s.world, PortalStarts), false, None)
    case JobEnds => s.(jobActive := false)
    case Lock(h) => s.(holder := Some(h))
    case Leave => s.(holder := None)
    case CheckJob => s.(holder := Some(ApplyingNoJob))
    case ReadRequestFile(readable) =>
      var r := if readable then s.world.disk.request else None;
      s.(holder := Some(if s.holder == Some(Mutating) then MutatingRead(r) else ApplyingRead(r)))
    case ReadStatusFile(_) => s.(holder := Some(if s.holder.Some? && s.holder.value.MutatingRead? then MutatingViewed else ApplyingViewed))
    case FindNoMarker => s.(holder := Some(ApplyingNoMarker))
    case Publish(r) => s.(world := Step(s.world, PortalPublishes(r)), holder := None)
    case CreateJob => s.(jobActive := true)
  }

  /** What the code checks before each step, and nothing more. */
  ghost predicate Admissible(s: System, e: SystemEvent) {
    match e
    case Updater(event) => !event.PortalPublishes? && Legal(s.world, event)
    case PortalReturns => s.world.portal.Inactive?
    case JobEnds => s.jobActive
    case Lock(h) => s.world.portal.Active? && s.holder.None? && (h.Applying? || h.Mutating?)
    case Leave => s.holder.Some?
    case CheckJob => s.holder == Some(Applying) && !s.jobActive
    case ReadRequestFile(_) => s.holder == Some(ApplyingNoJob) || s.holder == Some(Mutating)
    case ReadStatusFile(readable) =>
      && s.holder.Some? && (s.holder.value.ApplyingRead? || s.holder.value.MutatingRead?)
      && !PendingView(s.holder.value.request, if readable then s.world.disk.status else None)
    case FindNoMarker => s.holder == Some(ApplyingViewed) && s.world.disk.request.None?
    case Publish(r) => s.holder == Some(ApplyingNoMarker) && r.op !in s.world.history.issued && r.target.Stable()
    case CreateJob => s.holder == Some(MutatingViewed)
  }

  /** A finished operation is taken up again, or the request of an operation, or its active status, could not be read. */
  ghost predicate Exceptional(s: System, e: SystemEvent) {
    match e
    case Updater(event) => event.WriteStatus? && event.status.state.Running? && !MaintenancePending(s.world.disk)
    case ReadRequestFile(readable) => !readable && s.world.disk.request.Some?
    case ReadStatusFile(readable) => !readable && s.world.disk.status.Some? && ActiveStatus(s.world.disk.status.value)
    case _ => false
  }

  // ----- the invariant

  ghost predicate HolderKnows(s: System, h: Holder) {
    match h
    case Applying => true
    case ApplyingNoJob => !s.jobActive
    case ApplyingRead(r) => !s.jobActive && StillOrGone(s.world.disk.request, r)
    case ApplyingViewed => !s.jobActive && !MaintenancePending(s.world.disk)
    case ApplyingNoMarker => !s.jobActive && !MaintenancePending(s.world.disk) && s.world.disk.request.None?
    case Mutating => true
    case MutatingRead(r) => StillOrGone(s.world.disk.request, r)
    case MutatingViewed => !MaintenancePending(s.world.disk)
  }

  ghost predicate StillOrGone(now: Option<Request>, read: Option<Request>) { now == read || now.None? }

  ghost predicate Excluded(s: System) {
    && (s.holder.Some? ==> HolderKnows(s, s.holder.value) && s.world.portal.Active?)
    && !(s.jobActive && MaintenancePending(s.world.disk))
  }

  /** Unless it takes up a finished operation, no step of the updater makes maintenance pending. */
  lemma UpdaterOnlyEndsMaintenance(w: World, e: Event)
    requires Legal(w, e) && !e.PortalPublishes?
    requires e.WriteStatus? && e.status.state.Running? ==> MaintenancePending(w.disk)
    ensures MaintenancePending(Step(w, e).disk) ==> MaintenancePending(w.disk)
    ensures StillOrGone(Step(w, e).disk.request, w.disk.request)
  {
  }

  lemma StepKeepsExcluded(s: System, e: SystemEvent)
    requires Excluded(s) && Admissible(s, e) && !Exceptional(s, e)
    ensures Excluded(StepSystem(s, e))
  {
    if e.Updater? {
      UpdaterOnlyEndsMaintenance(s.world, e.event);
    }
  }

  /** A step of the updater breaks the exclusion if and only if it takes up a finished operation while a job is active. */
  lemma UpdaterBreaksExactlyWhen(s: System, e: Event)
    requires Excluded(s) && Admissible(s, Updater(e))
    ensures var n := StepSystem(s, Updater(e));
            (n.jobActive && MaintenancePending(n.world.disk)) <==>
            (s.jobActive && e.WriteStatus? && e.status.state.Running? && !MaintenancePending(s.world.disk))
  {
    if !Exceptional(s, Updater(e)) {
      StepKeepsExcluded(s, Updater(e));
    }
  }

  /** A read of a handler loses the exclusion if and only if it fails on a request that is there, or on an active status. */
  lemma ReadingBreaksExactlyWhen(s: System, e: SystemEvent)
    requires Excluded(s) && Admissible(s, e) && (e.ReadRequestFile? || e.ReadStatusFile?)
    ensures !Excluded(StepSystem(s, e)) <==>
            !e.readable && if e.ReadRequestFile? then s.world.disk.request.Some?
                           else s.world.disk.status.Some? && ActiveStatus(s.world.disk.status.value)
  {
  }

  /** The operation that is taken up again is one whose own terminal status is already durable. */
  lemma {:induction false} OnlyFinishedOperationsReturn(run: Run, s: Status)
    requires LegalRun(run) && Legal(End(run), WriteStatus(s)) && s.state.Running? && !MaintenancePending(End(run).disk)
    ensures Finished(End(run).disk, s.op) && !End(run).disk.status.value.phase.RollbackFailed?
  {
    RunKeepsInv(run);
  }

  // ----- whole runs

  datatype SystemRun = Start(system: System) | Next(before: SystemRun, event: SystemEvent)

  ghost function Now(run: SystemRun): System {
    match run
    case Start(s) => s
    case Next(before, e) => StepSystem(Now(before), e)
  }

  ghost predicate PossibleRun(run: SystemRun) {
    match run
    case Start(s) => s.holder.None? && !s.jobActive  // the portal has just been started, or is stopped
    case Next(before, e) => PossibleRun(before) && Admissible(Now(before), e)
  }

  ghost predicate Ordinary(run: SystemRun) {
    run.Next? ==> Ordinary(run.before) && !Exceptional(Now(run.before), run.event)
  }

  /** No reachable state has an active batch job and a queued, running or rollback_failed operation. */
  lemma {:induction false} JobsAndUpdatesExcludeEachOther(run: SystemRun)
    requires PossibleRun(run) && Ordinary(run)
    ensures Excluded(Now(run))
    ensures !(Now(run).jobActive && MaintenancePending(Now(run).world.disk))
  {
    if run.Next? {
      JobsAndUpdatesExcludeEachOther(run.before);
      StepKeepsExcluded(Now(run.before), run.event);
    }
  }

  /** A handler publishes only where the protocol of UpdateProtocol allows it: never over another request. */
  lemma {:induction false} PublishingIsLegal(run: SystemRun, request: Request)
    requires PossibleRun(run) && Ordinary(run) && Admissible(Now(run), Publish(request))
    ensures Legal(Now(run).world, PortalPublishes(request)) && !Now(run).jobActive
  {
    JobsAndUpdatesExcludeEachOther(run);
  }

  /** While a single-key mutation holds the lock past its view, the updater neither stops the portal nor writes a file. */
  lemma {:induction false} NoUpdaterStepDuringAMutation(run: SystemRun, e: Event)
    requires PossibleRun(run) && Ordinary(run)
    requires Now(run).holder == Some(MutatingViewed) || Now(run).jobActive
    requires Legal(Now(run).world, e)
    ensures !e.StopPortal? && !e.WriteOriginal?
  {
    JobsAndUpdatesExcludeEachOther(run);
  }

  /** From an installation on, with the portal started by others only while no transaction is open. */
  ghost predicate FromInstallation(run: SystemRun) {
    match run
    case Start(s) => Initial(s.world)
    case Next(before, e) => FromInstallation(before) && (e.PortalReturns? ==> Now(before).world.disk.journal.None?)
  }

  /** Updater, handlers and jobs together make a legal run of the update protocol, so all of UpdateTheorems applies. */
  lemma {:induction false} WorldsAreLegal(run: SystemRun) returns (legal: Run)
    requires PossibleRun(run) && Ordinary(run) && FromInstallation(run)
    ensures LegalRun(legal) && End(legal) == Now(run).world
  {
    match run
    case Start(s) =>
      legal := Begin(s.world);
    case Next(before, e) =>
      legal := WorldsAreLegal(before);
      match e {
        case Updater(event) => legal := Then(legal, event);
        case PortalReturns => legal := Then(legal, PortalStarts);
        case Publish(request) =>
          PublishingIsLegal(before, request);
          legal := Then(legal, PortalPublishes(request));
        case _ =>
      }
  }

  // ----- the exceptions are real

  lemma {:induction false} Proceed(run: SystemRun, e: SystemEvent) returns (longer: SystemRun)
    requires PossibleRun(run) && Admissible(Now(run), e)
    ensures PossibleRun(longer) && longer == Next(run, e) && Now(longer) == StepSystem(Now(run), e)
  {
    longer := Next(run, e);
  }

  /** A rollback that is taken up again after its status became durable meets a job created in between. */
  lemma {:induction false} ReturningRollbackMeetsAJob(run: Run) returns (met: SystemRun)
    requires LegalRun(run) && Reopened(End(run)) && End(run).portal.Active?
    requires End(run).disk.request == Some(End(run).disk.journal.value.request)
    ensures PossibleRun(met) && Now(met).jobActive && MaintenancePending(Now(met).world.disk)
  {
    var finished, again := FinishedRollbackCanReturn(run);
    met := Start(System(End(finished), false, None));
    met := Proceed(met, Lock(Mutating));
    met := Proceed(met, ReadRequestFile(true));
    met := Proceed(met, ReadStatusFile(true));
    met := Proceed(met, CreateJob);
    met := Proceed(met, Updater(again.event));
  }

  /** A request file that cannot be read looks like none: a job starts beside a queued update. */
  lemma {:induction false} UnreadableRequestMeetsAJob(w: World) returns (met: SystemRun)
    requires w.portal.Active? && w.disk.request.Some? && !PendingView(None, w.disk.status) && MaintenancePending(w.disk)
    ensures PossibleRun(met) && Now(met).jobActive && MaintenancePending(Now(met).world.disk)
  {
    met := Start(System(w, false, None));
    met := Proceed(met, Lock(Mutating));
    met := Proceed(met, ReadRequestFile(false));
    met := Proceed(met, ReadStatusFile(true));
    met := Proceed(met, CreateJob);
  }

  /** A status file that cannot be read looks like none: a job starts although an operation without a request is active,
      for instance one whose rollback failed. */
  lemma {:induction false} UnreadableStatusMeetsAJob(w: World) returns (met: SystemRun)
    requires w.portal.Active? && w.disk.request.None? && w.disk.status.Some? && ActiveStatus(w.disk.status.value)
    ensures PossibleRun(met) && Now(met).jobActive && MaintenancePending(Now(met).world.disk)
  {
    met := Start(System(w, false, None));
    met := Proceed(met, Lock(Mutating));
    met := Proceed(met, ReadRequestFile(true));
    met := Proceed(met, ReadStatusFile(false));
    met := Proceed(met, CreateJob);
  }
}
