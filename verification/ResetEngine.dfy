/**
 The threads that reset quotas: internal/httpapi/quota_resets.go, setUserKeyLimits of admin_limits.go and
 the binding writers of admin_users.go, over the rows of ResetTables.  A thread's stage is its program
 counter; an event is one atomic step: taking or releasing a lock, one store transaction, the start or the
 end of an upstream call.  `Possible` is what the code checks, `Step` what it does.
 */
module ResetEngine {
  import opened Options
  import opened ResetTables

  type ThreadId = nat

  /** What an upstream reset or limit change returned: applied, a definite refusal, or no answer. */
  datatype Outcome = Applied | Refused | Lost

  /** resetTerminalState */
  function TerminalState(o: Outcome): ItemStatus {
    match o case Applied => Succeeded case Refused => ItemStatus.Failed case Lost => Unknown
  }

  datatype SingleStage =
    | Waiting
    | Locked      // maintenanceMu
    | Reading     // and bindingMu.RLock
    | Loaded      // the user can be reset
    | Cleared     // no job is open
    | Gated       // and the key's gate
    | Calling
    | Returned
    | Unread      // RUnlock; a sync and the audit row follow
    | Dropping    // an early return: RUnlock, then Unlock
    | Leaving     // Unlock

  datatype CreatorStage = Outside | Inside | Exiting

  datatype RunnerStage = Starting | Loading | Draining | Finishing | Aborting

  datatype WorkerStage =
    | Idle
    | Took
    | Marked
    | Holding     // bindingMu.RLock
    | Valid       // the binding is still the one of the snapshot
    | InGate      // the key's gate
    | InCall
    | Back
    | Ungated
    | Skipping    // the item is skipped: RUnlock, then the completion
    | Released    // RUnlock; the completion follows
    | Breaking    // the user could not be read: RUnlock, then the error
    | Broken      // the error is reported next

  datatype Thread =
    | Single(at: SingleStage, user: UserId, key: KeyId)                              // resetUserQuota, setUserKeyLimits
    | Creator(inside: CreatorStage)                                                  // createQuotaResetJob
    | Runner(job: JobId, phase: RunnerStage, queue: seq<ItemId>, fatal: bool)        // runQuotaResetJob
    | Worker(runner: ThreadId, stage: WorkerStage, item: ItemId, status: ItemStatus) // one of its four goroutines
    | Writer(holding: bool)                                                          // createUser, setBinding, deleteBinding, deleteUser

  /**
   One portal process and its rows.  The last four fields only remember:
     called    items an upstream reset was called for
     results   what those calls returned
     aborted   jobs closed by an abort or a restart
     ioFailed  some store call has failed
   */
  datatype Engine = Engine(
    tables: Tables,
    maintenance: Option<ThreadId>,
    readers: set<ThreadId>,
    writer: Option<ThreadId>,
    gate: map<KeyId, ThreadId>,
    threads: map<ThreadId, Thread>,
    called: set<ItemId>,
    results: map<ItemId, Outcome>,
    aborted: set<JobId>,
    ioFailed: bool)

  /** One step of one thread. */
  datatype Action =
    | LockMaintenance
    | UnlockMaintenance
    | LockRead
    | UnlockRead
    | LockWrite
    | UnlockWrite
    | LoadUser(user: UserId)
    | FindNoJob
    | GiveUp
    | RefuseUser(user: UserId)
    | FindJob
    | ReadFails
    | EnterGate
    | LeaveGate
    | Call
    | Return(outcome: Outcome)
    | TakeItem
    | WorkerDone
    | Validate(failed: bool)
    | ReportFatal
    | LoadItems(queue: seq<ItemId>, workers: set<ThreadId>, failed: bool)
    | Drained
    // store transactions: the rows they leave and the error they report, if any
    | CreateJob(job: JobId, rows: map<ItemId, Item>, runner: ThreadId, next: Tables, failure: Option<Error>)
    | StartJob(next: Tables, failure: Option<Error>)
    | MarkItem(next: Tables, failure: Option<Error>)
    | CompleteItem(next: Tables, failure: Option<Error>)
    | FinishJob(next: Tables, failure: Option<Error>)
    | AbortJob(next: Tables, failure: Option<Error>)
    | ChangeUser(change: UserChange, next: Tables, failure: Option<Error>)

  datatype Event =
    | By(t: ThreadId, action: Action)
    | Arrive(t: ThreadId, thread: Thread)
    | UpdateUser(user: UserId, disabled: bool, next: Tables, failure: Option<Error>)  // takes no lock
    | ListKeys(listed: set<KeyId>)                                                    // a keys sync
    | Restart(next: Tables)

  const WORKERS: nat := 4

  // ----- what a program counter says about locks

  predicate HoldsMaintenance(p: Thread) { (p.Single? && !p.at.Waiting?) || (p.Creator? && !p.inside.Outside?) }

  predicate HoldsRead(p: Thread) {
    || (p.Single? && (p.at.Reading? || p.at.Loaded? || p.at.Cleared? || p.at.Gated? || p.at.Calling? || p.at.Returned? || p.at.Dropping?))
    || (p.Worker? && (p.stage.Holding? || p.stage.Valid? || p.stage.InGate? || p.stage.InCall? || p.stage.Back? || p.stage.Ungated? ||
                      p.stage.Skipping? || p.stage.Breaking?))
  }

  predicate HoldsWrite(p: Thread) { p.Writer? && p.holding }

  function KeyOf(items: map<ItemId, Item>, item: ItemId): Option<KeyId> { if item in items then items[item].key else None }

  /** The key whose gate a thread has entered. */
  function GateOf(items: map<ItemId, Item>, p: Thread): Option<KeyId> {
    if p.Single? && (p.at.Gated? || p.at.Calling? || p.at.Returned? || p.at.Unread?) then Some(p.key)
    else if p.Worker? && (p.stage.InGate? || p.stage.InCall? || p.stage.Back?) then KeyOf(items, p.item)
    else None
  }

  /** The key a thread is changing upstream right now. */
  function Changing(items: map<ItemId, Item>, p: Thread): Option<KeyId> {
    if (p.Single? && p.at.Calling?) || (p.Worker? && p.stage.InCall?) then GateOf(items, p) else None
  }

  predicate Busy(p: Thread) { p.Worker? && !p.stage.Idle? }

  // ----- steps

  function To(s: Engine, t: ThreadId, p: Thread): Engine { s.(threads := s.threads[t := p]) }

  function Gone(s: Engine, t: ThreadId): Engine { s.(threads := s.threads - {t}) }

  /** validateQuotaResetItem finds nothing to skip the item for. */
  predicate StillResettable(t: Tables, item: ItemId) {
    && item in t.items && t.items[item].key.Some? && t.items[item].user in t.users
    && Resettable(t.users[t.items[item].user]) && BoundTo(t, t.items[item].user, t.items[item].key.value)
  }

  predicate Covers(t: Tables, job: JobId, queue: seq<ItemId>) {
    && (forall i, k :: 0 <= i < k < |queue| ==> queue[i] < queue[k])
    && (forall i :: i in queue ==> i in t.items && t.items[i].job == job)
    && (forall i :: i in t.items && t.items[i].job == job ==> i in queue)
  }

  /** The job a worker's runner works on. */
  function JobOf(s: Engine, p: Thread): JobId {
    if p.Worker? && p.runner in s.threads && s.threads[p.runner].Runner? then s.threads[p.runner].job else 0
  }

  predicate IsDraining(s: Engine, r: ThreadId) { r in s.threads && s.threads[r].Runner? && s.threads[r].phase.Draining? }

  /** A transaction of the store took place as ResetTables describes it. */
  predicate StoreFollows(s: Engine, e: Event) {
    match e
    case By(t, a) => t in s.threads && TransactionFollows(s, a, s.threads[t])
    case Arrive(_, _) => true
    case UpdateUser(user, disabled, next, failure) => Follows(s.tables, next, ResetTables.UpdateUser(s.tables, user, disabled), failure)
    case ListKeys(_) => true
    case Restart(next) => Recovered(s.tables, next)
  }

  predicate TransactionFollows(s: Engine, a: Action, p: Thread) {
    match a
    case CreateJob(job, rows, _, next, failure) => Follows(s.tables, next, Creation(s.tables, job, rows), failure)
    case StartJob(next, failure) => p.Runner? && Follows(s.tables, next, MarkJobRunning(s.tables, p.job), failure)
    case MarkItem(next, failure) => p.Worker? && Follows(s.tables, next, MarkItemRunning(s.tables, JobOf(s, p), p.item), failure)
    case CompleteItem(next, failure) => p.Worker? && Follows(s.tables, next, ResetTables.CompleteItem(s.tables, JobOf(s, p), p.item, p.status), failure)
    case FinishJob(next, failure) => p.Runner? && Follows(s.tables, next, ResetTables.FinishJob(s.tables, p.job), failure)
    case AbortJob(next, failure) => p.Runner? && Follows(s.tables, next, ResetTables.AbortJob(s.tables, p.job), failure)
    case ChangeUser(change, next, failure) => Follows(s.tables, next, ResetTables.ChangeUser(s.tables, change), failure)
    case _ => true
  }

  function Creation(t: Tables, job: JobId, rows: map<ItemId, Item>): Result<Tables> {
    if HasOpenJob(t) then Err(JobActive) else Ok(CreatedJob(t, job, rows))
  }

  /** The stages at which each step happens, and what the code checks of the state first. */
  predicate Enabled(s: Engine, e: Event) {
    match e
    case By(t, a) => t in s.threads && ActionEnabled(s, a, t, s.threads[t])
    case Arrive(t, p) => t !in s.threads && (p == Single(Waiting, 0, 0) || p == Creator(Outside) || p == Writer(false))
    case UpdateUser(_, _, _, _) => true
    case ListKeys(_) => true
    case Restart(_) => true
  }

  predicate ActionEnabled(s: Engine, a: Action, t: ThreadId, p: Thread) {
    match p
    case Single(at, _, _) => SingleEnabled(s, a, at)
    case Creator(inside) => CreatorEnabled(s, a, inside)
    case Runner(job, phase, _, _) => RunnerEnabled(s, a, t, job, phase)
    case Worker(runner, stage, _, _) => WorkerEnabled(s, a, runner, stage)
    case Writer(holding) => WriterEnabled(s, a, holding)
  }

  predicate Possible(s: Engine, e: Event) { Enabled(s, e) && StoreFollows(s, e) }

  function Broke(s: Engine, failure: Option<Error>): bool { s.ioFailed || failure == Some(IoError) }

  function Step(s: Engine, e: Event): Engine {
    match e
    case By(t, a) => if t in s.threads then ActionStep(s, a, t, s.threads[t]) else s
    case Arrive(t, p) => To(s, t, p)
    case UpdateUser(_, _, next, _) => s.(tables := next)
    case ListKeys(listed) => s.(tables := KeysListed(s.tables, listed))
    case Restart(next) =>
      Engine(next, None, {}, None, map[], map[], s.called, s.results,
             s.aborted + (set j | j in s.tables.jobs && Open(s.tables.jobs[j].status)), s.ioFailed)
  }

  function ActionStep(s: Engine, a: Action, t: ThreadId, p: Thread): Engine {
    match p
    case Single(_, _, _) => SingleStep(s, a, t, p)
    case Creator(_) => CreatorStep(s, a, t)
    case Runner(_, _, _, _) => RunnerStep(s, a, t, p)
    case Worker(_, _, _, _) => WorkerStep(s, a, t, p)
    case Writer(_) => WriterStep(s, a, t)
  }

  // resetUserQuota and setUserKeyLimits

  predicate SingleEnabled(s: Engine, a: Action, at: SingleStage) {
    match a
    case LockMaintenance => at.Waiting? && s.maintenance.None?
    case LockRead => at.Locked? && s.writer.None?
    case LoadUser(user) => at.Reading? && user in s.tables.users && Resettable(s.tables.users[user])
    case FindNoJob => at.Loaded? && !HasOpenJob(s.tables)
    case EnterGate => at.Cleared?
    case Call => at.Gated?
    case Return(_) => at.Calling?
    case UnlockRead => at.Returned? || at.Dropping?
    case LeaveGate => at.Unread?
    case GiveUp => at.Locked?
    case RefuseUser(user) => at.Reading? && !(user in s.tables.users && Resettable(s.tables.users[user]))
    case FindJob => at.Loaded? && HasOpenJob(s.tables)
    case ReadFails => at.Reading? || at.Loaded?
    case UnlockMaintenance => at.Leaving?
    case _ => false
  }

  function SingleStep(s: Engine, a: Action, t: ThreadId, p: Thread): Engine
    requires p.Single?
  {
    match a
    case LockMaintenance => To(s, t, p.(at := Locked)).(maintenance := Some(t))
    case LockRead => To(s, t, p.(at := Reading)).(readers := s.readers + {t})
    case LoadUser(user) => To(s, t, Single(Loaded, user, KeyBoundTo(s.tables, user)))
    case FindNoJob => To(s, t, p.(at := Cleared))
    case EnterGate =>
      var busy := p.key in s.gate;
      To(s, t, p.(at := if busy then Dropping else Gated)).(gate := if busy then s.gate else s.gate[p.key := t])
    case Call => To(s, t, p.(at := Calling))
    case Return(_) => To(s, t, p.(at := Returned))
    case UnlockRead => To(s, t, p.(at := if p.at.Returned? then Unread else Leaving)).(readers := s.readers - {t})
    case LeaveGate => To(s, t, p.(at := Leaving)).(gate := s.gate - {p.key})
    case GiveUp => To(s, t, p.(at := Leaving))
    case RefuseUser(_) => To(s, t, p.(at := Dropping))
    case FindJob => To(s, t, p.(at := Dropping))
    case ReadFails => To(s, t, p.(at := Dropping))
    case UnlockMaintenance => Gone(s, t).(maintenance := None)
    case _ => s
  }

  function KeyBoundTo(t: Tables, user: UserId): KeyId {
    if user in t.users && t.users[user].binding.Some? then t.users[user].binding.value.key else 0
  }

  // createQuotaResetJob

  predicate CreatorEnabled(s: Engine, a: Action, inside: CreatorStage) {
    match a
    case LockMaintenance => inside.Outside? && s.maintenance.None?
    case CreateJob(job, rows, runner, _, _) =>
      inside.Inside? && job !in s.tables.jobs && Snapshot(s.tables, job, rows) && runner !in s.threads
    case GiveUp => inside.Inside?
    case UnlockMaintenance => inside.Exiting?
    case _ => false
  }

  function CreatorStep(s: Engine, a: Action, t: ThreadId): Engine {
    match a
    case LockMaintenance => To(s, t, Creator(Inside)).(maintenance := Some(t))
    case CreateJob(job, _, runner, next, failure) =>
      var exiting := s.threads[t := Creator(Exiting)];
      s.(threads := if failure.None? then exiting[runner := Runner(job, Starting, [], false)] else exiting,
         tables := next, ioFailed := Broke(s, failure))
    case GiveUp => To(s, t, Creator(Exiting))
    case UnlockMaintenance => Gone(s, t).(maintenance := None)
    case _ => s
  }

  // runQuotaResetJob

  predicate RunnerEnabled(s: Engine, a: Action, t: ThreadId, job: JobId, phase: RunnerStage) {
    match a
    case StartJob(_, _) => phase.Starting?
    case LoadItems(queue, workers, _) =>
      phase.Loading? && Covers(s.tables, job, queue) && workers !! s.threads.Keys && |workers| == WORKERS
    case Drained => phase.Draining? && forall w :: w in s.threads && s.threads[w].Worker? ==> s.threads[w].runner != t
    case FinishJob(_, _) => phase.Finishing?
    case AbortJob(_, _) => phase.Aborting?
    case _ => false
  }

  function RunnerStep(s: Engine, a: Action, t: ThreadId, p: Thread): Engine
    requires p.Runner?
  {
    match a
    case StartJob(next, failure) =>
      To(s, t, p.(phase := if failure.None? then Loading else Aborting)).(tables := next, ioFailed := Broke(s, failure))
    case LoadItems(queue, workers, failed) =>
      s.(threads := if failed then s.threads[t := p.(phase := Aborting)]
                    else s.threads[t := p.(phase := Draining, queue := queue)] + map w | w in workers :: Worker(t, Idle, 0, Pending),
         ioFailed := s.ioFailed || failed)
    case Drained => To(s, t, p.(phase := if p.fatal then Aborting else Finishing))
    case FinishJob(next, failure) =>
      s.(threads := if failure.None? then s.threads - {t} else s.threads[t := p.(phase := Aborting)], tables := next, ioFailed := Broke(s, failure))
    case AbortJob(next, failure) =>
      Gone(s, t).(tables := next, ioFailed := Broke(s, failure),
                  aborted := if next != s.tables then s.aborted + {p.job} else s.aborted)
    case _ => s
  }

  // the workers of runQuotaResetJob, and runQuotaResetItem

  predicate WorkerEnabled(s: Engine, a: Action, runner: ThreadId, stage: WorkerStage) {
    match a
    case TakeItem => stage.Idle? && IsDraining(s, runner) && s.threads[runner].queue != []
    case WorkerDone => stage.Idle? && IsDraining(s, runner) && s.threads[runner].queue == []
    case MarkItem(_, _) => stage.Took?
    case LockRead => stage.Marked? && s.writer.None?
    case Validate(_) => stage.Holding?
    case EnterGate => stage.Valid?
    case Call => stage.InGate?
    case Return(_) => stage.InCall?
    case LeaveGate => stage.Back?
    case UnlockRead => stage.Ungated? || stage.Skipping? || stage.Breaking?
    case CompleteItem(_, _) => stage.Released?
    case ReportFatal => stage.Broken? && IsDraining(s, runner)
    case _ => false
  }

  function WorkerStep(s: Engine, a: Action, t: ThreadId, p: Thread): Engine
    requires p.Worker?
  {
    match a
    case TakeItem =>
      s.(threads := if IsDraining(s, p.runner) && s.threads[p.runner].queue != [] then Taken(s.threads, t, p, s.threads[p.runner]) else s.threads)
    case WorkerDone => Gone(s, t)
    case MarkItem(next, failure) =>
      To(s, t, p.(stage := if failure.None? then Marked else Broken)).(tables := next, ioFailed := Broke(s, failure))
    case LockRead => To(s, t, p.(stage := Holding)).(readers := s.readers + {t})
    case Validate(failed) =>
      To(s, t, p.(stage := if failed then Breaking else if StillResettable(s.tables, p.item) then Valid else Skipping))
        .(ioFailed := s.ioFailed || failed)
    case EnterGate =>
      var key := KeyOf(s.tables.items, p.item);
      var busy := key.None? || key.value in s.gate;
      To(s, t, p.(stage := if busy then Skipping else InGate)).(gate := if busy then s.gate else s.gate[key.value := t])
    case Call => To(s, t, p.(stage := InCall)).(called := s.called + {p.item})
    case Return(o) => To(s, t, p.(stage := Back, status := TerminalState(o))).(results := s.results[p.item := o])
    case LeaveGate =>
      var key := KeyOf(s.tables.items, p.item);
      To(s, t, p.(stage := Ungated)).(gate := if key.Some? then s.gate - {key.value} else s.gate)
    case UnlockRead => To(s, t, AfterUnlock(p)).(readers := s.readers - {t})
    case CompleteItem(next, failure) =>
      To(s, t, p.(stage := if failure.None? then Idle else Broken)).(tables := next, ioFailed := Broke(s, failure))
    case ReportFatal =>
      s.(threads := if IsDraining(s, p.runner) then s.threads[p.runner := s.threads[p.runner].(fatal := true)][t := p.(stage := Idle)] else s.threads)
    case _ => s
  }

  /** An item leaves the channel; a cancelled job only drains it. */
  function Taken(threads: map<ThreadId, Thread>, t: ThreadId, p: Thread, r: Thread): map<ThreadId, Thread>
    requires p.Worker? && r.Runner? && r.queue != []
  {
    threads[p.runner := r.(queue := r.queue[1..])][t := if r.fatal then p else p.(stage := Took, item := r.queue[0])]
  }

  function AfterUnlock(p: Thread): Thread
    requires p.Worker?
  {
    if p.stage.Breaking? then p.(stage := Broken)
    else if p.stage.Skipping? then p.(stage := Released, status := Skipped)
    else p.(stage := Released)
  }

  // createUser, setBinding, deleteBinding and deleteUser

  predicate WriterEnabled(s: Engine, a: Action, holding: bool) {
    match a
    case LockWrite => !holding && s.writer.None? && s.readers == {}
    case ChangeUser(_, _, _) => holding
    case UnlockWrite => holding
    case _ => false
  }

  function WriterStep(s: Engine, a: Action, t: ThreadId): Engine {
    match a
    case LockWrite => To(s, t, Writer(true)).(writer := Some(t))
    case ChangeUser(_, next, _) => s.(tables := next)
    case UnlockWrite => Gone(s, t).(writer := None)
    case _ => s
  }

  // ----- runs

  datatype Run = Start(tables: Tables) | Next(before: Run, event: Event)

  ghost function Now(run: Run): Engine {
    match run
    case Start(tables) => Engine(tables, None, {}, None, map[], map[], {}, map[], {}, false)
    case Next(before, e) => Step(Now(before), e)
  }

  /** From an installation with no job yet, by steps the code can take. */
  ghost predicate PossibleRun(run: Run) {
    match run
    case Start(tables) => tables.jobs == map[] && tables.items == map[] && UsersInv(tables.users)
    case Next(before, e) => PossibleRun(before) && Possible(Now(before), e)
  }
}
