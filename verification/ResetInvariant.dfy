/** What every step of ResetEngine keeps. */
module ResetInvariant {
  import opened Options
  import opened ResetTables
  import opened ResetEngine

  // ----- locks and gates

  predicate InMaintenance(s: Engine, t: ThreadId) { t in s.threads && HoldsMaintenance(s.threads[t]) }
  predicate IsReader(s: Engine, t: ThreadId) { t in s.threads && HoldsRead(s.threads[t]) }
  predicate IsWriter(s: Engine, t: ThreadId) { t in s.threads && HoldsWrite(s.threads[t]) }
  function Gate(s: Engine, t: ThreadId): Option<KeyId> { if t in s.threads then GateOf(s.tables.items, s.threads[t]) else None }

  /** The locks are held by exactly the threads whose stage says so, and a writer excludes readers. */
  ghost predicate LocksInv(s: Engine) {
    && (forall t: ThreadId :: InMaintenance(s, t) <==> s.maintenance == Some(t))
    && (forall t: ThreadId :: IsReader(s, t) <==> t in s.readers)
    && (forall t: ThreadId :: IsWriter(s, t) <==> s.writer == Some(t))
    && (s.writer.Some? ==> s.readers == {})
  }

  /** Every gate has one owner, and every thread past a gate owns it. */
  ghost predicate GatesInv(s: Engine) {
    && (forall t :: Gate(s, t).Some? ==> Gate(s, t).value in s.gate && s.gate[Gate(s, t).value] == t)
    && (forall k :: k in s.gate ==> Gate(s, s.gate[k]) == Some(k))
  }

  // ----- runners and workers

  ghost predicate RunnerFits(s: Engine, p: Thread)
    requires p.Runner?
  {
    && p.job in s.tables.jobs && (p.fatal ==> p.phase.Draining? || p.phase.Aborting?)
    && match p.phase
       case Starting => s.tables.jobs[p.job].status.Queued?
       case Loading => s.tables.jobs[p.job].status.Running? && forall i :: i in s.tables.items && s.tables.items[i].job == p.job ==> s.tables.items[i].status.Pending?
       case Draining => s.tables.jobs[p.job].status.Running? && QueueFits(s, p) && (p.fatal ==> s.ioFailed)
       case Finishing => s.tables.jobs[p.job].status.Running? && AllDone(s.tables, p.job)
       case Aborting => s.ioFailed
  }

  ghost predicate AllDone(t: Tables, job: JobId) {
    forall i :: i in t.items && t.items[i].job == job ==> Terminal(t.items[i].status)
  }

  /** What waits in the channel: items of the job, each once, still pending. */
  ghost predicate QueueFits(s: Engine, p: Thread)
    requires p.Runner?
  {
    && (forall i, k :: 0 <= i < k < |p.queue| ==> p.queue[i] != p.queue[k])
    && (forall i :: i in p.queue ==> i in s.tables.items && s.tables.items[i].job == p.job && s.tables.items[i].status.Pending?)
  }

  ghost predicate WorkerFits(s: Engine, p: Thread)
    requires p.Worker?
  {
    && IsDraining(s, p.runner)
    && (Busy(p) ==>
          && p.item in s.tables.items && s.tables.items[p.item].job == s.threads[p.runner].job
          && p.item !in s.threads[p.runner].queue
          && match p.stage
             case Took => s.tables.items[p.item].status.Pending?
             case Broken => s.ioFailed
             case Breaking => s.ioFailed && s.tables.items[p.item].status.InProgress?
             case _ => s.tables.items[p.item].status.InProgress?)
  }

  ghost predicate ThreadsInv(s: Engine) {
    && (forall t :: t in s.threads && s.threads[t].Runner? ==> RunnerFits(s, s.threads[t]))
    && (forall t :: t in s.threads && s.threads[t].Worker? ==> WorkerFits(s, s.threads[t]))
    && DistinctInv(s.threads)
  }

  /** No two runners have the same job, no two workers the same item. */
  ghost predicate DistinctInv(threads: map<ThreadId, Thread>) {
    && (forall t, u :: t in threads && u in threads && t != u && threads[t].Runner? && threads[u].Runner? ==> threads[t].job != threads[u].job)
    && (forall t, u :: t in threads && u in threads && t != u && Busy(threads[t]) && Busy(threads[u]) ==> threads[t].item != threads[u].item)
  }

  /** A channel with items in it still has a worker reading from it. */
  ghost predicate ServiceInv(s: Engine) {
    forall r :: r in s.threads && IsDraining(s, r) && s.threads[r].queue != [] ==> exists w :: Serves(s, w, r)
  }

  ghost predicate Serves(s: Engine, w: ThreadId, r: ThreadId) { w in s.threads && s.threads[w].Worker? && s.threads[w].runner == r }

  /** Unless its job is cancelled, every unfinished item waits in the channel or is in a worker's hands. */
  ghost predicate CoverageInv(s: Engine) {
    forall r, i :: r in s.threads && IsDraining(s, r) && !s.threads[r].fatal && i in s.tables.items &&
                   s.tables.items[i].job == s.threads[r].job && !Terminal(s.tables.items[i].status) ==>
                     i in s.threads[r].queue || exists w :: Owns(s, w, i)
  }

  ghost predicate Owns(s: Engine, w: ThreadId, i: ItemId) { w in s.threads && Busy(s.threads[w]) && s.threads[w].item == i }

  // ----- upstream calls and their outcomes

  ghost predicate CallFits(s: Engine, p: Thread)
    requires Busy(p)
  {
    match p.stage
    case InCall => p.item in s.called && p.item !in s.results
    case Back => p.item in s.results && p.status == TerminalState(s.results[p.item])
    case Ungated => p.item in s.results && p.status == TerminalState(s.results[p.item])
    case Released => if p.status.Skipped? then p.item !in s.called else p.item in s.results && p.status == TerminalState(s.results[p.item])
    case Broken => true
    case _ => p.item !in s.called
  }

  ghost predicate OutcomeFits(s: Engine, i: ItemId)
    requires i in s.tables.items
  {
    match s.tables.items[i].status
    case Pending => i !in s.called
    case InProgress => true
    case Succeeded => i in s.results && s.results[i].Applied?
    case Failed => i in s.results && s.results[i].Refused?
    case Unknown => (i in s.results && s.results[i].Lost?) || s.tables.items[i].job in s.aborted
    case Skipped => i !in s.called
  }

  ghost predicate CallsInv(s: Engine) {
    && (forall i :: i in s.called ==> i in s.tables.items)
    && (forall i :: i in s.results ==> i in s.called)
    && (forall i :: i in s.tables.items ==> OutcomeFits(s, i))
    && (forall t :: t in s.threads && Busy(s.threads[t]) ==> CallFits(s, s.threads[t]))
    && (forall j :: j in s.aborted ==> j in s.tables.jobs && s.tables.jobs[j].status.Completed?)
  }

  // ----- what a thread has checked still holds

  predicate ReliesOnBinding(p: Thread) {
    || (p.Single? && (p.at.Loaded? || p.at.Cleared? || p.at.Gated? || p.at.Calling? || p.at.Returned?))
    || (p.Worker? && (p.stage.Valid? || p.stage.InGate? || p.stage.InCall? || p.stage.Back?))
  }

  ghost predicate BindingHolds(t: Tables, p: Thread)
    requires ReliesOnBinding(p)
  {
    if p.Single? then BoundTo(t, p.user, p.key)
    else p.item in t.items && t.items[p.item].key.Some? && BoundTo(t, t.items[p.item].user, t.items[p.item].key.value)
  }

  ghost predicate BindingsInv(s: Engine) {
    forall t :: t in s.threads && ReliesOnBinding(s.threads[t]) ==> BindingHolds(s.tables, s.threads[t])
  }

  predicate ReliesOnNoJob(p: Thread) { p.Single? && (p.at.Cleared? || p.at.Gated? || p.at.Calling? || p.at.Returned? || p.at.Unread?) }

  ghost predicate NoJobInv(s: Engine) {
    forall t :: t in s.threads && ReliesOnNoJob(s.threads[t]) ==> !HasOpenJob(s.tables)
  }

  ghost predicate Inv(s: Engine) {
    && TablesInv(s.tables) && LocksInv(s) && GatesInv(s) && ThreadsInv(s) && ServiceInv(s) && CoverageInv(s) && CallsInv(s)
    && BindingsInv(s) && NoJobInv(s)
  }

  // ----- what the transactions do to the rows, apart from counters

  ghost predicate SameStatuses(before: map<JobId, Job>, after: map<JobId, Job>) {
    after.Keys == before.Keys && forall j :: j in before ==> after[j].status == before[j].status
  }

  /** One item changes its status. */
  ghost predicate ItemSet(before: Tables, after: Tables, item: ItemId, s: ItemStatus) {
    && after.users == before.users && SameStatuses(before.jobs, after.jobs)
    && item in before.items && after.items == before.items[item := before.items[item].(status := s)]
  }

  /** One job changes its status. */
  ghost predicate JobSet(before: Tables, after: Tables, job: JobId, s: JobStatus) {
    && after.users == before.users && after.jobs.Keys == before.jobs.Keys && job in before.jobs
    && forall j :: j in before.jobs ==> after.jobs[j].status == if j == job then s else before.jobs[j].status
  }

  lemma MarkItemEffect(t: Tables, next: Tables, job: JobId, item: ItemId, failure: Option<Error>)
    requires Follows(t, next, MarkItemRunning(t, job, item), failure)
    requires JobRuns(t, job) && item in t.items && t.items[item].job == job && t.items[item].status.Pending?
    ensures failure.None? || failure == Some(IoError)
    ensures ItemSet(t, next, item, InProgress) || (next == t && failure.Some?)
  {
  }

  lemma CompleteItemEffect(t: Tables, next: Tables, job: JobId, item: ItemId, s: ItemStatus, failure: Option<Error>)
    requires Follows(t, next, ResetTables.CompleteItem(t, job, item, s), failure)
    requires JobRuns(t, job) && item in t.items && t.items[item].job == job && !Terminal(t.items[item].status) && Terminal(s)
    ensures failure.None? || failure == Some(IoError)
    ensures ItemSet(t, next, item, s) || (next == t && failure.Some?)
  {
  }

  lemma StartJobEffect(t: Tables, next: Tables, job: JobId, failure: Option<Error>)
    requires Follows(t, next, MarkJobRunning(t, job), failure) && job in t.jobs && t.jobs[job].status.Queued?
    ensures failure.None? || failure == Some(IoError)
    ensures next.items == t.items && (JobSet(t, next, job, Running) || (next == t && failure.Some?))
  {
  }

  lemma FinishJobEffect(t: Tables, next: Tables, job: JobId, failure: Option<Error>)
    requires Follows(t, next, ResetTables.FinishJob(t, job), failure) && JobRuns(t, job) && AllDone(t, job)
    ensures failure.None? || failure == Some(IoError)
    ensures next.items == t.items && (JobSet(t, next, job, Completed) || (next == t && failure.Some?))
  {
    FinishJobSucceedsWhenDrained(t, job);
  }

  lemma AbortJobEffect(t: Tables, next: Tables, job: JobId, failure: Option<Error>)
    requires Follows(t, next, ResetTables.AbortJob(t, job), failure) && job in t.jobs
    ensures next == t || (next.items == GiveUpItems(t.items, job) && JobSet(t, next, job, Completed) && Open(t.jobs[job].status))
    ensures failure.None? ==> next.jobs[job].status.Completed?
    ensures failure.None? || failure == Some(IoError)
  {
  }

  ghost predicate JobAdded(before: Tables, after: Tables, job: JobId, rows: map<ItemId, Item>) {
    && !HasOpenJob(before) && after.users == before.users && after.items == before.items + rows
    && job in after.jobs && after.jobs == before.jobs[job := after.jobs[job]] && after.jobs[job].status.Queued?
  }

  lemma CreateJobEffect(t: Tables, next: Tables, job: JobId, rows: map<ItemId, Item>, failure: Option<Error>)
    requires Follows(t, next, Creation(t, job, rows), failure)
    ensures JobAdded(t, next, job, rows) || (next == t && failure.Some?)
  {
  }

  lemma FollowingIsSound(before: Tables, after: Tables, transaction: Result<Tables>, failure: Option<Error>)
    requires TablesInv(before) && Follows(before, after, transaction, failure)
    requires transaction.Ok? ==> TablesInv(transaction.value) && Advances(before, transaction.value)
    ensures TablesInv(after) && Advances(before, after)
  {
  }

  // ----- locks and gates

  predicate HoldsNothing(p: Thread) { !HoldsMaintenance(p) && !HoldsRead(p) && !HoldsWrite(p) }

  /** A thread goes from `p` to `q` (None: it ends); the locks follow its stage. */
  ghost predicate LocksFollow(s: Engine, n: Engine, t: ThreadId, p: Thread, q: Option<Thread>) {
    && n.maintenance == (if q.Some? && HoldsMaintenance(q.value) then Some(t) else if HoldsMaintenance(p) then None else s.maintenance)
    && n.readers == (if q.Some? && HoldsRead(q.value) then s.readers + {t} else s.readers - {t})
    && n.writer == (if q.Some? && HoldsWrite(q.value) then Some(t) else if HoldsWrite(p) then None else s.writer)
    && (q.Some? ==>
          && (HoldsMaintenance(q.value) && !HoldsMaintenance(p) ==> s.maintenance.None?)
          && (HoldsRead(q.value) && !HoldsRead(p) ==> s.writer.None?)
          && (HoldsWrite(q.value) && !HoldsWrite(p) ==> s.writer.None? && s.readers == {})
          && !(HoldsRead(q.value) && HoldsWrite(q.value)))
  }

  predicate Replaced(s: Engine, n: Engine, t: ThreadId, q: Option<Thread>) {
    n.threads == if q.Some? then s.threads[t := q.value] else s.threads - {t}
  }

  lemma FollowingLocksFit(s: Engine, n: Engine, t: ThreadId, q: Option<Thread>)
    requires LocksInv(s) && t in s.threads && Replaced(s, n, t, q) && LocksFollow(s, n, t, s.threads[t], q)
    ensures LocksInv(n)
  {
    assert InMaintenance(s, t) == HoldsMaintenance(s.threads[t]) && IsWriter(s, t) == HoldsWrite(s.threads[t]);
    assert InMaintenance(n, t) == (q.Some? && HoldsMaintenance(q.value)) && IsWriter(n, t) == (q.Some? && HoldsWrite(q.value));
    assert forall u: ThreadId :: u != t ==> InMaintenance(n, u) == InMaintenance(s, u);
    assert forall u: ThreadId :: u != t ==> IsReader(n, u) == IsReader(s, u);
    assert forall u: ThreadId :: u != t ==> IsWriter(n, u) == IsWriter(s, u);
  }

  /** Threads that hold no lock before or after do not matter. */
  lemma UnlockedThreadsChange(s: Engine, n: Engine)
    requires LocksInv(s) && n.maintenance == s.maintenance && n.readers == s.readers && n.writer == s.writer
    requires forall t :: t in s.threads && !HoldsNothing(s.threads[t]) ==> t in n.threads && n.threads[t] == s.threads[t]
    requires forall t :: t in n.threads && !HoldsNothing(n.threads[t]) ==> t in s.threads && n.threads[t] == s.threads[t]
    ensures LocksInv(n)
  {
    assert forall u: ThreadId :: InMaintenance(n, u) == InMaintenance(s, u);
    assert forall u: ThreadId :: IsReader(n, u) == IsReader(s, u);
    assert forall u: ThreadId :: IsWriter(n, u) == IsWriter(s, u);
  }

  lemma SingleKeepsLocks(s: Engine, a: Action, t: ThreadId, p: Thread)
    requires LocksInv(s) && t in s.threads && s.threads[t] == p && p.Single? && SingleEnabled(s, a, p.at)
    ensures LocksInv(SingleStep(s, a, t, p))
  {
    var n := SingleStep(s, a, t, p);
    assert InMaintenance(s, t) <==> s.maintenance == Some(t);
    assert IsReader(s, t) <==> t in s.readers;
    FollowingLocksFit(s, n, t, if a.UnlockMaintenance? then None else Some(n.threads[t]));
  }

  lemma WriterKeepsLocks(s: Engine, a: Action, t: ThreadId, p: Thread)
    requires LocksInv(s) && t in s.threads && s.threads[t] == p && p.Writer? && WriterEnabled(s, a, p.holding)
    ensures LocksInv(WriterStep(s, a, t))
  {
    var n := WriterStep(s, a, t);
    assert IsReader(s, t) <==> t in s.readers;
    FollowingLocksFit(s, n, t, if a.UnlockWrite? then None else Some(n.threads[t]));
  }

  lemma CreatorKeepsLocks(s: Engine, a: Action, t: ThreadId, p: Thread)
    requires LocksInv(s) && t in s.threads && s.threads[t] == p && p.Creator? && CreatorEnabled(s, a, p.inside)
    ensures LocksInv(CreatorStep(s, a, t))
  {
    var n := CreatorStep(s, a, t);
    assert InMaintenance(s, t) <==> s.maintenance == Some(t);
    assert IsReader(s, t) <==> t in s.readers;
    if a.CreateJob? {
      var alone := To(s, t, Creator(Exiting));
      FollowingLocksFit(s, alone, t, Some(Creator(Exiting)));
      UnlockedThreadsChange(alone, n);
    } else {
      FollowingLocksFit(s, n, t, if a.UnlockMaintenance? then None else Some(n.threads[t]));
    }
  }

  /** The channel and the job's error carry no lock. */
  lemma ChannelKeepsLocks(s: Engine, a: Action, t: ThreadId, p: Thread)
    requires LocksInv(s) && t in s.threads && s.threads[t] == p && p.Worker? && WorkerEnabled(s, a, p.runner, p.stage)
    requires a.TakeItem? || a.ReportFatal? || a.WorkerDone?
    ensures LocksInv(WorkerStep(s, a, t, p))
  {
    UnlockedThreadsChange(s, WorkerStep(s, a, t, p));
  }

  lemma WorkerKeepsLocks(s: Engine, a: Action, t: ThreadId, p: Thread)
    requires LocksInv(s) && t in s.threads && s.threads[t] == p && p.Worker? && WorkerEnabled(s, a, p.runner, p.stage)
    ensures LocksInv(WorkerStep(s, a, t, p))
  {
    if a.TakeItem? || a.ReportFatal? || a.WorkerDone? {
      ChannelKeepsLocks(s, a, t, p);
    } else {
      var n := WorkerStep(s, a, t, p);
      assert IsReader(s, t) <==> t in s.readers;
      FollowingLocksFit(s, n, t, Some(n.threads[t]));
    }
  }

  lemma RunnerKeepsLocks(s: Engine, a: Action, t: ThreadId, p: Thread)
    requires LocksInv(s) && t in s.threads && s.threads[t] == p && p.Runner? && RunnerEnabled(s, a, t, p.job, p.phase)
    ensures LocksInv(RunnerStep(s, a, t, p))
  {
    UnlockedThreadsChange(s, RunnerStep(s, a, t, p));
  }

  lemma ActionKeepsLocks(s: Engine, a: Action, t: ThreadId)
    requires LocksInv(s) && t in s.threads && ActionEnabled(s, a, t, s.threads[t])
    ensures LocksInv(ActionStep(s, a, t, s.threads[t]))
  {
    match s.threads[t]
    case Single(_, _, _) => SingleKeepsLocks(s, a, t, s.threads[t]);
    case Creator(_) => CreatorKeepsLocks(s, a, t, s.threads[t]);
    case Runner(_, _, _, _) => RunnerKeepsLocks(s, a, t, s.threads[t]);
    case Worker(_, _, _, _) => WorkerKeepsLocks(s, a, t, s.threads[t]);
    case Writer(_) => WriterKeepsLocks(s, a, t, s.threads[t]);
  }

  lemma StepKeepsLocks(s: Engine, e: Event)
    requires LocksInv(s) && Enabled(s, e)
    ensures LocksInv(Step(s, e))
  {
    if e.By? {
      ActionKeepsLocks(s, e.action, e.t);
    } else if !e.Restart? {
      UnlockedThreadsChange(s, Step(s, e));
    }
  }

  // ----- the rows

  lemma RunnerKeepsTables(s: Engine, a: Action, t: ThreadId, p: Thread)
    requires TablesInv(s.tables) && p.Runner? && TransactionFollows(s, a, p) && RunnerEnabled(s, a, t, p.job, p.phase) && p.job in s.tables.jobs
    ensures TablesInv(RunnerStep(s, a, t, p).tables) && Advances(s.tables, RunnerStep(s, a, t, p).tables)
  {
    match a
    case StartJob(next, failure) =>
      if MarkJobRunning(s.tables, p.job).Ok? {
        MarkJobRunningIsSound(s.tables, p.job);
      }
      FollowingIsSound(s.tables, next, MarkJobRunning(s.tables, p.job), failure);
    case FinishJob(next, failure) =>
      if ResetTables.FinishJob(s.tables, p.job).Ok? {
        FinishJobIsSound(s.tables, p.job);
      }
      FollowingIsSound(s.tables, next, ResetTables.FinishJob(s.tables, p.job), failure);
    case AbortJob(next, failure) =>
      AbortJobIsSound(s.tables, p.job);
      FollowingIsSound(s.tables, next, ResetTables.AbortJob(s.tables, p.job), failure);
    case _ =>
  }

  lemma MarkingIsSound(t: Tables, job: JobId, item: ItemId)
    requires TablesInv(t) && MarkItemRunning(t, job, item).Ok?
    ensures TablesInv(MarkItemRunning(t, job, item).value) && Advances(t, MarkItemRunning(t, job, item).value)
  {
    SetItemIsSound(t, job, item, InProgress);
  }

  lemma CompletionIsSound(t: Tables, job: JobId, item: ItemId, s: ItemStatus)
    requires TablesInv(t) && ResetTables.CompleteItem(t, job, item, s).Ok?
    ensures TablesInv(ResetTables.CompleteItem(t, job, item, s).value) && Advances(t, ResetTables.CompleteItem(t, job, item, s).value)
  {
    SetItemIsSound(t, job, item, s);
  }

  lemma WorkerKeepsTables(s: Engine, a: Action, t: ThreadId, p: Thread)
    requires TablesInv(s.tables) && p.Worker? && TransactionFollows(s, a, p) && WorkerEnabled(s, a, p.runner, p.stage)
    ensures TablesInv(WorkerStep(s, a, t, p).tables) && Advances(s.tables, WorkerStep(s, a, t, p).tables)
  {
    var job := JobOf(s, p);
    match a
    case MarkItem(next, failure) =>
      if MarkItemRunning(s.tables, job, p.item).Ok? {
        MarkingIsSound(s.tables, job, p.item);
      }
      FollowingIsSound(s.tables, next, MarkItemRunning(s.tables, job, p.item), failure);
    case CompleteItem(next, failure) =>
      if ResetTables.CompleteItem(s.tables, job, p.item, p.status).Ok? {
        CompletionIsSound(s.tables, job, p.item, p.status);
      }
      FollowingIsSound(s.tables, next, ResetTables.CompleteItem(s.tables, job, p.item, p.status), failure);
    case _ =>
  }

  lemma OthersKeepTables(s: Engine, a: Action, t: ThreadId, p: Thread)
    requires TablesInv(s.tables) && (p.Single? || p.Creator? || p.Writer?) && TransactionFollows(s, a, p) && ActionEnabled(s, a, t, p)
    ensures TablesInv(ActionStep(s, a, t, p).tables) && Advances(s.tables, ActionStep(s, a, t, p).tables)
  {
    match a
    case CreateJob(job, rows, _, next, failure) =>
      if !HasOpenJob(s.tables) {
        CreatedJobIsSound(s.tables, job, rows);
      }
      FollowingIsSound(s.tables, next, Creation(s.tables, job, rows), failure);
    case ChangeUser(change, next, failure) =>
      if ResetTables.ChangeUser(s.tables, change).Ok? {
        ChangeUserIsSound(s.tables, change);
      }
      FollowingIsSound(s.tables, next, ResetTables.ChangeUser(s.tables, change), failure);
    case _ =>
  }
}
