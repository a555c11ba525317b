/**
 The code of internal/httpapi/quota_resets.go, one method per Go function, as one goroutine runs it.
 Between any two of its steps the other goroutines take theirs, and the process may be restarted; then, or
 when a lock stays taken, `alive` is false and the remaining calls do nothing.  Every step the code takes
 is proved to be one ResetEngine allows at that stage, so `Valid`, and with it every theorem of
 ResetTheorems, holds throughout.
 */
module ResetServer {
  import opened Options
  import opened ResetTables
  import opened ResetEngine
  import opened ResetInvariant
  import opened ResetTheorems
  import opened ResetWork
  import opened ResetChecks

  /** Workers change the channel and the error of the runner they serve; nobody else's place is touched. */
  predicate SamePlace(p: Thread, q: Thread) {
    q == p || (p.Runner? && p.phase.Draining? && q.Runner? && q.job == p.job && q.phase == p.phase)
  }

  lemma OthersKeepTheirPlace(s: Engine, e: Event, t: ThreadId)
    requires Possible(s, e) && t in s.threads && !e.Restart? && !(e.By? && e.t == t)
    ensures t in Step(s, e).threads && SamePlace(s.threads[t], Step(s, e).threads[t])
  {
    if e.By? {
      ActionLeavesOthers(s, e.action, e.t, s.threads[e.t], t);
    }
  }

  lemma ActionLeavesOthers(s: Engine, a: Action, u: ThreadId, p: Thread, t: ThreadId)
    requires u in s.threads && s.threads[u] == p && ActionEnabled(s, a, u, p) && t in s.threads && t != u
    ensures t in ActionStep(s, a, u, p).threads && SamePlace(s.threads[t], ActionStep(s, a, u, p).threads[t])
  {
    match p
    case Single(_, _, _) => SingleLeavesOthers(s, a, u, p, t);
    case Worker(_, _, _, _) => WorkerLeavesOthers(s, a, u, p, t);
    case _ => OtherLeavesOthers(s, a, u, p, t);
  }

  lemma SingleLeavesOthers(s: Engine, a: Action, u: ThreadId, p: Thread, t: ThreadId)
    requires u in s.threads && s.threads[u] == p && p.Single? && SingleEnabled(s, a, p.at) && t in s.threads && t != u
    ensures t in SingleStep(s, a, u, p).threads && SingleStep(s, a, u, p).threads[t] == s.threads[t]
  {
  }

  lemma WorkerLeavesOthers(s: Engine, a: Action, u: ThreadId, p: Thread, t: ThreadId)
    requires u in s.threads && s.threads[u] == p && p.Worker? && WorkerEnabled(s, a, p.runner, p.stage) && t in s.threads && t != u
    ensures t in WorkerStep(s, a, u, p).threads && SamePlace(s.threads[t], WorkerStep(s, a, u, p).threads[t])
  {
  }

  lemma OtherLeavesOthers(s: Engine, a: Action, u: ThreadId, p: Thread, t: ThreadId)
    requires u in s.threads && s.threads[u] == p && (p.Creator? || p.Runner? || p.Writer?) && ActionEnabled(s, a, u, p) && t in s.threads && t != u
    ensures t in ActionStep(s, a, u, p).threads && ActionStep(s, a, u, p).threads[t] == s.threads[t]
  {
  }

  /** What this thread has done, in order. */
  ghost function Did(run: Run, t: ThreadId): seq<Action> {
    match run
    case Start(_) => []
    case Next(before, e) => if e.By? && e.t == t then Did(before, t) + [e.action] else Did(before, t)
  }

  lemma Joined(a: seq<Action>, b: seq<Action>, c: seq<Action>)
    ensures a + b + c == a + (b + c)
  {
  }

  /** How a single mutation is answered. */
  datatype Answer =
    | UpdateInProgress
    | NotAvailable
    | BatchActive
    | Busy
    | StoreError(loaded: bool)
    | Answered(outcome: Outcome)

  /** The steps of the handler up to that answer: the checks in their order, and every lock it has taken given back. */
  function Program(user: UserId, answer: Answer): seq<Action> {
    [LockMaintenance] + if answer.UpdateInProgress? then [GiveUp, UnlockMaintenance] else ReadingSteps(user, answer)
  }

  function ReadingSteps(user: UserId, answer: Answer): seq<Action> { [LockRead] + UserSteps(user, answer) }

  function UserSteps(user: UserId, answer: Answer): seq<Action> {
    match answer
    case NotAvailable => [RefuseUser(user), UnlockRead, UnlockMaintenance]
    case StoreError(false) => [ReadFails, UnlockRead, UnlockMaintenance]
    case _ => [LoadUser(user)] + JobSteps(answer)
  }

  function JobSteps(answer: Answer): seq<Action> {
    match answer
    case BatchActive => [FindJob, UnlockRead, UnlockMaintenance]
    case StoreError(_) => [ReadFails, UnlockRead, UnlockMaintenance]
    case _ => [FindNoJob] + KeySteps(answer)
  }

  function KeySteps(answer: Answer): seq<Action> { [EnterGate] + GateSteps(answer) }

  function GateSteps(answer: Answer): seq<Action> {
    if answer.Answered? then [Call, Return(answer.outcome), UnlockRead, LeaveGate, UnlockMaintenance] else [UnlockRead, UnlockMaintenance]
  }

  class Goroutine {
    const me: ThreadId
    var engine: Engine
    var alive: bool
    ghost var run: Run
    ghost var interruptions: nat  // restarts of the process, and locks that stay taken
    ghost var failures: nat       // failing store calls of this goroutine

    /** Nobody has come back to life, and only an interruption has ended anybody. */
    twostate predicate Aged()
      reads this
    {
      old(interruptions) <= interruptions && (alive ==> old(alive)) && (old(alive) && interruptions == old(interruptions) ==> alive)
    }

    /** The goroutine was at work and has not been interrupted since. */
    twostate predicate Smooth()
      reads this
    {
      old(alive) && interruptions == old(interruptions)
    }

    /** And none of its store calls has failed. */
    twostate predicate Fine()
      reads this
    {
      Smooth() && failures == old(failures)
    }

    /** What this goroutine has done meanwhile, if it was not interrupted. */
    twostate predicate Acted(actions: seq<Action>)
      reads this
    {
      old(failures) <= failures && (Smooth() ==> Did(run, me) == old(Did(run, me)) + actions)
    }

    /** The goroutine has come to its end, unless it was interrupted. */
    twostate predicate Over()
      reads this
    {
      !alive && old(interruptions) <= interruptions && (Smooth() ==> me !in engine.threads)
    }

    /** The last step of the run was this one, by this goroutine. */
    ghost predicate JustDid(a: Action)
      reads this
    {
      run.Next? && run.event == By(me, a)
    }

    /** The state before the last step. */
    ghost function Before(): Engine
      reads this
      requires run.Next?
    {
      Now(run.before)
    }

    /** The present is where a possible run has led. */
    ghost predicate Valid()
      reads this
    {
      PossibleRun(run) && Now(run) == engine
    }

    /** The goroutine, if it still runs, has come to this point. */
    ghost predicate At(p: Thread)
      reads this
    {
      alive ==> me in engine.threads && SamePlace(p, engine.threads[me])
    }

    constructor (tables: Tables, me: ThreadId)
      requires tables.jobs == map[] && tables.items == map[] && UsersInv(tables.users)
      ensures Valid() && !alive && this.me == me && engine.tables == tables
    {
      this.me := me;
      alive, interruptions, failures := false, 0, 0;
      engine := Engine(tables, None, {}, None, map[], map[], {}, map[], {}, false);
      run := Start(tables);
    }

    method Interrupt()
      modifies `alive, `interruptions
      ensures !alive && interruptions == old(interruptions) + 1
    {
      alive, interruptions := false, interruptions + 1;
    }

    /** The other goroutines run for a while; the process may be restarted. */
    method Yield(ghost p: Thread)
      requires Valid() && At(p)
      modifies this
      ensures Valid() && At(p) && Aged() && Acted([]) && failures == old(failures)
    {
      var steps: nat := *;
      while steps > 0
        invariant Valid() && At(p) && Aged() && Acted([]) && failures == old(failures)
      {
        var e: Event := *;
        if Possible(engine, e) && !(e.By? && e.t == me) {
          if e.Restart? {
            Interrupt();
          }
          if alive {
            OthersKeepTheirPlace(engine, e, me);
          }
          engine, run := Step(engine, e), Next(run, e);
        }
        steps := steps - 1;
      }
    }

    /** This goroutine's own step; the others run before it. */
    method Do(a: Action, ghost p: Thread)
      requires Valid() && At(p) && (alive ==> ActionEnabled(engine, a, me, engine.threads[me]) && TransactionFollows(engine, a, engine.threads[me]))
      modifies this
      ensures Valid() && alive == old(alive) && interruptions == old(interruptions) && failures == old(failures) && Acted([a])
      ensures alive ==> engine == Step(old(engine), By(me, a)) && run == Next(old(run), By(me, a))
    {
      if alive {
        engine, run := Step(engine, By(me, a)), Next(run, By(me, a));
      }
    }

    /** A statement may fail. */
    method StatementFails() returns (failed: bool)
      modifies `failures
      ensures failures == old(failures) + if failed then 1 else 0
    {
      failed := *;
      failures := failures + if failed then 1 else 0;
    }

    /** A store call: any outcome its transaction allows. */
    method CallStore(transaction: Result<Tables>) returns (next: Tables, failure: Option<Error>)
      modifies `failures
      ensures Follows(engine.tables, next, transaction, failure)
      ensures old(failures) <= failures
      ensures failures == old(failures) ==> failure == if transaction.Err? then Some(transaction.error) else None
    {
      var fails := StatementFails();
      var late: bool := *;
      if transaction.Err? {
        return engine.tables, Some(if fails then IoError else transaction.error);
      }
      if fails {
        return if late then transaction.value else engine.tables, Some(IoError);
      }
      return transaction.value, None;
    }

    // ----- locks and gates

    /** bindingMu.RLock */
    method LockForReading(ghost p: Thread)
      requires Valid() && At(p) && ((p.Single? && p.at.Locked?) || (p.Worker? && p.stage.Marked?))
      modifies this
      ensures Valid() && Aged()
      ensures At(if p.Single? then p.(at := Reading) else if p.Worker? then p.(stage := Holding) else p)
      ensures Acted([LockRead]) && failures == old(failures)
    {
      Yield(p);
      if alive && engine.writer.Some? {
        Interrupt();  // still waiting
      }
      Do(LockRead, p);
    }

    /** bindingMu.RUnlock */
    method UnlockForReading(ghost p: Thread)
      requires Valid() && At(p)
      requires if p.Single? then p.at.Returned? || p.at.Dropping? else p.Worker? && (p.stage.Ungated? || p.stage.Skipping? || p.stage.Breaking?)
      modifies this
      ensures Valid() && Aged()
      ensures At(if p.Worker? then AfterUnlock(p) else if p.Single? then p.(at := if p.at.Returned? then Unread else Leaving) else p)
      ensures Acted([UnlockRead]) && failures == old(failures)
    {
      Yield(p);
      Do(UnlockRead, p);
    }

    /** maintenanceMu.Lock */
    method LockMaintenanceMu(ghost p: Thread)
      requires Valid() && At(p) && ((p.Single? && p.at.Waiting?) || p == Creator(Outside))
      modifies this
      ensures Valid() && Aged() && At(if p.Single? then p.(at := Locked) else Creator(Inside))
      ensures Acted([LockMaintenance]) && failures == old(failures)
    {
      Yield(p);
      if alive && engine.maintenance.Some? {
        Interrupt();  // still waiting
      }
      Do(LockMaintenance, p);
    }

    /** The deferred maintenanceMu.Unlock, which ends the handler. */
    method UnlockMaintenanceMu(ghost p: Thread)
      requires Valid() && At(p) && ((p.Single? && p.at.Leaving?) || p == Creator(Exiting))
      modifies this
      ensures Valid() && Over() && Acted([UnlockMaintenance]) && failures == old(failures)
    {
      Yield(p);
      Do(UnlockMaintenance, p);
      alive := false;
    }

    /** beginQuotaReset in a worker: its key is never busy. */
    method BeginQuotaReset(ghost p: Thread) returns (entered: bool)
      requires Valid() && At(p) && p.Worker? && p.stage.Valid?
      modifies this
      ensures Valid() && Aged() && At(p.(stage := if entered then InGate else Skipping))
      ensures (alive ==> entered) && failures == old(failures)
    {
      Yield(p);
      if alive {
        WorkerFindsItsGateOpen(run, me);
      }
      Do(EnterGate, p);
      entered := alive && me in engine.threads && engine.threads[me].Worker? && engine.threads[me].stage.InGate?;
    }

    /** endQuotaReset */
    method EndQuotaReset(ghost p: Thread)
      requires Valid() && At(p) && p.Worker? && p.stage.Back?
      modifies this
      ensures Valid() && Aged() && At(p.(stage := Ungated)) && failures == old(failures)
    {
      Yield(p);
      Do(LeaveGate, p);
    }

    // ----- runQuotaResetItem

    /** The item in a worker's hands belongs to the running job its runner works on. */
    lemma MyItemIsKnown()
      requires Valid()
      ensures me in engine.threads && ResetEngine.Busy(engine.threads[me]) ==> Knows(engine, engine.threads[me])
    {
      RunKeepsInv(run);
      if me in engine.threads && ResetEngine.Busy(engine.threads[me]) {
        WorkIsKnown(engine, me);
      }
    }

    method MarkQuotaResetItemRunning(ghost p: Thread, item: ItemId) returns (ok: bool)
      requires Valid() && At(p) && p.Worker? && p.stage.Took? && p.item == item
      modifies this
      ensures Valid() && Aged() && At(p.(stage := if ok then Marked else Broken))
      ensures old(failures) <= failures && (Fine() ==> ok)
    {
      Yield(p);
      MyItemIsKnown();
      var next, failure := CallStore(if alive then MarkItemRunning(engine.tables, JobOf(engine, engine.threads[me]), item) else Err(NotFound));
      Do(MarkItem(next, failure), p);
      ok := failure.None?;
    }

    method ValidateQuotaResetItem(ghost p: Thread, item: ItemId) returns (found: WorkerStage)
      requires Valid() && At(p) && p.Worker? && p.stage.Holding? && p.item == item
      modifies this
      ensures Valid() && Aged() && At(p.(stage := found))
      ensures found in {Breaking, ResetEngine.Valid, Skipping}
      ensures old(failures) <= failures && (Fine() ==> !found.Breaking?)
      // it goes on exactly with an active or disabled user, no administrator, still bound to the key of the item, which is listed
      ensures alive && !found.Breaking? ==> (found.Valid? <==> ItemMayBeReset(engine.tables, item))
    {
      Yield(p);
      var unreadable := StatementFails();
      found := if unreadable then Breaking else if StillResettable(engine.tables, item) then ResetEngine.Valid else Skipping;
      Do(Validate(unreadable), p);
    }

    /** The upstream call, which may apply, refuse or never answer. */
    method ResetQuota(ghost p: Thread) returns (outcome: Outcome)
      requires Valid() && At(p) && p.Worker? && p.stage.InGate?
      modifies this
      ensures Valid() && Aged() && At(p.(stage := Back, status := TerminalState(outcome))) && failures == old(failures)
    {
      Yield(p);
      Do(Call, p);
      outcome := *;
      AwaitAnswer(p.(stage := InCall), outcome);
    }

    method AwaitAnswer(ghost p: Thread, outcome: Outcome)
      requires Valid() && At(p) && p.Worker? && p.stage.InCall?
      modifies this
      ensures Valid() && Aged() && At(p.(stage := Back, status := TerminalState(outcome))) && failures == old(failures)
    {
      Yield(p);
      Do(Return(outcome), p);
    }

    method CompleteQuotaResetItem(ghost p: Thread, item: ItemId, status: ItemStatus) returns (ok: bool)
      requires Valid() && p.Worker? && p.stage.Released? && p.item == item && p.status == status && At(p)
      modifies this
      ensures Valid() && Aged() && At(p.(stage := if ok then Idle else Broken))
      ensures old(failures) <= failures && (Fine() ==> ok)
      ensures alive && ok ==> item in engine.tables.items && engine.tables.items[item].status == status
    {
      Yield(p);
      MyItemIsKnown();
      var next, failure := CallStore(if alive then ResetTables.CompleteItem(engine.tables, JobOf(engine, engine.threads[me]), item, status) else Err(NotFound));
      Do(CompleteItem(next, failure), p);
      ok := failure.None?;
    }

    /** runQuotaResetItem; the result is whether it returned nil. */
    method RunQuotaResetItem(ghost runner: ThreadId, item: ItemId, ghost stale: ItemStatus) returns (ok: bool, ghost status: ItemStatus)
      requires Valid() && At(Worker(runner, Took, item, stale))
      modifies this
      ensures Valid() && Aged() && At(Worker(runner, if ok then Idle else Broken, item, status))
      ensures old(failures) <= failures && (Fine() ==> ok)
      ensures alive && ok ==> item in engine.tables.items && engine.tables.items[item].status == status && Terminal(status)
    {
      status := stale;
      ok := MarkQuotaResetItemRunning(Worker(runner, Took, item, status), item);
      if !ok {
        return;
      }
      LockForReading(Worker(runner, Marked, item, status));
      var found := ValidateQuotaResetItem(Worker(runner, Holding, item, status), item);
      if found.Breaking? {
        UnlockForReading(Worker(runner, Breaking, item, status));
        ok := false;
        return;
      }
      if found.Skipping? {
        status := Skipped;
        ok := SkipItem(runner, item, stale);
        return;
      }
      ok, status := ResetItem(runner, item, status);
    }

    method SkipItem(ghost runner: ThreadId, item: ItemId, ghost stale: ItemStatus) returns (ok: bool)
      requires Valid() && At(Worker(runner, Skipping, item, stale))
      modifies this
      ensures Valid() && Aged() && At(Worker(runner, if ok then Idle else Broken, item, Skipped))
      ensures old(failures) <= failures && (Fine() ==> ok)
      ensures alive && ok ==> item in engine.tables.items && engine.tables.items[item].status.Skipped?
    {
      UnlockForReading(Worker(runner, Skipping, item, stale));
      ok := CompleteQuotaResetItem(Worker(runner, Released, item, Skipped), item, Skipped);
    }

    /** From beginQuotaReset on. */
    method ResetItem(ghost runner: ThreadId, item: ItemId, ghost stale: ItemStatus) returns (ok: bool, ghost status: ItemStatus)
      requires Valid() && At(Worker(runner, ResetEngine.Valid, item, stale))
      modifies this
      ensures Valid() && Aged() && At(Worker(runner, if ok then Idle else Broken, item, status))
      ensures old(failures) <= failures && (Fine() ==> ok)
      ensures alive && ok ==> item in engine.tables.items && engine.tables.items[item].status == status && Terminal(status)
    {
      var entered := BeginQuotaReset(Worker(runner, ResetEngine.Valid, item, stale));
      if !entered {
        status := Skipped;
        ok := SkipItem(runner, item, stale);
        return;
      }
      var outcome := ResetQuota(Worker(runner, InGate, item, stale));
      status := TerminalState(outcome);
      EndQuotaReset(Worker(runner, Back, item, status));
      UnlockForReading(Worker(runner, Ungated, item, status));
      ok := CompleteQuotaResetItem(Worker(runner, Released, item, status), item, TerminalState(outcome));
    }

    // ----- runQuotaResetJob

    /** Receiving from the channel; None when it is closed and empty, or when the job is cancelled and the item dropped. */
    method Receive(ghost runner: ThreadId, ghost item: ItemId, ghost status: ItemStatus) returns (taken: Option<ItemId>, closed: bool)
      requires Valid() && At(Worker(runner, Idle, item, status))
      modifies this
      ensures Valid() && Aged()
      ensures At(if taken.Some? then Worker(runner, Took, taken.value, status) else Worker(runner, Idle, item, status))
      ensures closed ==> taken.None?
      ensures alive && closed ==> WorkerEnabled(engine, WorkerDone, runner, Idle)
      // an item is the next of the channel; a cancelled job drops it
      ensures alive && !closed ==> JustDid(TakeItem) && IsDraining(Before(), runner) && Before().threads[runner].queue != []
      ensures alive && !closed ==> taken == if Before().threads[runner].fatal then None else Some(Before().threads[runner].queue[0])
    {
      ghost var p := Worker(runner, Idle, item, status);
      Yield(p);
      if !alive {
        return None, true;
      }
      RunKeepsInv(run);
      assert WorkerFits(engine, engine.threads[me]);
      var r := engine.threads[engine.threads[me].runner];
      if r.queue == [] {
        return None, true;
      }
      Do(TakeItem, p);
      return if r.fatal then None else Some(r.queue[0]), false;
    }

    /** One of the four workers. */
    method RunWorker(ghost runner: ThreadId, rounds: nat)
      requires Valid() && At(Worker(runner, Idle, 0, Pending))
      modifies this
      ensures Valid() && (Over() || (Aged() && exists item, status :: At(Worker(runner, Idle, item, status))))
    {
      ghost var last, status := 0, Pending;
      for round := 0 to rounds
        invariant Valid() && Aged() && At(Worker(runner, Idle, last, status))
      {
        var item, closed := Receive(runner, last, status);
        if closed {
          Do(WorkerDone, Worker(runner, Idle, last, status));
          alive := false;
          return;
        }
        if item.Some? {
          last := item.value;
          var ok: bool;
          ok, status := RunQuotaResetItem(runner, item.value, status);
          if !ok {
            Report(runner, last, status);
          }
        }
      }
    }

    /** fatalOnce.Do and cancelJob */
    method Report(ghost runner: ThreadId, ghost item: ItemId, ghost status: ItemStatus)
      requires Valid() && At(Worker(runner, Broken, item, status))
      modifies this
      ensures Valid() && Aged() && At(Worker(runner, Idle, item, status))
    {
      ghost var p := Worker(runner, Broken, item, status);
      Yield(p);
      if alive {
        RunKeepsInv(run);
        assert WorkerFits(engine, engine.threads[me]);
      }
      Do(ReportFatal, p);
    }

    /** SELECT ... WHERE job_id=? ORDER BY id */
    method SelectItems(job: JobId) returns (queue: seq<ItemId>)
      ensures Covers(engine.tables, job, queue)
    {
      var all := ItemsOf(engine.tables.items, job);
      queue := Sorted(all);
      assert forall i :: i in queue <==> i in all;
    }

    /** Four new goroutines; None when they cannot be told apart. */
    method NewWorkers() returns (workers: Option<set<ThreadId>>)
      ensures workers.Some? ==> workers.value !! engine.threads.Keys && |workers.value| == WORKERS
    {
      var ids: set<ThreadId> := {};
      for n := 0 to WORKERS
        invariant ids !! engine.threads.Keys && |ids| == n
      {
        var id: ThreadId := *;
        if id in ids || id in engine.threads {
          return None;
        }
        ids := ids + {id};
      }
      return Some(ids);
    }

    /** The job is completed, and every item of it finished. */
    ghost predicate WorkedOff(job: JobId)
      reads this
    {
      job in engine.tables.jobs && engine.tables.jobs[job].status.Completed? && AllDone(engine.tables, job)
    }

    /** runQuotaResetJob */
    method RunQuotaResetJob(job: JobId)
      requires Valid() && At(Runner(job, Starting, [], false))
      modifies this
      ensures Valid() && Over() && (Smooth() ==> WorkedOff(job) || engine.ioFailed)
    {
      var ok := MarkQuotaResetJobRunning(job);
      if !ok {
        AbortQuotaResetJob(Runner(job, Aborting, [], false), job);
        return;
      }
      ok := StartWorkers(job);
      if !ok {
        AbortQuotaResetJob(Runner(job, Aborting, [], false), job);
        return;
      }
      ghost var p;
      ok, p := AwaitWorkers(job);
      if !ok {
        AbortQuotaResetJob(p, job);
        return;
      }
      ok := FinishQuotaResetJob(p, job);
      if !ok {
        AbortQuotaResetJob(p.(phase := Aborting), job);
      }
    }

    /** A runner's job is in the state its stage says. */
    lemma MyJobIsKnown()
      requires Valid()
      ensures me in engine.threads && engine.threads[me].Runner? ==> RunnerFits(engine, engine.threads[me])
    {
      RunKeepsInv(run);
    }

    method MarkQuotaResetJobRunning(job: JobId) returns (ok: bool)
      requires Valid() && At(Runner(job, Starting, [], false))
      modifies this
      ensures Valid() && Aged() && At(Runner(job, if ok then Loading else Aborting, [], false))
      ensures Fine() ==> ok
    {
      ghost var p := Runner(job, Starting, [], false);
      Yield(p);
      MyJobIsKnown();
      var next, failure := CallStore(MarkJobRunning(engine.tables, job));
      Do(StartJob(next, failure), p);
      ok := failure.None?;
    }

    /** These goroutines are idle workers of this runner. */
    ghost predicate Employs(workers: set<ThreadId>)
      reads this
    {
      forall w :: w in workers ==> w in engine.threads && engine.threads[w] == Worker(me, Idle, 0, Pending)
    }

    /** QuotaResetJobWithItems, the channel and the four workers. */
    method StartWorkers(job: JobId) returns (ok: bool)
      requires Valid() && At(Runner(job, Loading, [], false))
      modifies this
      ensures Valid() && Aged() && At(Runner(job, if ok then Draining else Aborting, [], false))
      ensures Fine() ==> ok
      ensures alive && ok ==> engine.threads[me].Runner? && Covers(engine.tables, job, engine.threads[me].queue)
      ensures alive && ok ==> exists workers: set<ThreadId> :: |workers| == WORKERS && Employs(workers)
    {
      ghost var p := Runner(job, Loading, [], false);
      Yield(p);
      var queue := SelectItems(job);
      var workers := NewWorkers();
      var failed := StatementFails();
      if workers.None? {
        Interrupt();
        return false;
      }
      Do(LoadItems(queue, workers.value, failed), p);
      ok := !failed;
      assert alive && ok ==> Employs(workers.value);
    }

    /** workers.Wait: nil, or the first error of a worker. */
    method AwaitWorkers(job: JobId) returns (ok: bool, ghost p: Thread)
      requires Valid() && At(Runner(job, Draining, [], false))
      modifies this
      ensures Valid() && Aged() && At(p) && p.Runner? && p.job == job && p.phase == if ok then Finishing else Aborting
    {
      p := Runner(job, Draining, [], false);
      Yield(p);
      if !alive || exists w :: w in engine.threads && engine.threads[w].Worker? && engine.threads[w].runner == me {
        Interrupt();  // still waiting
        return false, p.(phase := Aborting);
      }
      p := engine.threads[me];
      ok := !engine.threads[me].fatal;
      Do(Drained, p);
      p := p.(phase := if ok then Finishing else Aborting);
    }

    /** A runner only aborts its job after a store call has failed. */
    lemma HasFailed()
      requires Valid()
      ensures me in engine.threads && engine.threads[me].Runner? && engine.threads[me].phase.Aborting? ==> engine.ioFailed
    {
      RunKeepsInv(run);
      assert me in engine.threads && engine.threads[me].Runner? ==> RunnerFits(engine, engine.threads[me]);
    }

    method FinishQuotaResetJob(ghost p: Thread, job: JobId) returns (ok: bool)
      requires Valid() && At(p) && p.Runner? && p.job == job && p.phase.Finishing?
      modifies this
      ensures Valid() && if ok then Over() && (Smooth() ==> WorkedOff(job)) else Aged() && At(p.(phase := Aborting))
      ensures Fine() ==> ok
    {
      Yield(p);
      MyJobIsKnown();
      var next, failure := CallStore(ResetTables.FinishJob(engine.tables, job));
      if failure.None? {
        FinishedIsWorkedOff(engine.tables, job);
      }
      Do(FinishJob(next, failure), p);
      ok := failure.None?;
      alive := alive && !ok;
    }

    method AbortQuotaResetJob(ghost p: Thread, job: JobId)
      requires Valid() && At(p) && p.Runner? && p.job == job && p.phase.Aborting?
      modifies this
      ensures Valid() && Over() && (Smooth() ==> engine.ioFailed)
    {
      Yield(p);
      HasFailed();
      var next, failure := CallStore(ResetTables.AbortJob(engine.tables, job));
      Do(AbortJob(next, failure), p);
      alive := false;
    }

    // ----- handlers

    /** createQuotaResetJob; the identifiers are those the database and the runtime hand out. */
    method CreateQuotaResetJob(job: JobId, rows: map<ItemId, Item>, runner: ThreadId, maintenancePending: bool)
        returns (tried: bool, failure: Option<Error>, ghost did: Action)
      requires Valid() && At(Creator(Outside))
      modifies this
      ensures Valid() && Over() && (maintenancePending ==> !tried) && (Fine() ==> failure != Some(IoError))
      ensures if tried then did.CreateJob? && did == CreateJob(job, rows, runner, did.next, failure) else did.GiveUp?
      ensures Acted([LockMaintenance, did, UnlockMaintenance])
    {
      LockMaintenanceMu(Creator(Outside));
      tried, failure, did := InsertJobAndUnlock(job, rows, runner, maintenancePending);
      Joined(old(Did(run, me)), [LockMaintenance], [did, UnlockMaintenance]);
    }

    method InsertJobAndUnlock(job: JobId, rows: map<ItemId, Item>, runner: ThreadId, maintenancePending: bool)
        returns (tried: bool, failure: Option<Error>, ghost did: Action)
      requires Valid() && At(Creator(Inside))
      modifies this
      ensures Valid() && Over() && (maintenancePending ==> !tried) && (Fine() ==> failure != Some(IoError))
      ensures if tried then did.CreateJob? && did == CreateJob(job, rows, runner, did.next, failure) else did.GiveUp?
      ensures Acted([did, UnlockMaintenance])
    {
      tried, failure := InsertJob(job, rows, runner, maintenancePending);
      did := if tried then CreateJob(job, rows, runner, engine.tables, failure) else GiveUp;
      UnlockMaintenanceMu(Creator(Exiting));
      Joined(old(Did(run, me)), [did], [UnlockMaintenance]);
    }

    /** Under maintenanceMu: no update may be pending; then the store call, and the runner starts. */
    method InsertJob(job: JobId, rows: map<ItemId, Item>, runner: ThreadId, maintenancePending: bool)
        returns (tried: bool, failure: Option<Error>)
      requires Valid() && At(Creator(Inside))
      modifies this
      ensures Valid() && Aged() && At(Creator(Exiting)) && (maintenancePending ==> !tried)
      ensures alive && tried ==> JustDid(CreateJob(job, rows, runner, engine.tables, failure))
      ensures alive && !tried ==> JustDid(GiveUp) && engine.tables == Before().tables
      ensures alive && !tried && !maintenancePending ==>  // the identifiers are not those the database would hand out
                job in Before().tables.jobs || runner in Before().threads || !Snapshot(Before().tables, job, rows)
      ensures old(failures) <= failures && (Fine() ==> failure != Some(IoError))
      ensures Acted([if tried then CreateJob(job, rows, runner, engine.tables, failure) else GiveUp])
      // a job and its runner start exactly when no job was open
      ensures alive && tried ==> Inserted(job, rows, runner, failure)
    {
      Yield(Creator(Inside));
      failure := None;
      tried := !maintenancePending && job !in engine.tables.jobs && Snapshot(engine.tables, job, rows) && runner !in engine.threads;
      if !tried {
        Do(GiveUp, Creator(Inside));
      } else {
        failure := StoreJob(job, rows, runner);
      }
    }

    /** The job is there and its runner starts, no job having been open; or one is open and nothing has changed; or the store failed. */
    ghost predicate Inserted(job: JobId, rows: map<ItemId, Item>, runner: ThreadId, failure: Option<Error>)
      reads this
    {
      && run.Next?
      && (failure.None? ==>
            && (forall j :: j in Before().tables.jobs ==> !Open(Before().tables.jobs[j].status))
            && engine.tables == CreatedJob(Before().tables, job, rows)
            && runner in engine.threads && engine.threads[runner] == Runner(job, Starting, [], false))
      && (failure == Some(JobActive) ==>
            && (exists j :: j in Before().tables.jobs && Open(Before().tables.jobs[j].status)) && engine.tables == Before().tables)
    }

    method StoreJob(job: JobId, rows: map<ItemId, Item>, runner: ThreadId) returns (failure: Option<Error>)
      requires Valid() && At(Creator(Inside))
      requires job !in engine.tables.jobs && Snapshot(engine.tables, job, rows) && runner !in engine.threads
      modifies this
      ensures Valid() && Aged() && At(Creator(Exiting)) && old(failures) <= failures && (Fine() ==> failure != Some(IoError))
      ensures Acted([CreateJob(job, rows, runner, engine.tables, failure)])
      ensures alive ==> JustDid(CreateJob(job, rows, runner, engine.tables, failure))
      ensures alive ==> Inserted(job, rows, runner, failure)
    {
      var next;
      next, failure := CallStore(Creation(engine.tables, job, rows));
      Do(CreateJob(job, rows, runner, next, failure), Creator(Inside));
    }

    /** The deferred RUnlock and Unlock of an early return. */
    method ReturnEarly(ghost p: Thread)
      requires Valid() && At(p) && p.Single? && p.at.Dropping?
      modifies this
      ensures Valid() && Over() && failures == old(failures) && Acted([UnlockRead, UnlockMaintenance])
    {
      UnlockForReading(p);
      UnlockMaintenanceMu(p.(at := Leaving));
    }

    /** resetUserQuota; setUserKeyLimits takes the same steps around another upstream call. */
    method ResetUserQuota(user: UserId, maintenancePending: bool) returns (answer: Answer)
      requires Valid() && At(Single(Waiting, 0, 0))
      modifies this
      ensures Valid() && Over() && Acted(Program(user, answer))
      ensures Smooth() ==> (answer.UpdateInProgress? <==> maintenancePending) && !answer.Busy?
      ensures Fine() ==> !answer.StoreError?
    {
      LockMaintenanceMu(Single(Waiting, 0, 0));
      if maintenancePending {
        RefuseForUpdate();
        Joined(old(Did(run, me)), [LockMaintenance], [GiveUp, UnlockMaintenance]);
        return UpdateInProgress;
      }
      answer := CheckAndMutate(user);
      Joined(old(Did(run, me)), [LockMaintenance], ReadingSteps(user, answer));
    }

    method RefuseForUpdate()
      requires Valid() && At(Single(Locked, 0, 0))
      modifies this
      ensures Valid() && Over() && failures == old(failures) && Acted([GiveUp, UnlockMaintenance])
    {
      Yield(Single(Locked, 0, 0));
      Do(GiveUp, Single(Locked, 0, 0));
      UnlockMaintenanceMu(Single(Leaving, 0, 0));
    }

    /** From bindingMu.RLock on, under maintenanceMu. */
    method CheckAndMutate(user: UserId) returns (answer: Answer)
      requires Valid() && At(Single(Locked, 0, 0))
      modifies this
      ensures Valid() && Over() && !answer.UpdateInProgress? && Acted(ReadingSteps(user, answer))
      ensures (Smooth() ==> !answer.Busy?) && (Fine() ==> !answer.StoreError?)
    {
      LockForReading(Single(Locked, 0, 0));
      answer := CheckUserAndMutate(user);
      Joined(old(Did(run, me)), [LockRead], UserSteps(user, answer));
    }

    method CheckUserAndMutate(user: UserId) returns (answer: Answer)
      requires Valid() && At(Single(Reading, 0, 0))
      modifies this
      ensures Valid() && Over() && !answer.UpdateInProgress? && Acted(UserSteps(user, answer))
      ensures (Smooth() ==> !answer.Busy?) && (Fine() ==> !answer.StoreError?)
    {
      var failed, key := CheckUser(user);
      ghost var did := if failed then ReadFails else if key.None? then RefuseUser(user) else LoadUser(user);
      if failed || key.None? {
        ReturnEarly(Single(Dropping, 0, 0));
        Joined(old(Did(run, me)), [did], [UnlockRead, UnlockMaintenance]);
        return if failed then StoreError(false) else NotAvailable;
      }
      answer := ExcludeBatch(user, key.value);
      Joined(old(Did(run, me)), [did], JobSteps(answer));
    }

    /** UserByID, and whether the user can be reset: None if not. */
    method CheckUser(user: UserId) returns (failed: bool, key: Option<KeyId>)
      requires Valid() && At(Single(Reading, 0, 0))
      modifies this
      ensures Valid() && Aged() && old(failures) <= failures && (Fine() ==> !failed)
      ensures At(if failed || key.None? then Single(Dropping, 0, 0) else Single(Loaded, user, key.value))
      ensures Acted([if failed then ReadFails else if key.None? then RefuseUser(user) else LoadUser(user)])
      ensures alive && !failed ==> if key.Some? then MayBeReset(engine.tables, user, key.value) else forall k :: !MayBeReset(engine.tables, user, k)
    {
      Yield(Single(Reading, 0, 0));
      failed := StatementFails();
      key := None;
      if failed {
        Do(ReadFails, Single(Reading, 0, 0));
      } else if user !in engine.tables.users || !Resettable(engine.tables.users[user]) {
        Do(RefuseUser(user), Single(Reading, 0, 0));
      } else {
        key := Some(KeyBoundTo(engine.tables, user));
        Do(LoadUser(user), Single(Reading, 0, 0));
      }
    }

    /** CurrentQuotaResetJob: no batch may be active. */
    method CheckBatch(user: UserId, key: KeyId) returns (failed: bool, active: bool)
      requires Valid() && At(Single(Loaded, user, key))
      modifies this
      ensures Valid() && Aged() && old(failures) <= failures && (Fine() ==> !failed)
      ensures At(Single(if failed || active then Dropping else Cleared, user, key))
      ensures Acted([if failed then ReadFails else if active then FindJob else FindNoJob])
      ensures alive && !failed ==> (active <==> exists j :: j in engine.tables.jobs && engine.tables.jobs[j].status in {Queued, Running})
    {
      Yield(Single(Loaded, user, key));
      failed := StatementFails();
      active := HasOpenJob(engine.tables);
      Do(if failed then ReadFails else if active then FindJob else FindNoJob, Single(Loaded, user, key));
      assert forall j :: j in engine.tables.jobs ==> (Open(engine.tables.jobs[j].status) <==> engine.tables.jobs[j].status in {Queued, Running});
    }

    method ExcludeBatch(user: UserId, key: KeyId) returns (answer: Answer)
      requires Valid() && At(Single(Loaded, user, key))
      modifies this
      ensures Valid() && Over() && (answer.BatchActive? || answer.Busy? || answer.Answered? || answer == StoreError(true))
      ensures Acted(JobSteps(answer)) && (Smooth() ==> !answer.Busy?) && (Fine() ==> !answer.StoreError?)
    {
      var failed, active := CheckBatch(user, key);
      if failed || active {
        ReturnEarly(Single(Dropping, user, key));
        Joined(old(Did(run, me)), [if failed then ReadFails else FindJob], [UnlockRead, UnlockMaintenance]);
        return if failed then StoreError(true) else BatchActive;
      }
      answer := Mutate(user, key);
      Joined(old(Did(run, me)), [FindNoJob], KeySteps(answer));
    }

    /** beginQuotaReset, which finds the gate open, and the rest of the handler. */
    method Mutate(user: UserId, key: KeyId) returns (answer: Answer)
      requires Valid() && At(Single(Cleared, user, key))
      modifies this
      ensures Valid() && Over() && failures == old(failures)
      ensures (answer.Busy? || answer.Answered?) && (Smooth() ==> !answer.Busy?) && Acted(KeySteps(answer))
    {
      Yield(Single(Cleared, user, key));
      if alive {
        SingleFindsItsGateOpen(run, me);
      }
      var busy := key in engine.gate;
      Do(EnterGate, Single(Cleared, user, key));
      answer := FinishMutation(user, key, busy);
      Joined(old(Did(run, me)), [EnterGate], GateSteps(answer));
    }

    method FinishMutation(user: UserId, key: KeyId, busy: bool) returns (answer: Answer)
      requires Valid() && At(Single(if busy then Dropping else Gated, user, key))
      modifies this
      ensures Valid() && Over() && failures == old(failures)
      ensures (if busy then answer.Busy? else answer.Answered?) && Acted(GateSteps(answer))
    {
      if busy {
        UnlockForReading(Single(Dropping, user, key));
        UnlockMaintenanceMu(Single(Leaving, user, key));
        return Busy;
      }
      var outcome := CallUpstream(user, key);
      UnlockForReading(Single(Returned, user, key));
      LeaveKey(user, key);
      return Answered(outcome);
    }

    /** The deferred endQuotaReset and Unlock. */
    method LeaveKey(user: UserId, key: KeyId)
      requires Valid() && At(Single(Unread, user, key))
      modifies this
      ensures Valid() && Over() && failures == old(failures) && Acted([LeaveGate, UnlockMaintenance])
    {
      Yield(Single(Unread, user, key));
      Do(LeaveGate, Single(Unread, user, key));
      UnlockMaintenanceMu(Single(Leaving, user, key));
    }

    /** ResetQuota or SetKeyLimits of the syncer, under the key's gate. */
    method CallUpstream(user: UserId, key: KeyId) returns (outcome: Outcome)
      requires Valid() && At(Single(Gated, user, key))
      modifies this
      ensures Valid() && Aged() && At(Single(Returned, user, key)) && failures == old(failures) && Acted([Call, Return(outcome)])
    {
      Yield(Single(Gated, user, key));
      Do(Call, Single(Gated, user, key));
      Yield(Single(Calling, user, key));
      outcome := *;
      Do(Return(outcome), Single(Calling, user, key));
    }

    /** setBinding, deleteBinding, createUser and deleteUser. */
    method WriteBinding(change: UserChange) returns (failure: Option<Error>)
      requires Valid() && At(Writer(false))
      modifies this
      ensures Valid() && Over() && (Fine() ==> failure != Some(IoError))
      ensures Smooth() ==> exists next :: Did(run, me) == old(Did(run, me)) + [LockWrite, ChangeUser(change, next, failure), UnlockWrite]
    {
      LockForWriting();
      failure := StoreChange(change);
      UnlockForWriting();
    }

    /** bindingMu.Lock */
    method LockForWriting()
      requires Valid() && At(Writer(false))
      modifies this
      ensures Valid() && Aged() && At(Writer(true)) && Acted([LockWrite]) && failures == old(failures)
    {
      Yield(Writer(false));
      if alive && (engine.writer.Some? || engine.readers != {}) {
        Interrupt();  // still waiting
      }
      Do(LockWrite, Writer(false));
    }

    method StoreChange(change: UserChange) returns (failure: Option<Error>)
      requires Valid() && At(Writer(true))
      modifies this
      ensures Valid() && Aged() && At(Writer(true)) && old(failures) <= failures && (Fine() ==> failure != Some(IoError))
      ensures Acted([ChangeUser(change, engine.tables, failure)])
      ensures alive ==> JustDid(ChangeUser(change, engine.tables, failure)) &&
                        Follows(Before().tables, engine.tables, ResetTables.ChangeUser(Before().tables, change), failure)
    {
      Yield(Writer(true));
      var next: Tables;
      next, failure := CallStore(ResetTables.ChangeUser(engine.tables, change));
      Do(ChangeUser(change, next, failure), Writer(true));
    }

    /** The deferred bindingMu.Unlock, which ends the handler. */
    method UnlockForWriting()
      requires Valid() && At(Writer(true))
      modifies this
      ensures Valid() && Over() && Acted([UnlockWrite]) && failures == old(failures)
    {
      Yield(Writer(true));
      Do(UnlockWrite, Writer(true));
      alive := false;
    }
  }

  lemma FinishedIsWorkedOff(t: Tables, job: JobId)
    requires ResetTables.FinishJob(t, job).Ok?
    ensures var next := ResetTables.FinishJob(t, job).value;
            job in next.jobs && next.jobs[job].status.Completed? && AllDone(next, job)
  {
    FinishJobSucceedsWhenDrained(t, job);
  }

  method Sorted(items: set<ItemId>) returns (queue: seq<ItemId>)
    ensures forall i :: i in queue <==> i in items
    ensures forall i, k :: 0 <= i < k < |queue| ==> queue[i] < queue[k]
  {
    queue := [];
    var left := items;
    while left != {}
      invariant forall i :: i in items <==> i in left || i in queue
      invariant forall i, k :: i in queue && k in left ==> i < k
      invariant forall i, k :: 0 <= i < k < |queue| ==> queue[i] < queue[k]
      decreases |left|
    {
      ghost var first := LeastItem(left);
      var least :| least in left && forall k :: k in left ==> least <= k;
      left := left - {least};
      forall i | 0 <= i < |queue|
        ensures queue[i] < least
      {
        assert queue[i] in queue;
      }
      queue := queue + [least];
    }
  }

  lemma {:induction false} LeastItem(items: set<ItemId>) returns (least: ItemId)
    requires items != {}
    ensures least in items && forall k :: k in items ==> least <= k
    decreases |items|
  {
    least :| least in items;
    if items != {least} {
      var other := LeastItem(items - {least});
      assert forall k :: k in items ==> k == least || k in items - {least};
      least := if least < other then least else other;
    }
  }
}
