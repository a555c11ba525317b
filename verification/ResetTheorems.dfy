/** What holds of quota resets in every reachable state, however threads interleave and store calls fail. */
module ResetTheorems {
  import opened Options
  import opened ResetTables
  import opened ResetEngine
  import opened ResetInvariant
  import opened ResetKeeps
  import opened ResetWork

  // ----- the invariant

  lemma ActionKeepsTables(s: Engine, a: Action, t: ThreadId, p: Thread)
    requires TablesInv(s.tables) && ThreadsInv(s)
    requires t in s.threads && s.threads[t] == p && ActionEnabled(s, a, t, p) && TransactionFollows(s, a, p)
    ensures TablesInv(ActionStep(s, a, t, p).tables) && Advances(s.tables, ActionStep(s, a, t, p).tables)
  {
    match p
    case Runner(_, _, _, _) =>
      assert RunnerFits(s, p);
      RunnerKeepsTables(s, a, t, p);
    case Worker(_, _, _, _) => WorkerKeepsTables(s, a, t, p);
    case _ => OthersKeepTables(s, a, t, p);
  }

  lemma StepKeepsTables(s: Engine, e: Event)
    requires TablesInv(s.tables) && ThreadsInv(s) && Possible(s, e)
    ensures TablesInv(Step(s, e).tables) && Advances(s.tables, Step(s, e).tables)
  {
    match e
    case By(t, a) => ActionKeepsTables(s, a, t, s.threads[t]);
    case Arrive(_, _) =>
    case UpdateUser(user, disabled, next, failure) =>
      if ResetTables.UpdateUser(s.tables, user, disabled).Ok? {
        UpdateUserIsSound(s.tables, user, disabled);
      }
      FollowingIsSound(s.tables, next, ResetTables.UpdateUser(s.tables, user, disabled), failure);
    case ListKeys(listed) => KeysListedIsSound(s.tables, listed);
    case Restart(next) => RecoveredIsSound(s.tables, next);
  }

  /** Only a writer changes who is bound to which key, and only a creation opens a job. */
  ghost predicate UsersAndJobsStay(s: Engine, n: Engine) {
    (forall u, k :: BoundTo(s.tables, u, k) ==> BoundTo(n.tables, u, k)) && (HasOpenJob(n.tables) ==> HasOpenJob(s.tables))
  }

  lemma RunnerLeavesUsers(s: Engine, a: Action, t: ThreadId, p: Thread)
    requires p.Runner? && RunnerFits(s, p) && RunnerEnabled(s, a, t, p.job, p.phase) && TransactionFollows(s, a, p)
    ensures UsersAndJobsStay(s, RunnerStep(s, a, t, p))
  {
    match a
    case StartJob(next, failure) => StartJobEffect(s.tables, next, p.job, failure);
    case FinishJob(next, failure) => FinishJobEffect(s.tables, next, p.job, failure);
    case AbortJob(next, failure) => AbortJobEffect(s.tables, next, p.job, failure);
    case _ =>
  }

  lemma WorkerLeavesUsers(s: Engine, a: Action, t: ThreadId, p: Thread)
    requires p.Worker? && (Busy(p) ==> Knows(s, p)) && WorkerEnabled(s, a, p.runner, p.stage) && TransactionFollows(s, a, p)
    ensures UsersAndJobsStay(s, WorkerStep(s, a, t, p))
  {
    match a
    case MarkItem(next, failure) => MarkItemEffect(s.tables, next, JobOf(s, p), p.item, failure);
    case CompleteItem(next, failure) => CompleteItemEffect(s.tables, next, JobOf(s, p), p.item, p.status, failure);
    case _ =>
  }

  lemma SingleLeavesUsers(s: Engine, a: Action, t: ThreadId, p: Thread)
    requires p.Single? && SingleEnabled(s, a, p.at)
    ensures SingleStep(s, a, t, p).tables == s.tables
  {
  }

  lemma CreatorLeavesUsers(s: Engine, a: Action, t: ThreadId, p: Thread)
    requires p.Creator? && CreatorEnabled(s, a, p.inside) && TransactionFollows(s, a, p)
    ensures CreatorStep(s, a, t).tables.users == s.tables.users
    ensures HasOpenJob(CreatorStep(s, a, t).tables) ==> HasOpenJob(s.tables) || a.CreateJob?
  {
    if a.CreateJob? {
      CreateJobEffect(s.tables, a.next, a.job, a.rows, a.failure);
    }
  }

  lemma OthersLeaveUsers(s: Engine, a: Action, t: ThreadId, p: Thread)
    requires (p.Single? || p.Creator? || p.Writer?) && ActionEnabled(s, a, t, p) && TransactionFollows(s, a, p) && !a.ChangeUser?
    ensures forall u, k :: BoundTo(s.tables, u, k) ==> BoundTo(ActionStep(s, a, t, p).tables, u, k)
    ensures HasOpenJob(ActionStep(s, a, t, p).tables) ==> HasOpenJob(s.tables) || a.CreateJob?
  {
    match p
    case Single(_, _, _) => SingleLeavesUsers(s, a, t, p);
    case Creator(_) => CreatorLeavesUsers(s, a, t, p);
    case _ =>
  }

  lemma ActionLeavesUsers(s: Engine, a: Action, t: ThreadId, p: Thread)
    requires TablesInv(s.tables) && ThreadsInv(s) && CallsInv(s)
    requires t in s.threads && s.threads[t] == p && ActionEnabled(s, a, t, p) && TransactionFollows(s, a, p)
    ensures !a.ChangeUser? ==> forall u, k :: BoundTo(s.tables, u, k) ==> BoundTo(ActionStep(s, a, t, p).tables, u, k)
    ensures HasOpenJob(ActionStep(s, a, t, p).tables) ==> HasOpenJob(s.tables) || a.CreateJob?
  {
    match p
    case Runner(_, _, _, _) => RunnerLeavesUsers(s, a, t, p);
    case Worker(_, _, _, _) =>
      if Busy(p) {
        WorkIsKnown(s, t);
      }
      WorkerLeavesUsers(s, a, t, p);
    case Writer(_) =>
      if a.ChangeUser? {
        ChangeLeavesJobs(s.tables, a.next, a.change, a.failure);
      } else {
        OthersLeaveUsers(s, a, t, p);
      }
    case _ => OthersLeaveUsers(s, a, t, p);
  }

  lemma UpdateLeavesBindings(t: Tables, next: Tables, user: UserId, disabled: bool, failure: Option<Error>)
    requires TablesInv(t) && Follows(t, next, ResetTables.UpdateUser(t, user, disabled), failure)
    ensures next.jobs == t.jobs && forall u, k :: BoundTo(t, u, k) ==> BoundTo(next, u, k)
  {
    if ResetTables.UpdateUser(t, user, disabled).Ok? {
      UpdateUserIsSound(t, user, disabled);
    }
  }

  lemma StepLeavesUsers(s: Engine, e: Event)
    requires TablesInv(s.tables) && ThreadsInv(s) && CallsInv(s) && Possible(s, e)
    ensures !(e.By? && e.action.ChangeUser?) ==> forall u, k :: BoundTo(s.tables, u, k) ==> BoundTo(Step(s, e).tables, u, k)
    ensures HasOpenJob(Step(s, e).tables) ==> HasOpenJob(s.tables) || (e.By? && e.action.CreateJob?)
  {
    match e
    case By(t, a) => ActionLeavesUsers(s, a, t, s.threads[t]);
    case UpdateUser(user, disabled, next, failure) => UpdateLeavesBindings(s.tables, next, user, disabled, failure);
    case ListKeys(listed) => KeysListedIsSound(s.tables, listed);
    case Restart(next) => RecoveredIsSound(s.tables, next);
    case Arrive(_, _) =>
  }

  lemma ChangeLeavesJobs(t: Tables, next: Tables, change: UserChange, failure: Option<Error>)
    requires TablesInv(t) && Follows(t, next, ResetTables.ChangeUser(t, change), failure)
    ensures next.jobs == t.jobs
  {
    if ResetTables.ChangeUser(t, change).Ok? {
      ChangeUserIsSound(t, change);
    }
  }

  /** Every step the code can take keeps the invariant, and the rows only advance. */
  lemma StepKeepsInv(s: Engine, e: Event)
    requires Inv(s) && Possible(s, e)
    ensures Inv(Step(s, e)) && Advances(s.tables, Step(s, e).tables)
  {
    StepKeepsTables(s, e);
    StepKeepsOwners(s, e);
    StepKeepsWork(s, e);
    StepKeepsPromises(s, e);
  }

  lemma StepKeepsOwners(s: Engine, e: Event)
    requires Inv(s) && Possible(s, e) && ItemsAdvance(s.tables.items, Step(s, e).tables.items)
    ensures LocksInv(Step(s, e)) && GatesInv(Step(s, e))
  {
    GatedItemsAreKnown(s);
    StepKeepsLocks(s, e);
    StepKeepsGates(s, e);
  }

  /** What the threads have checked: of bindings, and of the absence of a job. */
  lemma StepKeepsPromises(s: Engine, e: Event)
    requires Inv(s) && Possible(s, e) && ItemsAdvance(s.tables.items, Step(s, e).tables.items)
    ensures BindingsInv(Step(s, e)) && NoJobInv(Step(s, e))
  {
    StepLeavesUsers(s, e);
    StepKeepsBindings(s, e);
    StepKeepsNoJob(s, e);
  }

  lemma GatedItemsAreKnown(s: Engine)
    requires BindingsInv(s)
    ensures ItemsKnown(s)
  {
  }

  lemma {:induction false} RunKeepsInv(run: Run)
    requires PossibleRun(run)
    ensures Inv(Now(run))
  {
    match run
    case Start(_) =>
    case Next(before, e) =>
      RunKeepsInv(before);
      StepKeepsInv(Now(before), e);
  }

  // ----- mutations of a key

  /** At most one upstream reset or limit change of a key is in flight. */
  lemma {:induction false} MutationsAreExclusive(run: Run, t: ThreadId, u: ThreadId)
    requires PossibleRun(run) && t in Now(run).threads && u in Now(run).threads && t != u
    ensures var s := Now(run);
            Changing(s.tables.items, s.threads[t]).Some? ==> Changing(s.tables.items, s.threads[u]) != Changing(s.tables.items, s.threads[t])
  {
    RunKeepsInv(run);
    assert Gate(Now(run), t) == GateOf(Now(run).tables.items, Now(run).threads[t]);
    assert Gate(Now(run), u) == GateOf(Now(run).tables.items, Now(run).threads[u]);
  }

  /** A batch worker and a single mutation that has passed its checks never coexist, whatever their keys. */
  lemma {:induction false} BatchAndSingleExclude(run: Run, t: ThreadId, u: ThreadId)
    requires PossibleRun(run) && t in Now(run).threads && u in Now(run).threads && ReliesOnNoJob(Now(run).threads[u])
    ensures !Now(run).threads[t].Worker?
  {
    RunKeepsInv(run);
    NoJobNoWorkers(Now(run));
  }

  /** So a worker about to enter its key's gate finds it open: no item is ever skipped as busy. */
  lemma {:induction false} WorkerFindsItsGateOpen(run: Run, t: ThreadId)
    requires PossibleRun(run) && t in Now(run).threads && Now(run).threads[t].Worker? && Now(run).threads[t].stage.Valid?
    ensures var s := Now(run);
            var item := s.threads[t].item;
            && item in s.tables.items && s.tables.items[item].key.Some? && s.tables.items[item].key.value !in s.gate
            && Step(s, By(t, EnterGate)).threads[t].stage.InGate?
  {
    RunKeepsInv(run);
    var s := Now(run);
    ValidWorkerIsAlone(s, t);
    OpenGateIsEntered(s, t, s.threads[t]);
  }

  lemma ValidWorkerIsAlone(s: Engine, t: ThreadId)
    requires Inv(s) && t in s.threads && s.threads[t].Worker? && s.threads[t].stage.Valid?
    ensures var item := s.threads[t].item;
            item in s.tables.items && s.tables.items[item].key.Some? && s.tables.items[item].key.value !in s.gate
  {
    var p := s.threads[t];
    assert BindingHolds(s.tables, p);
    var key := s.tables.items[p.item].key.value;
    if key in s.gate {
      assert Gate(s, s.gate[key]) == Some(key) && Gate(s, t) == None;
      GateOwnersOfABatch(s, t, s.gate[key]);
    }
  }

  lemma OpenGateIsEntered(s: Engine, t: ThreadId, p: Thread)
    requires t in s.threads && s.threads[t] == p && p.Worker?
    requires KeyOf(s.tables.items, p.item).Some? && KeyOf(s.tables.items, p.item).value !in s.gate
    ensures Step(s, By(t, EnterGate)) == To(s, t, p.(stage := InGate)).(gate := s.gate[KeyOf(s.tables.items, p.item).value := t])
  {
  }

  /** Whoever owns a gate while a batch runs is a worker of that batch, with an item and so a key of its own. */
  lemma GateOwnersOfABatch(s: Engine, t: ThreadId, u: ThreadId)
    requires Inv(s) && t in s.threads && Busy(s.threads[t]) && u in s.threads && u != t && GateOf(s.tables.items, s.threads[u]).Some?
    requires KeyOf(s.tables.items, s.threads[t].item).Some?
    ensures GateOf(s.tables.items, s.threads[u]) != KeyOf(s.tables.items, s.threads[t].item)
  {
    assert WorkerFits(s, s.threads[t]) && RunnerFits(s, s.threads[s.threads[t].runner]);
    if ReliesOnNoJob(s.threads[u]) {
      NoJobNoWorkers(s);
    } else {
      assert WorkerFits(s, s.threads[u]) && RunnerFits(s, s.threads[s.threads[u].runner]);
    }
  }

  // ----- upstream calls

  /** How many upstream calls workers have made for an item. */
  ghost function CallsMade(run: Run, item: ItemId): nat {
    match run
    case Start(_) => 0
    case Next(before, e) => CallsMade(before, item) + if CallsFor(Now(before), e, item) then 1 else 0
  }

  ghost predicate CallsFor(s: Engine, e: Event, item: ItemId) {
    e.By? && e.action.Call? && e.t in s.threads && s.threads[e.t].Worker? && s.threads[e.t].item == item
  }

  lemma ActionCalls(s: Engine, a: Action, t: ThreadId, p: Thread)
    requires t in s.threads && s.threads[t] == p && ActionEnabled(s, a, t, p)
    ensures ActionStep(s, a, t, p).called == if p.Worker? && a.Call? then s.called + {p.item} else s.called
  {
    if p.Single? {
      SingleLeavesTheBatch(s, a, t, p);
    }
  }

  lemma SingleLeavesTheBatch(s: Engine, a: Action, t: ThreadId, p: Thread)
    requires p.Single? && SingleEnabled(s, a, p.at)
    ensures SingleStep(s, a, t, p).called == s.called && SingleStep(s, a, t, p).ioFailed == s.ioFailed
  {
  }

  lemma StepCalls(s: Engine, e: Event, item: ItemId)
    requires ThreadsInv(s) && CallsInv(s) && Possible(s, e)
    ensures CallsFor(s, e, item) ==> item !in s.called
    ensures item in Step(s, e).called <==> item in s.called || CallsFor(s, e, item)
  {
    if e.By? {
      ActionCalls(s, e.action, e.t, s.threads[e.t]);
      if CallsFor(s, e, item) {
        WorkIsKnown(s, e.t);
      }
    }
  }

  /** Upstream is called at most once for an item; `called` is exactly the items it was called for. */
  lemma {:induction false} OneCallPerItem(run: Run, item: ItemId)
    requires PossibleRun(run)
    ensures CallsMade(run, item) == if item in Now(run).called then 1 else 0
  {
    match run
    case Start(_) =>
    case Next(before, e) =>
      OneCallPerItem(before, item);
      RunKeepsInv(before);
      StepCalls(Now(before), e, item);
  }

  /** And at most once for a key within a job. */
  lemma {:induction false} OneCallPerKey(run: Run, i: ItemId, k: ItemId)
    requires PossibleRun(run) && CallsMade(run, i) > 0 && CallsMade(run, k) > 0 && i != k
    ensures var items := Now(run).tables.items;
            i in items && k in items && (items[i].job == items[k].job && items[i].key.Some? ==> items[i].key != items[k].key)
  {
    OneCallPerItem(run, i);
    OneCallPerItem(run, k);
    RunKeepsInv(run);
  }

  /** While a call is in flight the user stays bound to the key that is being changed. */
  lemma {:induction false} BindingStaysDuringCall(run: Run, t: ThreadId)
    requires PossibleRun(run) && t in Now(run).threads && Changing(Now(run).tables.items, Now(run).threads[t]).Some?
    ensures var s := Now(run);
            var p := s.threads[t];
            BoundTo(s.tables, if p.Single? then p.user else s.tables.items[p.item].user, Changing(s.tables.items, p).value)
  {
    RunKeepsInv(run);
    assert BindingHolds(Now(run).tables, Now(run).threads[t]);
  }

  // ----- outcomes

  /** A skipped item never reached upstream; succeeded and failed are what upstream said; a confirmed reset ends
      succeeded, or unknown because its job was aborted or the process restarted. */
  lemma {:induction false} OutcomesAreHonest(run: Run, i: ItemId)
    requires PossibleRun(run) && i in Now(run).tables.items
    ensures var s := Now(run);
            var status := s.tables.items[i].status;
            && (status.Skipped? ==> CallsMade(run, i) == 0)
            && (status.Succeeded? ==> i in s.results && s.results[i].Applied?)
            && (status.Failed? ==> i in s.results && s.results[i].Refused?)
            && (i in s.results && s.results[i].Applied? && Terminal(status) ==> status.Succeeded? || (status.Unknown? && s.tables.items[i].job in s.aborted))
            && (i in s.results ==> CallsMade(run, i) == 1)
  {
    RunKeepsInv(run);
    OneCallPerItem(run, i);
    assert OutcomeFits(Now(run), i);
  }

  // ----- draining

  /** When the workers are done and no error was reported, FinishQuotaResetJob passes its transition checks. */
  lemma {:induction false} FinishCannotFail(run: Run, t: ThreadId)
    requires PossibleRun(run) && t in Now(run).threads && Now(run).threads[t].Runner? && Now(run).threads[t].phase.Finishing?
    ensures ResetTables.FinishJob(Now(run).tables, Now(run).threads[t].job).Ok?
  {
    RunKeepsInv(run);
    var s := Now(run);
    assert RunnerFits(s, s.threads[t]);
    FinishJobSucceedsWhenDrained(s.tables, s.threads[t].job);
  }

  /** A store call of the batch fails. */
  predicate StoreFails(a: Action) {
    match a
    case LoadItems(_, _, failed) => failed
    case Validate(failed) => failed
    case CreateJob(_, _, _, _, failure) => failure == Some(IoError)
    case StartJob(_, failure) => failure == Some(IoError)
    case MarkItem(_, failure) => failure == Some(IoError)
    case CompleteItem(_, failure) => failure == Some(IoError)
    case FinishJob(_, failure) => failure == Some(IoError)
    case AbortJob(_, failure) => failure == Some(IoError)
    case _ => false
  }

  ghost predicate Calm(run: Run) { run.Next? ==> Calm(run.before) && !(run.event.By? && StoreFails(run.event.action)) }

  lemma ActionFailures(s: Engine, a: Action, t: ThreadId, p: Thread)
    requires t in s.threads && s.threads[t] == p && ActionEnabled(s, a, t, p) && !StoreFails(a)
    ensures ActionStep(s, a, t, p).ioFailed == s.ioFailed
  {
    if p.Single? {
      SingleLeavesTheBatch(s, a, t, p);
    }
  }

  lemma {:induction false} CalmRunsDoNotFail(run: Run)
    requires PossibleRun(run) && Calm(run)
    ensures !Now(run).ioFailed
  {
    if run.Next? {
      CalmRunsDoNotFail(run.before);
      if run.event.By? {
        ActionFailures(Now(run.before), run.event.action, run.event.t, Now(run.before).threads[run.event.t]);
      }
    }
  }

  /** Without store failures no worker breaks off, no job is cancelled and none is aborted: each is drained and finished. */
  lemma {:induction false} CalmJobsDrain(run: Run, t: ThreadId)
    requires PossibleRun(run) && Calm(run) && t in Now(run).threads
    ensures var p := Now(run).threads[t];
            && (p.Runner? ==> !p.phase.Aborting? && !p.fatal)
            && (p.Worker? ==> !p.stage.Broken? && !p.stage.Breaking?)
  {
    RunKeepsInv(run);
    CalmRunsDoNotFail(run);
    UnfailedThreadsFit(Now(run), t);
  }

  lemma UnfailedThreadsFit(s: Engine, t: ThreadId)
    requires ThreadsInv(s) && !s.ioFailed && t in s.threads
    ensures s.threads[t].Runner? ==> !s.threads[t].phase.Aborting? && !s.threads[t].fatal
    ensures s.threads[t].Worker? ==> !s.threads[t].stage.Broken? && !s.threads[t].stage.Breaking?
  {
    assert s.threads[t].Runner? ==> RunnerFits(s, s.threads[t]);
    assert s.threads[t].Worker? ==> WorkerFits(s, s.threads[t]);
  }

  // ----- conservation

  ghost predicate Extends(earlier: Run, run: Run) { run == earlier || (run.Next? && Extends(earlier, run.before)) }

  /** Along every run jobs and items persist, job statuses only move forward, totals and terminal items never change. */
  lemma {:induction false} RunsAdvance(earlier: Run, run: Run)
    requires PossibleRun(run) && Extends(earlier, run)
    ensures PossibleRun(earlier) && Advances(Now(earlier).tables, Now(run).tables)
  {
    if run != earlier {
      RunsAdvance(earlier, run.before);
      RunKeepsInv(run.before);
      StepKeepsInv(Now(run.before), run.event);
      AdvancesTransitive(Now(earlier).tables, Now(run.before).tables, Now(run).tables);
    }
  }

  lemma AdvancesTransitive(a: Tables, b: Tables, c: Tables)
    requires Advances(a, b) && Advances(b, c)
    ensures Advances(a, c)
  {
  }

  /** In every reachable state at most one job is open, stored counters are the item tallies and add up to the total,
      and a completed job has nothing pending or running. */
  lemma {:induction false} JobsAreConserved(run: Run, j: JobId)
    requires PossibleRun(run) && j in Now(run).tables.jobs
    ensures var t := Now(run).tables;
            var c := t.jobs[j].counters;
            && OneOpen(t.jobs) && Matches(c, t.items, j)
            && c.pending + c.running + c.succeeded + c.failed + c.unknown + c.skipped == c.total
            && (t.jobs[j].status.Completed? ==> c.pending == 0 && c.running == 0)
  {
    RunKeepsInv(run);
    var t := Now(run).tables;
    CountersAddUp(t.jobs[j].counters, t.items, j);
    NothingLeft(t.jobs[j].counters, t.items, j);
  }
}
