/**
 Batch jobs are never stuck: from every reachable state in which no store call has failed there is a way to the
 end of each open job, with every item finished.  The way is the code's own: a thread that holds bindingMu lets it
 go, each busy worker finishes its item, an idle one takes the next, and the runner ends the job.
 */
module ResetProgress {
  import opened Options
  import opened ResetTables
  import opened ResetEngine
  import opened ResetInvariant
  import opened ResetTheorems

  /** One more step, in which no store call fails. */
  lemma {:induction false} Go(origin: Run, run: Run, t: ThreadId, a: Action) returns (longer: Run)
    requires PossibleRun(run) && Calm(run) && Extends(origin, run) && Possible(Now(run), By(t, a)) && !StoreFails(a)
    ensures PossibleRun(longer) && Calm(longer) && Extends(origin, longer) && Now(longer) == Step(Now(run), By(t, a))
  {
    longer := Next(run, By(t, a));
  }

  /** Nothing but this thread has moved, apart from a writer that has ended. */
  ghost predicate SameRest(s: Engine, n: Engine, w: ThreadId) {
    && (forall t :: t in s.threads && t != w && !s.threads[t].Writer? ==> t in n.threads && n.threads[t] == s.threads[t])
    && (forall t :: t in n.threads && t != w ==> t in s.threads && n.threads[t] == s.threads[t])
  }

  lemma SameRestTransitive(s: Engine, m: Engine, n: Engine, w: ThreadId)
    requires SameRest(s, m, w) && SameRest(m, n, w)
    ensures SameRest(s, n, w)
  {
  }

  // ----- bindingMu

  lemma WriterCanEnd(s: Engine, t: ThreadId, w: ThreadId)
    requires LocksInv(s) && s.writer == Some(t) && w in s.threads && s.threads[w].Worker?
    ensures Possible(s, By(t, UnlockWrite))
    ensures var n := Step(s, By(t, UnlockWrite));
            n.writer.None? && SameRest(s, n, w) && w in n.threads && n.threads[w] == s.threads[w]
  {
    assert IsWriter(s, t);
  }

  /** Whoever holds bindingMu for writing can let it go. */
  lemma {:induction false} LetGo(origin: Run, run: Run, w: ThreadId) returns (longer: Run)
    requires PossibleRun(run) && Calm(run) && Extends(origin, run) && w in Now(run).threads && Now(run).threads[w].Worker?
    ensures PossibleRun(longer) && Calm(longer) && Extends(origin, longer) && Now(longer).writer.None?
    ensures SameRest(Now(run), Now(longer), w) && w in Now(longer).threads && Now(longer).threads[w] == Now(run).threads[w]
  {
    longer := run;
    if Now(run).writer.Some? {
      RunKeepsInv(run);
      WriterCanEnd(Now(run), Now(run).writer.value, w);
      longer := Go(origin, run, Now(run).writer.value, UnlockWrite);
    }
  }

  // ----- one worker

  /** How many steps a worker is from the end of its item. */
  function Distance(stage: WorkerStage): nat {
    match stage
    case Idle => 0
    case Took => 11
    case Marked => 10
    case Holding => 9
    case Valid => 8
    case InGate => 7
    case InCall => 6
    case Back => 5
    case Ungated => 4
    case Skipping => 4
    case Released => 3
    case Breaking => 2
    case Broken => 1
  }

  function Afterwards(r: Result<Tables>, t: Tables): Tables { if r.Ok? then r.value else t }

  /** The worker's next step, when its store calls succeed. */
  function NextAction(s: Engine, p: Thread): Action
    requires p.Worker?
  {
    match p.stage
    case Took => MarkItem(Afterwards(MarkItemRunning(s.tables, JobOf(s, p), p.item), s.tables), None)
    case Marked => LockRead
    case Holding => Validate(false)
    case Valid => EnterGate
    case InGate => Call
    case InCall => Return(Lost)
    case Back => LeaveGate
    case Released => CompleteItem(Afterwards(ResetTables.CompleteItem(s.tables, JobOf(s, p), p.item, p.status), s.tables), None)
    case _ => UnlockRead
  }

  ghost predicate Advancing(s: Engine, w: ThreadId) {
    && Inv(s) && !s.ioFailed && w in s.threads && Busy(s.threads[w]) && !s.threads[w].stage.Broken? && !s.threads[w].stage.Breaking?
    && (s.threads[w].stage.Marked? ==> s.writer.None?)
  }

  /** Its transactions pass their checks. */
  lemma MarkingPasses(s: Engine, w: ThreadId)
    requires ThreadsInv(s) && w in s.threads && s.threads[w].Worker? && s.threads[w].stage.Took?
    ensures MarkItemRunning(s.tables, JobOf(s, s.threads[w]), s.threads[w].item).Ok?
  {
    assert WorkerFits(s, s.threads[w]) && RunnerFits(s, s.threads[s.threads[w].runner]);
  }

  lemma CompletionPasses(s: Engine, w: ThreadId)
    requires ThreadsInv(s) && CallsInv(s) && w in s.threads && s.threads[w].Worker? && s.threads[w].stage.Released?
    ensures ResetTables.CompleteItem(s.tables, JobOf(s, s.threads[w]), s.threads[w].item, s.threads[w].status).Ok?
  {
    assert WorkerFits(s, s.threads[w]) && CallFits(s, s.threads[w]) && RunnerFits(s, s.threads[s.threads[w].runner]);
  }

  lemma NextActionIsPossible(s: Engine, w: ThreadId)
    requires Advancing(s, w)
    ensures Possible(s, By(w, NextAction(s, s.threads[w]))) && !StoreFails(NextAction(s, s.threads[w]))
  {
    if s.threads[w].stage.Took? {
      MarkingPasses(s, w);
    } else if s.threads[w].stage.Released? {
      CompletionPasses(s, w);
    }
  }

  /** This worker alone moves, nearer to the end of its item. */
  ghost predicate MovesNearer(s: Engine, n: Engine, w: ThreadId)
    requires w in s.threads && s.threads[w].Worker?
  {
    && w in n.threads && n.threads == s.threads[w := n.threads[w]] && n.threads[w].Worker? && n.threads[w].runner == s.threads[w].runner
    && Distance(n.threads[w].stage) < Distance(s.threads[w].stage)
  }

  lemma StoreStepAdvances(s: Engine, w: ThreadId, p: Thread, a: Action)
    requires w in s.threads && s.threads[w] == p && p.Worker?
    requires (p.stage.Took? && a.MarkItem? && a.failure.None?) || (p.stage.Released? && a.CompleteItem? && a.failure.None?)
    ensures MovesNearer(s, WorkerStep(s, a, w, p), w)
  {
  }

  lemma LockStepAdvances(s: Engine, w: ThreadId, p: Thread, a: Action)
    requires w in s.threads && s.threads[w] == p && p.Worker?
    requires (p.stage.Marked? && a.LockRead?) || (p.stage.Holding? && a == Validate(false)) || ((p.stage.Ungated? || p.stage.Skipping?) && a.UnlockRead?)
    ensures MovesNearer(s, WorkerStep(s, a, w, p), w)
  {
  }

  lemma CallStepAdvances(s: Engine, w: ThreadId, p: Thread, a: Action)
    requires w in s.threads && s.threads[w] == p && p.Worker?
    requires (p.stage.Valid? && a.EnterGate?) || (p.stage.InGate? && a.Call?) || (p.stage.InCall? && a.Return?) || (p.stage.Back? && a.LeaveGate?)
    ensures MovesNearer(s, WorkerStep(s, a, w, p), w)
  {
  }

  lemma NextActionAdvances(s: Engine, w: ThreadId)
    requires Advancing(s, w)
    ensures MovesNearer(s, Step(s, By(w, NextAction(s, s.threads[w]))), w)
  {
    var p, a := s.threads[w], NextAction(s, s.threads[w]);
    if p.stage.Took? || p.stage.Released? {
      StoreStepAdvances(s, w, p, a);
    } else if p.stage.Marked? || p.stage.Holding? || p.stage.Ungated? || p.stage.Skipping? {
      LockStepAdvances(s, w, p, a);
    } else {
      CallStepAdvances(s, w, p, a);
    }
  }

  /** A busy worker takes its next step, once bindingMu is free. */
  lemma {:induction false} WorkerAdvances(origin: Run, run: Run, w: ThreadId) returns (longer: Run)
    requires PossibleRun(run) && Calm(run) && Extends(origin, run) && w in Now(run).threads && Busy(Now(run).threads[w])
    requires Now(run).writer.None?
    ensures PossibleRun(longer) && Calm(longer) && Extends(origin, longer) && MovesNearer(Now(run), Now(longer), w)
  {
    RunKeepsInv(run);
    CalmRunsDoNotFail(run);
    CalmJobsDrain(run, w);
    NextActionIsPossible(Now(run), w);
    NextActionAdvances(Now(run), w);
    longer := Go(origin, run, w, NextAction(Now(run), Now(run).threads[w]));
  }

  lemma {:induction false} WorkerFinishesItem(origin: Run, run: Run, w: ThreadId) returns (longer: Run)
    requires PossibleRun(run) && Calm(run) && Extends(origin, run) && w in Now(run).threads && Now(run).threads[w].Worker?
    ensures PossibleRun(longer) && Calm(longer) && Extends(origin, longer) && SameRest(Now(run), Now(longer), w)
    ensures w in Now(longer).threads && Now(longer).threads[w].Worker? && Now(longer).threads[w].runner == Now(run).threads[w].runner
    ensures Now(longer).threads[w].stage.Idle?
    decreases Distance(Now(run).threads[w].stage)
  {
    if Now(run).threads[w].stage.Idle? {
      return run;
    }
    var free := LetGo(origin, run, w);
    var advanced := WorkerAdvances(origin, free, w);
    longer := WorkerFinishesItem(origin, advanced, w);
    AdvancingIsAlone(Now(free), Now(advanced), w);
    SameRestTransitive(Now(run), Now(free), Now(advanced), w);
    SameRestTransitive(Now(run), Now(advanced), Now(longer), w);
  }

  lemma AdvancingIsAlone(s: Engine, n: Engine, w: ThreadId)
    requires w in s.threads && s.threads[w].Worker? && MovesNearer(s, n, w)
    ensures SameRest(s, n, w)
  {
  }

  // ----- all workers of a runner

  ghost function BusyOf(s: Engine, r: ThreadId): set<ThreadId> {
    set t | t in s.threads && Busy(s.threads[t]) && s.threads[t].runner == r
  }

  ghost function WorkersOf(s: Engine, r: ThreadId): set<ThreadId> {
    set t | t in s.threads && s.threads[t].Worker? && s.threads[t].runner == r
  }

  /** The runner is where it was. */
  ghost predicate SameRunner(s: Engine, n: Engine, r: ThreadId) {
    r in s.threads && s.threads[r].Runner? && r in n.threads && n.threads[r] == s.threads[r]
  }

  lemma {:induction false} ItemsInHandFinish(origin: Run, run: Run, r: ThreadId) returns (longer: Run)
    requires PossibleRun(run) && Calm(run) && Extends(origin, run) && IsDraining(Now(run), r)
    ensures PossibleRun(longer) && Calm(longer) && Extends(origin, longer) && SameRunner(Now(run), Now(longer), r)
    ensures BusyOf(Now(longer), r) == {}
    decreases |BusyOf(Now(run), r)|
  {
    longer := run;
    if BusyOf(Now(run), r) != {} {
      var w :| w in BusyOf(Now(run), r);
      var next := WorkerFinishesItem(origin, run, w);
      assert BusyOf(Now(next), r) <= BusyOf(Now(run), r) - {w};
      SmallerSet(BusyOf(Now(next), r), BusyOf(Now(run), r), w);
      longer := ItemsInHandFinish(origin, next, r);
    }
  }

  lemma SmallerSet<T>(a: set<T>, b: set<T>, x: T)
    requires a <= b - {x} && x in b
    ensures |a| < |b|
  {
    SubsetIsSmaller(a, b - {x});
  }

  lemma {:induction false} SubsetIsSmaller<T>(a: set<T>, b: set<T>)
    requires a <= b
    ensures |a| <= |b|
  {
    if a != {} {
      var x :| x in a;
      SubsetIsSmaller(a - {x}, b - {x});
    }
  }

  // ----- the channel

  lemma TakingIsPossible(s: Engine, w: ThreadId, r: ThreadId)
    requires IsDraining(s, r) && !s.threads[r].fatal && s.threads[r].queue != [] && Serves(s, w, r) && s.threads[w].stage.Idle? && w != r
    ensures Possible(s, By(w, TakeItem))
    ensures var n := Step(s, By(w, TakeItem));
            && r in n.threads && n.threads[r] == s.threads[r].(queue := s.threads[r].queue[1..])
  {
  }

  lemma {:induction false} ChannelEmpties(origin: Run, run: Run, r: ThreadId) returns (longer: Run)
    requires PossibleRun(run) && Calm(run) && Extends(origin, run) && IsDraining(Now(run), r)
    ensures PossibleRun(longer) && Calm(longer) && Extends(origin, longer) && IsDraining(Now(longer), r)
    ensures Now(longer).threads[r] == Now(run).threads[r].(queue := []) && BusyOf(Now(longer), r) == {}
    decreases |Now(run).threads[r].queue|
  {
    var idle := ItemsInHandFinish(origin, run, r);
    longer := idle;
    if Now(idle).threads[r].queue != [] {
      RunKeepsInv(idle);
      CalmJobsDrain(idle, r);
      var w :| Serves(Now(idle), w, r);
      assert w !in BusyOf(Now(idle), r);
      TakingIsPossible(Now(idle), w, r);
      var taken := Go(origin, idle, w, TakeItem);
      longer := ChannelEmpties(origin, taken, r);
    }
  }

  lemma {:induction false} WorkersEnd(origin: Run, run: Run, r: ThreadId) returns (longer: Run)
    requires PossibleRun(run) && Calm(run) && Extends(origin, run) && IsDraining(Now(run), r)
    requires Now(run).threads[r].queue == [] && BusyOf(Now(run), r) == {}
    ensures PossibleRun(longer) && Calm(longer) && Extends(origin, longer) && SameRunner(Now(run), Now(longer), r)
    ensures WorkersOf(Now(longer), r) == {}
    decreases |WorkersOf(Now(run), r)|
  {
    longer := run;
    if WorkersOf(Now(run), r) != {} {
      var w :| w in WorkersOf(Now(run), r);
      assert w !in BusyOf(Now(run), r);
      var next := Go(origin, run, w, WorkerDone);
      assert WorkersOf(Now(next), r) <= WorkersOf(Now(run), r) - {w};
      SmallerSet(WorkersOf(Now(next), r), WorkersOf(Now(run), r), w);
      assert BusyOf(Now(next), r) == {};
      longer := WorkersEnd(origin, next, r);
    }
  }

  // ----- the runner

  ghost predicate WorkedOff(t: Tables, job: JobId) {
    job in t.jobs && t.jobs[job].status.Completed? && AllDone(t, job)
  }

  lemma {:induction false} RunnerFinishes(origin: Run, run: Run, r: ThreadId, job: JobId) returns (longer: Run)
    requires PossibleRun(run) && Calm(run) && Extends(origin, run)
    requires r in Now(run).threads && Now(run).threads[r].Runner? && Now(run).threads[r].phase.Finishing? && Now(run).threads[r].job == job
    ensures PossibleRun(longer) && Calm(longer) && Extends(origin, longer) && WorkedOff(Now(longer).tables, job)
  {
    FinishCannotFail(run, r);
    FinishJobSucceedsWhenDrained(Now(run).tables, job);
    longer := Go(origin, run, r, FinishJob(ResetTables.FinishJob(Now(run).tables, job).value, None));
  }

  lemma {:induction false} DrainingFinishes(origin: Run, run: Run, r: ThreadId, job: JobId) returns (longer: Run)
    requires PossibleRun(run) && Calm(run) && Extends(origin, run) && IsDraining(Now(run), r) && Now(run).threads[r].job == job
    ensures PossibleRun(longer) && Calm(longer) && Extends(origin, longer) && WorkedOff(Now(longer).tables, job)
  {
    var empty := ChannelEmpties(origin, run, r);
    var alone := WorkersEnd(origin, empty, r);
    CalmJobsDrain(alone, r);
    forall w | w in Now(alone).threads && Now(alone).threads[w].Worker?
      ensures Now(alone).threads[w].runner != r
    {
      assert w !in WorkersOf(Now(alone), r);
    }
    var drained := Go(origin, alone, r, Drained);
    longer := RunnerFinishes(origin, drained, r, job);
  }

  // ----- the start of a job

  lemma {:induction false} InOrderOf(items: set<ItemId>) returns (queue: seq<ItemId>)
    ensures forall i :: i in queue <==> i in items
    ensures forall i, k :: 0 <= i < k < |queue| ==> queue[i] < queue[k]
    decreases |items|
  {
    queue := [];
    if items != {} {
      var last := Greatest(items);
      var rest := InOrderOf(items - {last});
      queue := rest + [last];
      forall i, k | 0 <= i < k < |queue|
        ensures queue[i] < queue[k]
      {
        assert queue[i] in rest;
      }
    }
  }

  lemma {:induction false} Greatest(items: set<nat>) returns (greatest: nat)
    requires items != {}
    ensures greatest in items && forall i :: i in items ==> i <= greatest
    decreases |items|
  {
    greatest :| greatest in items;
    if items != {greatest} {
      var other := Greatest(items - {greatest});
      assert forall i :: i in items ==> i == greatest || i in items - {greatest};
      greatest := if greatest < other then other else greatest;
    }
  }

  lemma {:induction false} UnusedIds(used: set<ThreadId>) returns (ids: set<ThreadId>)
    ensures ids !! used && |ids| == WORKERS
  {
    var top: nat := 0;
    if used != {} {
      top := Greatest(used);
    }
    ids := {top + 1, top + 2, top + 3, top + 4};
  }

  lemma {:induction false} LoadingFinishes(origin: Run, run: Run, r: ThreadId, job: JobId) returns (longer: Run)
    requires PossibleRun(run) && Calm(run) && Extends(origin, run)
    requires r in Now(run).threads && Now(run).threads[r].Runner? && Now(run).threads[r].phase.Loading? && Now(run).threads[r].job == job
    ensures PossibleRun(longer) && Calm(longer) && Extends(origin, longer) && WorkedOff(Now(longer).tables, job)
  {
    var items := ItemsOf(Now(run).tables.items, job);
    var queue := InOrderOf(items);
    assert forall i :: i in queue <==> i in items;
    var workers := UnusedIds(Now(run).threads.Keys);
    var loaded := Go(origin, run, r, LoadItems(queue, workers, false));
    longer := DrainingFinishes(origin, loaded, r, job);
  }

  lemma {:induction false} StartingFinishes(origin: Run, run: Run, r: ThreadId, job: JobId) returns (longer: Run)
    requires PossibleRun(run) && Calm(run) && Extends(origin, run)
    requires r in Now(run).threads && Now(run).threads[r].Runner? && Now(run).threads[r].phase.Starting? && Now(run).threads[r].job == job
    ensures PossibleRun(longer) && Calm(longer) && Extends(origin, longer) && WorkedOff(Now(longer).tables, job)
  {
    RunKeepsInv(run);
    assert RunnerFits(Now(run), Now(run).threads[r]);
    var started := Go(origin, run, r, StartJob(MarkJobRunning(Now(run).tables, job).value, None));
    longer := LoadingFinishes(origin, started, r, job);
  }

  /** From every reachable state in which no store call has failed, the job of every runner can be worked off. */
  lemma {:induction false} CalmRunnersFinish(run: Run, r: ThreadId) returns (longer: Run)
    requires PossibleRun(run) && Calm(run) && r in Now(run).threads && Now(run).threads[r].Runner?
    ensures PossibleRun(longer) && Calm(longer) && Extends(run, longer) && WorkedOff(Now(longer).tables, Now(run).threads[r].job)
  {
    var job := Now(run).threads[r].job;
    CalmJobsDrain(run, r);
    match Now(run).threads[r].phase {
      case Starting => longer := StartingFinishes(run, run, r, job);
      case Loading => longer := LoadingFinishes(run, run, r, job);
      case Draining => longer := DrainingFinishes(run, run, r, job);
      case Finishing => longer := RunnerFinishes(run, run, r, job);
      case Aborting => assert false;
    }
  }

  // ----- every open job has a runner

  ghost predicate RunsJob(s: Engine, r: ThreadId, j: JobId) { r in s.threads && s.threads[r].Runner? && s.threads[r].job == j }

  ghost predicate Staffed(s: Engine) {
    forall j :: j in s.tables.jobs && Open(s.tables.jobs[j].status) ==> exists r :: RunsJob(s, r, j)
  }

  /** No runner has gone and no job has been opened. */
  ghost predicate KeepsRunners(s: Engine, n: Engine) {
    && (forall r, j :: RunsJob(s, r, j) ==> RunsJob(n, r, j))
    && (forall j :: j in n.tables.jobs && Open(n.tables.jobs[j].status) ==> j in s.tables.jobs && Open(s.tables.jobs[j].status))
  }

  lemma KeptRunnersServe(s: Engine, n: Engine)
    requires Staffed(s) && KeepsRunners(s, n)
    ensures Staffed(n)
  {
    forall j | j in n.tables.jobs && Open(n.tables.jobs[j].status)
      ensures exists r :: RunsJob(n, r, j)
    {
      var r :| RunsJob(s, r, j);
      assert RunsJob(n, r, j);
    }
  }

  lemma SingleKeepsRunners(s: Engine, a: Action, t: ThreadId, p: Thread)
    requires t in s.threads && s.threads[t] == p && p.Single? && SingleEnabled(s, a, p.at)
    ensures KeepsRunners(s, SingleStep(s, a, t, p))
  {
  }

  lemma WriterKeepsRunners(s: Engine, a: Action, t: ThreadId, p: Thread)
    requires t in s.threads && s.threads[t] == p && p.Writer? && WriterEnabled(s, a, p.holding) && TransactionFollows(s, a, p)
    requires TablesInv(s.tables)
    ensures KeepsRunners(s, WriterStep(s, a, t))
  {
    if a.ChangeUser? && ResetTables.ChangeUser(s.tables, a.change).Ok? {
      ChangeUserIsSound(s.tables, a.change);
    }
  }

  lemma WorkerKeepsRunners(s: Engine, a: Action, t: ThreadId, p: Thread)
    requires t in s.threads && s.threads[t] == p && p.Worker? && WorkerEnabled(s, a, p.runner, p.stage) && TransactionFollows(s, a, p)
    ensures KeepsRunners(s, WorkerStep(s, a, t, p))
  {
  }

  /** A job is opened together with its runner. */
  lemma CreatorKeepsStaff(s: Engine, a: Action, t: ThreadId, p: Thread)
    requires Staffed(s) && t in s.threads && s.threads[t] == p && p.Creator? && CreatorEnabled(s, a, p.inside) && TransactionFollows(s, a, p)
    requires !StoreFails(a)
    ensures Staffed(CreatorStep(s, a, t))
  {
    var n := CreatorStep(s, a, t);
    if a.CreateJob? && a.failure.None? {
      forall j | j in n.tables.jobs && Open(n.tables.jobs[j].status)
        ensures exists r :: RunsJob(n, r, j)
      {
        assert j == a.job && RunsJob(n, a.runner, j);
      }
    } else {
      KeptRunnersServe(s, n);
    }
  }

  /** A runner ends together with its job. */
  lemma RunnerKeepsStaff(s: Engine, a: Action, t: ThreadId, p: Thread)
    requires Staffed(s) && t in s.threads && s.threads[t] == p && p.Runner? && RunnerEnabled(s, a, t, p.job, p.phase) && TransactionFollows(s, a, p)
    requires !StoreFails(a) && !p.phase.Aborting?
    ensures Staffed(RunnerStep(s, a, t, p))
  {
    var n := RunnerStep(s, a, t, p);
    forall j | j in n.tables.jobs && Open(n.tables.jobs[j].status)
      ensures exists r :: RunsJob(n, r, j)
    {
      var r :| RunsJob(s, r, j);
      assert RunsJob(n, r, j);
    }
  }

  lemma ActionKeepsStaff(s: Engine, a: Action, t: ThreadId, p: Thread)
    requires TablesInv(s.tables) && Staffed(s) && t in s.threads && s.threads[t] == p && ActionEnabled(s, a, t, p) && TransactionFollows(s, a, p)
    requires !StoreFails(a) && !(p.Runner? && p.phase.Aborting?)
    ensures Staffed(ActionStep(s, a, t, p))
  {
    match p
    case Single(_, _, _) =>
      SingleKeepsRunners(s, a, t, p);
      KeptRunnersServe(s, SingleStep(s, a, t, p));
    case Writer(_) =>
      WriterKeepsRunners(s, a, t, p);
      KeptRunnersServe(s, WriterStep(s, a, t));
    case Worker(_, _, _, _) =>
      WorkerKeepsRunners(s, a, t, p);
      KeptRunnersServe(s, WorkerStep(s, a, t, p));
    case Creator(_) => CreatorKeepsStaff(s, a, t, p);
    case Runner(_, _, _, _) => RunnerKeepsStaff(s, a, t, p);
  }

  lemma UserUpdateKeepsStaff(s: Engine, user: UserId, disabled: bool, next: Tables, failure: Option<Error>)
    requires TablesInv(s.tables) && Staffed(s) && Follows(s.tables, next, ResetTables.UpdateUser(s.tables, user, disabled), failure)
    ensures Staffed(s.(tables := next))
  {
    if ResetTables.UpdateUser(s.tables, user, disabled).Ok? {
      UpdateUserIsSound(s.tables, user, disabled);
    }
    KeptRunnersServe(s, s.(tables := next));
  }

  lemma RestartKeepsStaff(s: Engine, next: Tables)
    requires TablesInv(s.tables) && Recovered(s.tables, next)
    ensures Staffed(Step(s, Restart(next)))
  {
    RecoveredIsSound(s.tables, next);
  }

  lemma StepKeepsStaff(s: Engine, e: Event)
    requires TablesInv(s.tables) && ThreadsInv(s) && !s.ioFailed && Staffed(s) && Possible(s, e) && (e.By? ==> !StoreFails(e.action))
    ensures Staffed(Step(s, e))
  {
    match e
    case By(t, a) =>
      UnfailedThreadsFit(s, t);
      ActionKeepsStaff(s, a, t, s.threads[t]);
    case Arrive(t, p) => KeptRunnersServe(s, To(s, t, p));
    case UpdateUser(user, disabled, next, failure) => UserUpdateKeepsStaff(s, user, disabled, next, failure);
    case ListKeys(listed) => KeptRunnersServe(s, s.(tables := KeysListed(s.tables, listed)));
    case Restart(next) => RestartKeepsStaff(s, next);
  }

  lemma {:induction false} OpenJobsHaveRunners(run: Run)
    requires PossibleRun(run) && Calm(run)
    ensures Staffed(Now(run))
  {
    if run.Next? {
      OpenJobsHaveRunners(run.before);
      RunKeepsInv(run.before);
      CalmRunsDoNotFail(run.before);
      StepKeepsStaff(Now(run.before), run.event);
    }
  }

  /** In every reachable state in which no store call has failed, every open job can be worked off. */
  lemma {:induction false} OpenJobsCanFinish(run: Run, job: JobId) returns (longer: Run)
    requires PossibleRun(run) && Calm(run) && job in Now(run).tables.jobs && Open(Now(run).tables.jobs[job].status)
    ensures PossibleRun(longer) && Calm(longer) && Extends(run, longer) && WorkedOff(Now(longer).tables, job)
  {
    OpenJobsHaveRunners(run);
    var r :| RunsJob(Now(run), r, job);
    longer := CalmRunnersFinish(run, r);
  }
}
