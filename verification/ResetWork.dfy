/** The runner, its workers and the upstream calls: every step keeps what ResetInvariant says of them. */
module ResetWork {
  import opened Options
  import opened ResetTables
  import opened ResetEngine
  import opened ResetInvariant

  ghost predicate WorkInv(s: Engine) { ThreadsInv(s) && ServiceInv(s) && CoverageInv(s) && CallsInv(s) }

  // ----- steps that have nothing to do with a job

  predicate OfAJob(p: Thread) { p.Runner? || p.Worker? }

  /** Jobs, items, runners, workers and calls are the same. */
  ghost predicate SameWork(s: Engine, n: Engine) {
    && n.tables.jobs == s.tables.jobs && n.tables.items == s.tables.items
    && n.called == s.called && n.results == s.results && n.aborted == s.aborted && n.ioFailed == s.ioFailed
    && (forall t :: t in s.threads && OfAJob(s.threads[t]) ==> t in n.threads && n.threads[t] == s.threads[t])
    && (forall t :: t in n.threads && OfAJob(n.threads[t]) ==> t in s.threads && n.threads[t] == s.threads[t])
  }

  lemma SameWorkKeepsThreads(s: Engine, n: Engine)
    requires ThreadsInv(s) && SameWork(s, n)
    ensures ThreadsInv(n)
  {
    forall t | t in n.threads && n.threads[t].Runner?
      ensures RunnerFits(n, n.threads[t])
    {
      assert RunnerFits(s, s.threads[t]);
    }
    forall t | t in n.threads && n.threads[t].Worker?
      ensures WorkerFits(n, n.threads[t])
    {
      assert WorkerFits(s, s.threads[t]);
    }
  }

  lemma SameWorkKeepsCoverage(s: Engine, n: Engine)
    requires ServiceInv(s) && CoverageInv(s) && SameWork(s, n)
    ensures ServiceInv(n) && CoverageInv(n)
  {
    forall r | r in n.threads && IsDraining(n, r) && n.threads[r].queue != []
      ensures exists w :: Serves(n, w, r)
    {
      assert IsDraining(s, r);
      var w :| Serves(s, w, r);
      assert Serves(n, w, r);
    }
    forall r, i | r in n.threads && IsDraining(n, r) && !n.threads[r].fatal && i in n.tables.items &&
                  n.tables.items[i].job == n.threads[r].job && !Terminal(n.tables.items[i].status) && i !in n.threads[r].queue
      ensures exists w :: Owns(n, w, i)
    {
      assert IsDraining(s, r);
      var w :| Owns(s, w, i);
      assert Owns(n, w, i);
    }
  }

  lemma SameWorkKeepsCalls(s: Engine, n: Engine)
    requires CallsInv(s) && SameWork(s, n)
    ensures CallsInv(n)
  {
    forall t | t in n.threads && Busy(n.threads[t])
      ensures CallFits(n, n.threads[t])
    {
      assert CallFits(s, s.threads[t]);
    }
    forall i | i in n.tables.items
      ensures OutcomeFits(n, i)
    {
      assert OutcomeFits(s, i);
    }
  }

  // ----- a worker works on its item

  /** A busy worker goes from `p` to `q`; its item's status becomes `x`. */
  ghost predicate WorkerMoves(s: Engine, n: Engine, t: ThreadId, q: Thread, x: ItemStatus) {
    && t in s.threads && Busy(s.threads[t]) && WorkerFits(s, s.threads[t])
    && var p := s.threads[t];
       && n.threads == s.threads[t := q] && q.Worker? && q.runner == p.runner && q.item == p.item
       && SameStatuses(s.tables.jobs, n.tables.jobs)
       && n.tables.items == s.tables.items[p.item := s.tables.items[p.item].(status := x)]
       && (Terminal(s.tables.items[p.item].status) ==> x == s.tables.items[p.item].status)
       && s.called <= n.called <= s.called + {p.item}
       && (forall i :: i in n.results ==> i in n.called)
       && (forall i :: i != p.item ==> (i in n.results <==> i in s.results) && (i in s.results ==> n.results[i] == s.results[i]))
       && n.aborted == s.aborted && (s.ioFailed ==> n.ioFailed)
  }

  predicate StageFits(q: Thread, x: ItemStatus, ioFailed: bool)
    requires q.Worker?
  {
    match q.stage
    case Idle => Terminal(x)
    case Took => x.Pending?
    case Broken => ioFailed
    case Breaking => ioFailed && x.InProgress?
    case _ => x.InProgress?
  }

  lemma MovedWorkerFits(s: Engine, n: Engine, t: ThreadId, q: Thread, x: ItemStatus)
    requires ThreadsInv(s) && WorkerMoves(s, n, t, q, x) && StageFits(q, x, n.ioFailed)
    ensures ThreadsInv(n)
  {
    var p := s.threads[t];
    forall u | u in n.threads && n.threads[u].Runner?
      ensures RunnerFits(n, n.threads[u])
    {
      assert u != t && RunnerFits(s, s.threads[u]);
      assert u != p.runner ==> s.threads[u].job != s.threads[p.runner].job;
    }
    forall u | u in n.threads && n.threads[u].Worker?
      ensures WorkerFits(n, n.threads[u])
    {
      assert u != t ==> WorkerFits(s, s.threads[u]);
    }
  }

  lemma MovedWorkerCovers(s: Engine, n: Engine, t: ThreadId, q: Thread, x: ItemStatus)
    requires ServiceInv(s) && CoverageInv(s) && WorkerMoves(s, n, t, q, x) && StageFits(q, x, n.ioFailed)
    ensures ServiceInv(n) && CoverageInv(n)
  {
    forall r | r in n.threads && IsDraining(n, r) && n.threads[r].queue != []
      ensures exists w :: Serves(n, w, r)
    {
      assert IsDraining(s, r);
      var w :| Serves(s, w, r);
      assert Serves(n, w, r);
    }
    forall r, i | r in n.threads && IsDraining(n, r) && !n.threads[r].fatal && i in n.tables.items &&
                  n.tables.items[i].job == n.threads[r].job && !Terminal(n.tables.items[i].status) && i !in n.threads[r].queue
      ensures exists w :: Owns(n, w, i)
    {
      assert IsDraining(s, r);
      var w :| Owns(s, w, i);
      assert Owns(n, w, i);
    }
  }

  lemma MovedWorkerCalls(s: Engine, n: Engine, t: ThreadId, q: Thread, x: ItemStatus)
    requires ThreadsInv(s) && CallsInv(s) && WorkerMoves(s, n, t, q, x)
    requires Busy(q) ==> CallFits(n, q)
    requires OutcomeFits(n, q.item)
    ensures CallsInv(n)
  {
    forall u | u in n.threads && Busy(n.threads[u])
      ensures CallFits(n, n.threads[u])
    {
      assert u != t ==> CallFits(s, s.threads[u]) && s.threads[u].item != q.item;
    }
    forall i | i in n.tables.items
      ensures OutcomeFits(n, i)
    {
      assert i != q.item ==> OutcomeFits(s, i);
    }
  }

  /** What the invariant says of a busy worker, apart from all others. */
  ghost predicate Knows(s: Engine, p: Thread) {
    && Busy(p) && WorkerFits(s, p) && CallFits(s, p) && OutcomeFits(s, p.item)
    && (forall i :: i in s.results ==> i in s.called) && RunnerFits(s, s.threads[p.runner])
  }

  /** The worker's move is one of those WorkerMoveKeepsWork covers. */
  ghost predicate GoodMove(s: Engine, n: Engine, t: ThreadId, x: ItemStatus) {
    && t in n.threads && WorkerMoves(s, n, t, n.threads[t], x) && StageFits(n.threads[t], x, n.ioFailed)
    && (Busy(n.threads[t]) ==> CallFits(n, n.threads[t])) && OutcomeFits(n, n.threads[t].item)
  }

  lemma CallIsGood(s: Engine, a: Action, t: ThreadId, p: Thread)
    requires t in s.threads && s.threads[t] == p && p.Worker? && WorkerEnabled(s, a, p.runner, p.stage) && Knows(s, p)
    requires a.Call? || a.Return?
    ensures GoodMove(s, WorkerStep(s, a, t, p), t, InProgress)
  {
    assert s.tables.items == s.tables.items[p.item := s.tables.items[p.item].(status := InProgress)];
  }

  lemma LockingIsGood(s: Engine, a: Action, t: ThreadId, p: Thread)
    requires t in s.threads && s.threads[t] == p && p.Worker? && WorkerEnabled(s, a, p.runner, p.stage) && Knows(s, p)
    requires a.LockRead? || a.UnlockRead?
    ensures GoodMove(s, WorkerStep(s, a, t, p), t, InProgress)
  {
    assert s.tables.items == s.tables.items[p.item := s.tables.items[p.item].(status := InProgress)];
  }

  lemma CheckIsGood(s: Engine, a: Action, t: ThreadId, p: Thread)
    requires t in s.threads && s.threads[t] == p && p.Worker? && WorkerEnabled(s, a, p.runner, p.stage) && Knows(s, p)
    requires a.Validate? || a.EnterGate? || a.LeaveGate?
    ensures GoodMove(s, WorkerStep(s, a, t, p), t, InProgress)
  {
    assert s.tables.items == s.tables.items[p.item := s.tables.items[p.item].(status := InProgress)];
  }

  lemma MarkingIsGood(s: Engine, a: Action, t: ThreadId, p: Thread)
    requires t in s.threads && s.threads[t] == p && p.Worker? && WorkerEnabled(s, a, p.runner, p.stage) && Knows(s, p)
    requires a.MarkItem? && TransactionFollows(s, a, p)
    ensures p.item in a.next.items && GoodMove(s, WorkerStep(s, a, t, p), t, a.next.items[p.item].status)
  {
    MarkItemEffect(s.tables, a.next, JobOf(s, p), p.item, a.failure);
    assert s.tables.items == s.tables.items[p.item := s.tables.items[p.item].(status := Pending)];
  }

  lemma CompletedOutcomeFits(s: Engine, a: Action, t: ThreadId, p: Thread)
    requires t in s.threads && s.threads[t] == p && p.Worker? && p.stage.Released? && Knows(s, p) && a.CompleteItem?
    requires ItemSet(s.tables, a.next, p.item, p.status) || a.next == s.tables
    ensures p.item in a.next.items && OutcomeFits(WorkerStep(s, a, t, p), p.item)
  {
  }

  lemma CompletionIsGood(s: Engine, a: Action, t: ThreadId, p: Thread)
    requires t in s.threads && s.threads[t] == p && p.Worker? && WorkerEnabled(s, a, p.runner, p.stage) && Knows(s, p)
    requires a.CompleteItem? && TransactionFollows(s, a, p)
    ensures p.item in a.next.items && GoodMove(s, WorkerStep(s, a, t, p), t, a.next.items[p.item].status)
  {
    CompleteItemEffect(s.tables, a.next, JobOf(s, p), p.item, p.status, a.failure);
    CompletedOutcomeFits(s, a, t, p);
    assert s.tables.items == s.tables.items[p.item := s.tables.items[p.item].(status := InProgress)];
  }

  predicate ItemAction(a: Action) {
    || a.Call? || a.Return? || a.LockRead? || a.UnlockRead? || a.Validate? || a.EnterGate? || a.LeaveGate?
    || a.MarkItem? || a.CompleteItem?
  }

  lemma {:induction false} ItemActionIsGood(s: Engine, a: Action, t: ThreadId, p: Thread) returns (x: ItemStatus)
    requires t in s.threads && s.threads[t] == p && p.Worker? && WorkerEnabled(s, a, p.runner, p.stage) && Knows(s, p)
    requires ItemAction(a) && TransactionFollows(s, a, p)
    ensures GoodMove(s, WorkerStep(s, a, t, p), t, x)
  {
    x := InProgress;
    if a.Call? || a.Return? {
      CallIsGood(s, a, t, p);
    } else if a.LockRead? || a.UnlockRead? {
      LockingIsGood(s, a, t, p);
    } else if a.MarkItem? {
      MarkingIsGood(s, a, t, p);
      x := a.next.items[p.item].status;
    } else if a.CompleteItem? {
      CompletionIsGood(s, a, t, p);
      x := a.next.items[p.item].status;
    } else {
      CheckIsGood(s, a, t, p);
    }
  }

  lemma WorkIsKnown(s: Engine, t: ThreadId)
    requires ThreadsInv(s) && CallsInv(s) && t in s.threads && Busy(s.threads[t])
    ensures Knows(s, s.threads[t])
  {
    assert WorkerFits(s, s.threads[t]);
  }

  lemma ItemActionKeepsWork(s: Engine, a: Action, t: ThreadId, p: Thread)
    requires WorkInv(s) && t in s.threads && s.threads[t] == p && p.Worker? && WorkerEnabled(s, a, p.runner, p.stage)
    requires ItemAction(a) && TransactionFollows(s, a, p)
    ensures WorkInv(WorkerStep(s, a, t, p))
  {
    WorkIsKnown(s, t);
    var x := ItemActionIsGood(s, a, t, p);
    var n := WorkerStep(s, a, t, p);
    GoodMoveKeepsWork(s, n, t, x);
  }

  lemma GoodMoveKeepsWork(s: Engine, n: Engine, t: ThreadId, x: ItemStatus)
    requires WorkInv(s) && GoodMove(s, n, t, x)
    ensures WorkInv(n)
  {
    MovedWorkerFits(s, n, t, n.threads[t], x);
    MovedWorkerCovers(s, n, t, n.threads[t], x);
    MovedWorkerCalls(s, n, t, n.threads[t], x);
  }

  // ----- a worker takes an item, reports an error or ends

  /** An idle worker receives the next item of its runner's channel. */
  ghost predicate Takes(s: Engine, n: Engine, t: ThreadId) {
    && t in s.threads && s.threads[t].Worker? && s.threads[t].stage.Idle? && IsDraining(s, s.threads[t].runner)
    && var p := s.threads[t];
       var r := s.threads[p.runner];
       && r.queue != []
       && n == s.(threads := s.threads[p.runner := r.(queue := r.queue[1..])][t := if r.fatal then p else p.(stage := Took, item := r.queue[0])])
  }

  /** A worker's error cancels its job. */
  ghost predicate Reports(s: Engine, n: Engine, t: ThreadId) {
    && t in s.threads && s.threads[t].Worker? && s.threads[t].stage.Broken? && IsDraining(s, s.threads[t].runner)
    && var p := s.threads[t];
       n == s.(threads := s.threads[p.runner := s.threads[p.runner].(fatal := true)][t := p.(stage := Idle)])
  }

  lemma TakingKeepsRunners(s: Engine, n: Engine, t: ThreadId, p: Thread)
    requires ThreadsInv(s) && t in s.threads && s.threads[t] == p && p.Worker? && Takes(s, n, t)
    ensures forall u :: u in n.threads && n.threads[u].Runner? ==> RunnerFits(n, n.threads[u])
  {
    var r := s.threads[p.runner];
    assert r.queue == [r.queue[0]] + r.queue[1..];
    forall u | u in n.threads && n.threads[u].Runner?
      ensures RunnerFits(n, n.threads[u])
    {
      assert RunnerFits(s, s.threads[u]);
    }
  }

  lemma TakingKeepsWorkers(s: Engine, n: Engine, t: ThreadId, p: Thread)
    requires ThreadsInv(s) && t in s.threads && s.threads[t] == p && p.Worker? && Takes(s, n, t)
    ensures forall u :: u in n.threads && n.threads[u].Worker? ==> WorkerFits(n, n.threads[u])
    ensures forall u :: u in s.threads && Busy(s.threads[u]) ==> s.threads[u].item != s.threads[p.runner].queue[0]
  {
    var r := s.threads[p.runner];
    assert RunnerFits(s, r) && r.queue[0] in r.queue && r.queue == [r.queue[0]] + r.queue[1..];
    forall u | u in s.threads && s.threads[u].Worker?
      ensures WorkerFits(n, n.threads[u]) && (Busy(s.threads[u]) ==> s.threads[u].item != r.queue[0])
    {
      assert WorkerFits(s, s.threads[u]);
    }
  }

  lemma TakingKeepsThreads(s: Engine, n: Engine, t: ThreadId, p: Thread)
    requires ThreadsInv(s) && t in s.threads && s.threads[t] == p && p.Worker? && Takes(s, n, t)
    ensures ThreadsInv(n)
  {
    TakingKeepsRunners(s, n, t, p);
    TakingKeepsWorkers(s, n, t, p);
    StillDistinct(s.threads, n.threads, t);
  }

  /** Runners keep their jobs; only `t` may have a new item, which no other worker has. */
  lemma StillDistinct(before: map<ThreadId, Thread>, after: map<ThreadId, Thread>, t: ThreadId)
    requires DistinctInv(before) && after.Keys == before.Keys
    requires forall u :: u in before ==> (before[u].Runner? <==> after[u].Runner?) && (before[u].Runner? ==> after[u].job == before[u].job)
    requires forall u :: u in before && u != t && Busy(after[u]) ==> after[u] == before[u] && (t in after && Busy(after[t]) ==> after[u].item != after[t].item)
    ensures DistinctInv(after)
  {
  }

  lemma TakingKeepsService(s: Engine, n: Engine, t: ThreadId, p: Thread)
    requires ThreadsInv(s) && ServiceInv(s)
    requires t in s.threads && s.threads[t] == p && p.Worker? && Takes(s, n, t)
    ensures ServiceInv(n)
  {
    forall r | r in n.threads && IsDraining(n, r) && n.threads[r].queue != []
      ensures exists w :: Serves(n, w, r)
    {
      assert IsDraining(s, r);
      var w :| Serves(s, w, r);
      assert Serves(n, w, r);
    }
  }

  lemma TakingKeepsCoverage(s: Engine, n: Engine, t: ThreadId, p: Thread)
    requires ThreadsInv(s) && ServiceInv(s) && CoverageInv(s)
    requires t in s.threads && s.threads[t] == p && p.Worker? && Takes(s, n, t)
    ensures ServiceInv(n) && CoverageInv(n)
  {
    TakingKeepsService(s, n, t, p);
    var queue := s.threads[p.runner].queue;
    assert queue == [queue[0]] + queue[1..];
    forall r, i | r in n.threads && IsDraining(n, r) && !n.threads[r].fatal && i in n.tables.items &&
                  n.tables.items[i].job == n.threads[r].job && !Terminal(n.tables.items[i].status) && i !in n.threads[r].queue
      ensures exists w :: Owns(n, w, i)
    {
      assert IsDraining(s, r);
      if i in s.threads[r].queue {
        assert Owns(n, t, i);
      } else {
        var w :| Owns(s, w, i);
        assert Owns(n, w, i);
      }
    }
  }

  lemma TakingKeepsCalls(s: Engine, n: Engine, t: ThreadId, p: Thread)
    requires ThreadsInv(s) && CallsInv(s) && t in s.threads && s.threads[t] == p && p.Worker? && Takes(s, n, t)
    ensures CallsInv(n)
  {
    var r := s.threads[p.runner];
    assert RunnerFits(s, r) && r.queue[0] in r.queue && OutcomeFits(s, r.queue[0]);
    forall u | u in n.threads && Busy(n.threads[u])
      ensures CallFits(n, n.threads[u])
    {
      assert u != t ==> CallFits(s, s.threads[u]);
    }
    forall i | i in n.tables.items
      ensures OutcomeFits(n, i)
    {
      assert OutcomeFits(s, i);
    }
  }

  lemma ReportingKeepsThreads(s: Engine, n: Engine, t: ThreadId, p: Thread)
    requires ThreadsInv(s) && t in s.threads && s.threads[t] == p && p.Worker? && Reports(s, n, t)
    ensures ThreadsInv(n)
  {
    assert WorkerFits(s, p);
    forall u | u in n.threads && n.threads[u].Runner?
      ensures RunnerFits(n, n.threads[u])
    {
      assert RunnerFits(s, s.threads[u]);
    }
    forall u | u in n.threads && n.threads[u].Worker?
      ensures WorkerFits(n, n.threads[u])
    {
      assert WorkerFits(s, s.threads[u]);
    }
  }

  lemma ReportingKeepsCoverage(s: Engine, n: Engine, t: ThreadId, p: Thread)
    requires ThreadsInv(s) && ServiceInv(s) && CoverageInv(s)
    requires t in s.threads && s.threads[t] == p && p.Worker? && Reports(s, n, t)
    ensures ServiceInv(n) && CoverageInv(n)
  {
    assert WorkerFits(s, p);
    LosingATakerIsFine(s, n, t);
  }

  lemma ReportingKeepsWork(s: Engine, n: Engine, t: ThreadId, p: Thread)
    requires WorkInv(s) && t in s.threads && s.threads[t] == p && p.Worker? && Reports(s, n, t)
    ensures WorkInv(n)
  {
    ReportingKeepsThreads(s, n, t, p);
    ReportingKeepsCoverage(s, n, t, p);
    FewerBusyWorkersFit(s, n);
  }

  lemma FewerBusyWorkersFit(s: Engine, n: Engine)
    requires CallsInv(s) && n.tables == s.tables && n.called == s.called && n.results == s.results && n.aborted == s.aborted
    requires forall t :: t in n.threads && Busy(n.threads[t]) ==> t in s.threads && s.threads[t] == n.threads[t]
    ensures CallsInv(n)
  {
    forall t | t in n.threads && Busy(n.threads[t])
      ensures CallFits(n, n.threads[t])
    {
      assert CallFits(s, s.threads[t]);
    }
    forall i | i in n.tables.items
      ensures OutcomeFits(n, i)
    {
      assert OutcomeFits(s, i);
    }
  }

  /** A thread that owns no item of an uncancelled job may change as long as channels with items stay served. */
  lemma LosingATakerIsFine(s: Engine, n: Engine, t: ThreadId)
    requires ServiceInv(s) && CoverageInv(s) && n.tables == s.tables && t in s.threads && s.threads[t].Worker?
    requires forall r :: r in n.threads && IsDraining(n, r) ==>
               r in s.threads && IsDraining(s, r) && n.threads[r].queue == s.threads[r].queue && n.threads[r].job == s.threads[r].job &&
               (s.threads[r].fatal ==> n.threads[r].fatal)
    requires forall w :: w in s.threads && w != t && s.threads[w].Worker? ==> w in n.threads && n.threads[w] == s.threads[w]
    requires if t in n.threads
             then IsDraining(n, s.threads[t].runner) && n.threads[s.threads[t].runner].fatal && n.threads[t] == s.threads[t].(stage := Idle) && WorkerFits(s, s.threads[t])
             else !Busy(s.threads[t]) && IsDraining(s, s.threads[t].runner) && s.threads[s.threads[t].runner].queue == []
    requires ThreadsInv(s)
    ensures ServiceInv(n) && CoverageInv(n)
  {
    forall r | r in n.threads && IsDraining(n, r) && n.threads[r].queue != []
      ensures exists w :: Serves(n, w, r)
    {
      assert IsDraining(s, r);
      var w :| Serves(s, w, r);
      assert Serves(n, w, r);
    }
    forall r, i | r in n.threads && IsDraining(n, r) && !n.threads[r].fatal && i in n.tables.items &&
                  n.tables.items[i].job == n.threads[r].job && !Terminal(n.tables.items[i].status) && i !in n.threads[r].queue
      ensures exists w :: Owns(n, w, i)
    {
      assert IsDraining(s, r);
      var w :| Owns(s, w, i);
      assert WorkerFits(s, s.threads[w]);
      assert Owns(n, w, i);
    }
  }

  lemma EndingKeepsThreads(s: Engine, n: Engine, t: ThreadId, p: Thread)
    requires ThreadsInv(s) && t in s.threads && s.threads[t] == p && p.Worker? && WorkerEnabled(s, WorkerDone, p.runner, p.stage) && n == Gone(s, t)
    ensures ThreadsInv(n)
  {
    forall u | u in n.threads && n.threads[u].Runner?
      ensures RunnerFits(n, n.threads[u])
    {
      assert RunnerFits(s, s.threads[u]);
    }
    forall u | u in n.threads && n.threads[u].Worker?
      ensures WorkerFits(n, n.threads[u])
    {
      assert WorkerFits(s, s.threads[u]);
    }
  }

  lemma EndingKeepsWork(s: Engine, n: Engine, t: ThreadId, p: Thread)
    requires WorkInv(s) && t in s.threads && s.threads[t] == p && p.Worker? && WorkerEnabled(s, WorkerDone, p.runner, p.stage) && n == Gone(s, t)
    ensures WorkInv(n)
  {
    EndingKeepsThreads(s, n, t, p);
    assert ServiceInv(n) && CoverageInv(n) by {
      LosingATakerIsFine(s, n, t);
    }
    FewerBusyWorkersFit(s, n);
  }

  lemma WorkerKeepsWork(s: Engine, a: Action, t: ThreadId, p: Thread)
    requires WorkInv(s) && t in s.threads && s.threads[t] == p && p.Worker? && WorkerEnabled(s, a, p.runner, p.stage) && TransactionFollows(s, a, p)
    ensures WorkInv(WorkerStep(s, a, t, p))
  {
    match a
    case TakeItem =>
      var n := WorkerStep(s, a, t, p);
      TakingKeepsThreads(s, n, t, p);
      TakingKeepsCoverage(s, n, t, p);
      TakingKeepsCalls(s, n, t, p);
    case ReportFatal => ReportingKeepsWork(s, WorkerStep(s, a, t, p), t, p);
    case WorkerDone => EndingKeepsWork(s, WorkerStep(s, a, t, p), t, p);
    case _ => ItemActionKeepsWork(s, a, t, p);
  }

  // ----- the runner

  /** No worker serves this runner. */
  ghost predicate Alone(s: Engine, t: ThreadId) { forall w :: !Serves(s, w, t) }

  /** A runner without workers moves on or ends; of the rows, only its job and that job's items may change. */
  ghost predicate RunnerMoves(s: Engine, n: Engine, t: ThreadId, q: Option<Thread>) {
    && t in s.threads && s.threads[t].Runner? && Alone(s, t) && Replaced(s, n, t, q)
    && (q.Some? ==> q.value.Runner? && q.value.job == s.threads[t].job && !q.value.phase.Draining?)
    && JobRowsMove(s.tables, n.tables, s.threads[t].job)
    && n.called == s.called && n.results == s.results && (s.ioFailed ==> n.ioFailed)
  }

  ghost predicate JobRowsMove(t: Tables, n: Tables, job: JobId) {
    && n.jobs.Keys == t.jobs.Keys && n.items.Keys == t.items.Keys
    && (forall j :: j in t.jobs && j != job ==> n.jobs[j].status == t.jobs[j].status)
    && (forall i :: i in t.items ==> n.items[i] == t.items[i].(status := n.items[i].status))
    && (forall i :: i in t.items && t.items[i].job != job ==> n.items[i] == t.items[i])
  }

  lemma IdleRunnersAreAlone(s: Engine, t: ThreadId)
    requires ThreadsInv(s) && t in s.threads && s.threads[t].Runner? && !s.threads[t].phase.Draining?
    ensures Alone(s, t)
  {
    forall w
      ensures !Serves(s, w, t)
    {
      assert w in s.threads && s.threads[w].Worker? ==> WorkerFits(s, s.threads[w]);
    }
  }

  lemma MovedRunnerFits(s: Engine, n: Engine, t: ThreadId, q: Option<Thread>)
    requires ThreadsInv(s) && RunnerMoves(s, n, t, q) && (q.Some? ==> RunnerFits(n, q.value))
    ensures ThreadsInv(n)
  {
    forall u | u in n.threads && n.threads[u].Runner?
      ensures RunnerFits(n, n.threads[u])
    {
      assert u != t ==> RunnerFits(s, s.threads[u]);
    }
    forall u | u in n.threads && n.threads[u].Worker?
      ensures WorkerFits(n, n.threads[u])
    {
      assert WorkerFits(s, s.threads[u]) && !Serves(s, u, t);
    }
  }

  lemma MovedRunnerCovers(s: Engine, n: Engine, t: ThreadId, q: Option<Thread>)
    requires ThreadsInv(s) && ServiceInv(s) && CoverageInv(s) && RunnerMoves(s, n, t, q)
    ensures ServiceInv(n) && CoverageInv(n)
  {
    forall r | r in n.threads && IsDraining(n, r) && n.threads[r].queue != []
      ensures exists w :: Serves(n, w, r)
    {
      assert IsDraining(s, r);
      var w :| Serves(s, w, r);
      assert Serves(n, w, r);
    }
    forall r, i | r in n.threads && IsDraining(n, r) && !n.threads[r].fatal && i in n.tables.items &&
                  n.tables.items[i].job == n.threads[r].job && !Terminal(n.tables.items[i].status) && i !in n.threads[r].queue
      ensures exists w :: Owns(n, w, i)
    {
      assert IsDraining(s, r);
      var w :| Owns(s, w, i);
      assert Owns(n, w, i);
    }
  }

  lemma MovedRunnerCalls(s: Engine, n: Engine, t: ThreadId, q: Option<Thread>)
    requires ThreadsInv(s) && CallsInv(s) && RunnerMoves(s, n, t, q)
    requires s.aborted <= n.aborted <= s.aborted + {s.threads[t].job}
    requires s.threads[t].job in n.aborted ==> s.threads[t].job in n.tables.jobs && n.tables.jobs[s.threads[t].job].status.Completed?
    requires forall i :: i in n.tables.items && n.tables.items[i].job == s.threads[t].job ==> OutcomeFits(n, i)
    ensures CallsInv(n)
  {
    forall u | u in n.threads && Busy(n.threads[u])
      ensures CallFits(n, n.threads[u])
    {
      assert CallFits(s, s.threads[u]);
    }
    forall i | i in n.tables.items
      ensures OutcomeFits(n, i)
    {
      assert OutcomeFits(s, i);
    }
  }

  /** A runner's move between store transactions of its job. */
  ghost predicate GoodRunnerMove(s: Engine, n: Engine, t: ThreadId, q: Option<Thread>) {
    && RunnerMoves(s, n, t, q) && (q.Some? ==> RunnerFits(n, q.value))
    && s.aborted <= n.aborted <= s.aborted + {s.threads[t].job}
    && (s.threads[t].job in n.aborted ==> s.threads[t].job in n.tables.jobs && n.tables.jobs[s.threads[t].job].status.Completed?)
    && (forall i :: i in n.tables.items && n.tables.items[i].job == s.threads[t].job ==> OutcomeFits(n, i))
  }

  lemma GoodRunnerMoveKeepsWork(s: Engine, n: Engine, t: ThreadId, q: Option<Thread>)
    requires WorkInv(s) && GoodRunnerMove(s, n, t, q)
    ensures WorkInv(n)
  {
    MovedRunnerFits(s, n, t, q);
    MovedRunnerCovers(s, n, t, q);
    MovedRunnerCalls(s, n, t, q);
  }

  ghost predicate RunnerKnows(s: Engine, t: ThreadId, p: Thread) {
    && t in s.threads && s.threads[t] == p && p.Runner? && RunnerFits(s, p) && Alone(s, t)
    && (p.job in s.aborted ==> p.job in s.tables.jobs && s.tables.jobs[p.job].status.Completed?)
    && (forall i :: i in s.tables.items && s.tables.items[i].job == p.job ==> OutcomeFits(s, i))
  }

  lemma StartIsGood(s: Engine, a: Action, t: ThreadId, p: Thread)
    requires RunnerKnows(s, t, p) && RunnerEnabled(s, a, t, p.job, p.phase) && TransactionFollows(s, a, p) && a.StartJob?
    requires StatusesFit(s.tables.jobs, s.tables.items)
    ensures var n := RunnerStep(s, a, t, p); t in n.threads && GoodRunnerMove(s, n, t, Some(n.threads[t]))
  {
    StartJobEffect(s.tables, a.next, p.job, a.failure);
    var n := RunnerStep(s, a, t, p);
    assert forall i :: i in n.tables.items && n.tables.items[i].job == p.job ==> OutcomeFits(s, i);
  }

  lemma FinishIsGood(s: Engine, n: Engine, t: ThreadId, p: Thread, next: Tables, failure: Option<Error>)
    requires RunnerKnows(s, t, p) && p.phase.Finishing? && Follows(s.tables, next, ResetTables.FinishJob(s.tables, p.job), failure)
    requires n == s.(threads := if failure.None? then s.threads - {t} else s.threads[t := p.(phase := Aborting)], tables := next, ioFailed := Broke(s, failure))
    ensures GoodRunnerMove(s, n, t, if t in n.threads then Some(n.threads[t]) else None)
  {
    FinishJobEffect(s.tables, next, p.job, failure);
    assert forall i :: i in n.tables.items && n.tables.items[i].job == p.job ==> OutcomeFits(s, i);
  }

  lemma AbortIsGood(s: Engine, n: Engine, t: ThreadId, p: Thread, next: Tables, failure: Option<Error>)
    requires RunnerKnows(s, t, p) && Follows(s.tables, next, ResetTables.AbortJob(s.tables, p.job), failure)
    requires n == Gone(s, t).(tables := next, ioFailed := Broke(s, failure), aborted := if next != s.tables then s.aborted + {p.job} else s.aborted)
    ensures GoodRunnerMove(s, n, t, None)
  {
    AbortJobEffect(s.tables, next, p.job, failure);
    AbortedRowsFit(s, n, t, p);
  }

  lemma AbortedRowsFit(s: Engine, n: Engine, t: ThreadId, p: Thread)
    requires RunnerKnows(s, t, p) && n.called == s.called && n.results == s.results
    requires (n.tables == s.tables && n.aborted == s.aborted) ||
             (n.tables.items == GiveUpItems(s.tables.items, p.job) && p.job in n.aborted && n.aborted == s.aborted + {p.job})
    ensures forall i :: i in n.tables.items && n.tables.items[i].job == p.job ==> OutcomeFits(n, i)
  {
    assert forall i :: i in s.tables.items && s.tables.items[i].job == p.job ==> OutcomeFits(s, i);
  }

  /** When the last worker has ended, an uncancelled job has no unfinished item. */
  lemma DrainedMeansDone(s: Engine, t: ThreadId, p: Thread)
    requires ThreadsInv(s) && ServiceInv(s) && CoverageInv(s) && t in s.threads && s.threads[t] == p && p.Runner?
    requires RunnerEnabled(s, Drained, t, p.job, p.phase) && !p.fatal
    ensures AllDone(s.tables, p.job)
  {
    assert IsDraining(s, t) && Alone(s, t);
    assert p.queue == [];
    forall w, i | i in s.tables.items && s.tables.items[i].job == p.job
      ensures !Owns(s, w, i)
    {
      assert w in s.threads && Busy(s.threads[w]) ==> WorkerFits(s, s.threads[w]) && Serves(s, w, s.threads[w].runner);
    }
  }

  lemma DrainIsGood(s: Engine, t: ThreadId, p: Thread)
    requires RunnerKnows(s, t, p) && RunnerEnabled(s, Drained, t, p.job, p.phase) && (p.fatal || AllDone(s.tables, p.job))
    ensures var n := RunnerStep(s, Drained, t, p); t in n.threads && GoodRunnerMove(s, n, t, Some(n.threads[t]))
  {
    var n := RunnerStep(s, Drained, t, p);
    assert forall i :: i in n.tables.items && n.tables.items[i].job == p.job ==> OutcomeFits(s, i);
  }

  lemma RunnerIsKnown(s: Engine, t: ThreadId)
    requires ThreadsInv(s) && CallsInv(s) && t in s.threads && s.threads[t].Runner? && Alone(s, t)
    ensures RunnerKnows(s, t, s.threads[t])
  {
  }

  /** The channel is filled and the workers start. */
  ghost predicate Loads(s: Engine, n: Engine, t: ThreadId, queue: seq<ItemId>, workers: set<ThreadId>) {
    && t in s.threads && s.threads[t].Runner? && s.threads[t].phase.Loading? && Covers(s.tables, s.threads[t].job, queue)
    && workers !! s.threads.Keys && workers != {} && !s.threads[t].fatal
    && n == s.(threads := s.threads[t := s.threads[t].(phase := Draining, queue := queue)] + map w | w in workers :: Worker(t, Idle, 0, Pending))
  }

  lemma LoadingKeepsRunners(s: Engine, n: Engine, t: ThreadId, queue: seq<ItemId>, workers: set<ThreadId>)
    requires ThreadsInv(s) && Loads(s, n, t, queue, workers)
    ensures forall u :: u in n.threads && n.threads[u].Runner? ==> RunnerFits(n, n.threads[u])
  {
    assert RunnerFits(s, s.threads[t]);
    forall u | u in n.threads && n.threads[u].Runner?
      ensures RunnerFits(n, n.threads[u])
    {
      assert u in s.threads && RunnerFits(s, s.threads[u]);
    }
  }

  lemma LoadingKeepsThreads(s: Engine, n: Engine, t: ThreadId, queue: seq<ItemId>, workers: set<ThreadId>)
    requires ThreadsInv(s) && Loads(s, n, t, queue, workers)
    ensures ThreadsInv(n)
  {
    LoadingKeepsRunners(s, n, t, queue, workers);
    forall u | u in n.threads && n.threads[u].Worker?
      ensures WorkerFits(n, n.threads[u])
    {
      assert u in s.threads ==> WorkerFits(s, s.threads[u]);
    }
  }

  lemma LoadingKeepsCoverage(s: Engine, n: Engine, t: ThreadId, queue: seq<ItemId>, workers: set<ThreadId>)
    requires ServiceInv(s) && CoverageInv(s) && Loads(s, n, t, queue, workers)
    ensures ServiceInv(n) && CoverageInv(n)
  {
    forall r | r in n.threads && IsDraining(n, r) && n.threads[r].queue != []
      ensures exists w :: Serves(n, w, r)
    {
      var w :| if r == t then w in workers else Serves(s, w, r);
      assert Serves(n, w, r);
    }
    forall r, i | r in n.threads && IsDraining(n, r) && !n.threads[r].fatal && i in n.tables.items &&
                  n.tables.items[i].job == n.threads[r].job && !Terminal(n.tables.items[i].status) && i !in n.threads[r].queue
      ensures exists w :: Owns(n, w, i)
    {
      assert IsDraining(s, r);
      var w :| Owns(s, w, i);
      assert Owns(n, w, i);
    }
  }

  lemma LoadingKeepsWork(s: Engine, n: Engine, t: ThreadId, queue: seq<ItemId>, workers: set<ThreadId>)
    requires WorkInv(s) && Loads(s, n, t, queue, workers)
    ensures WorkInv(n)
  {
    LoadingKeepsThreads(s, n, t, queue, workers);
    LoadingKeepsCoverage(s, n, t, queue, workers);
    FewerBusyWorkersFit(s, n);
  }

  lemma RunnerMoveIsGood(s: Engine, a: Action, t: ThreadId, p: Thread)
    requires RunnerKnows(s, t, p) && RunnerEnabled(s, a, t, p.job, p.phase) && TransactionFollows(s, a, p)
    requires StatusesFit(s.tables.jobs, s.tables.items) && (a.LoadItems? ==> a.failed)
    requires a.Drained? ==> p.fatal || AllDone(s.tables, p.job)
    ensures var n := RunnerStep(s, a, t, p); GoodRunnerMove(s, n, t, if t in n.threads then Some(n.threads[t]) else None)
  {
    match a
    case StartJob(_, _) => StartIsGood(s, a, t, p);
    case FinishJob(next, failure) => FinishIsGood(s, RunnerStep(s, a, t, p), t, p, next, failure);
    case AbortJob(next, failure) => AbortIsGood(s, RunnerStep(s, a, t, p), t, p, next, failure);
    case Drained => DrainIsGood(s, t, p);
    case LoadItems(_, _, _) => assert forall i :: i in s.tables.items && s.tables.items[i].job == p.job ==> OutcomeFits(s, i);
  }

  lemma RunnerKeepsWork(s: Engine, a: Action, t: ThreadId, p: Thread)
    requires WorkInv(s) && t in s.threads && s.threads[t] == p && p.Runner? && RunnerEnabled(s, a, t, p.job, p.phase) && TransactionFollows(s, a, p)
    requires StatusesFit(s.tables.jobs, s.tables.items)
    ensures WorkInv(RunnerStep(s, a, t, p))
  {
    if a.LoadItems? && !a.failed {
      LoadingKeepsWork(s, RunnerStep(s, a, t, p), t, a.queue, a.workers);
    } else {
      if a.Drained? {
        assert Alone(s, t);
        if !p.fatal {
          DrainedMeansDone(s, t, p);
        }
      } else {
        IdleRunnersAreAlone(s, t);
      }
      RunnerIsKnown(s, t);
      RunnerMoveIsGood(s, a, t, p);
      var n := RunnerStep(s, a, t, p);
      GoodRunnerMoveKeepsWork(s, n, t, if t in n.threads then Some(n.threads[t]) else None);
    }
  }

  // ----- a new job, a restart, and everything else

  /** With no open job there is no worker, and a runner can only be about to abort. */
  lemma NoJobNoWorkers(s: Engine)
    requires ThreadsInv(s) && !HasOpenJob(s.tables)
    ensures forall t :: t in s.threads ==> !s.threads[t].Worker? && (s.threads[t].Runner? ==> s.threads[t].phase.Aborting?)
  {
    forall t | t in s.threads && s.threads[t].Runner?
      ensures s.threads[t].phase.Aborting?
    {
      assert RunnerFits(s, s.threads[t]);
    }
    forall t | t in s.threads
      ensures !s.threads[t].Worker?
    {
      assert s.threads[t].Worker? ==> WorkerFits(s, s.threads[t]);
    }
  }

  /** The job's rows are added and, unless an error is reported, its runner starts. */
  ghost predicate Creates(s: Engine, n: Engine, t: ThreadId, job: JobId, rows: map<ItemId, Item>, runner: ThreadId) {
    && t in s.threads && s.threads[t].Creator? && runner !in s.threads && job !in s.tables.jobs
    && JobAdded(s.tables, n.tables, job, rows) && Snapshot(s.tables, job, rows)
    && (n.threads == s.threads[t := Creator(Exiting)] ||
        n.threads == s.threads[t := Creator(Exiting)][runner := Runner(job, Starting, [], false)])
    && n.called == s.called && n.results == s.results && n.aborted == s.aborted && (s.ioFailed ==> n.ioFailed)
  }

  /** Every runner, old or new, fits the rows with the new job in them. */
  lemma EachRunnerFits(s: Engine, n: Engine, t: ThreadId, job: JobId, rows: map<ItemId, Item>, runner: ThreadId, u: ThreadId)
    requires ThreadsInv(s) && Creates(s, n, t, job, rows, runner) && u in n.threads && n.threads[u].Runner?
    requires forall w :: w in s.threads && s.threads[w].Runner? ==> s.threads[w].phase.Aborting?
    ensures RunnerFits(n, n.threads[u]) && !n.threads[u].phase.Draining?
  {
    assert u in s.threads && u != t ==> RunnerFits(s, s.threads[u]);
  }

  /** No old runner has the new job. */
  lemma NewJobIsDistinct(s: Engine, n: Engine, t: ThreadId, job: JobId, rows: map<ItemId, Item>, runner: ThreadId)
    requires ThreadsInv(s) && Creates(s, n, t, job, rows, runner)
    ensures DistinctInv(n.threads)
  {
    assert forall u :: u in s.threads && s.threads[u].Runner? ==> RunnerFits(s, s.threads[u]);
  }

  lemma NewJobFits(s: Engine, n: Engine, t: ThreadId, job: JobId, rows: map<ItemId, Item>, runner: ThreadId)
    requires ThreadsInv(s) && Creates(s, n, t, job, rows, runner)
    ensures ThreadsInv(n) && ServiceInv(n) && CoverageInv(n)
    ensures forall u :: u in n.threads ==> !n.threads[u].Worker?
  {
    NoJobNoWorkers(s);
    forall u | u in n.threads && n.threads[u].Runner?
      ensures RunnerFits(n, n.threads[u]) && !n.threads[u].phase.Draining?
    {
      EachRunnerFits(s, n, t, job, rows, runner, u);
    }
    NewJobIsDistinct(s, n, t, job, rows, runner);
  }

  lemma NewItemsAreUncalled(s: Engine, n: Engine, t: ThreadId, job: JobId, rows: map<ItemId, Item>, runner: ThreadId)
    requires CallsInv(s) && Creates(s, n, t, job, rows, runner) && forall u :: u in n.threads ==> !n.threads[u].Worker?
    ensures CallsInv(n)
  {
    forall i | i in n.tables.items
      ensures OutcomeFits(n, i)
    {
      assert i in rows || OutcomeFits(s, i);
    }
  }

  lemma CreatorKeepsWork(s: Engine, a: Action, t: ThreadId, p: Thread)
    requires WorkInv(s) && t in s.threads && s.threads[t] == p && p.Creator? && CreatorEnabled(s, a, p.inside) && TransactionFollows(s, a, p)
    ensures WorkInv(CreatorStep(s, a, t))
  {
    var n := CreatorStep(s, a, t);
    if a.CreateJob? {
      CreateJobEffect(s.tables, a.next, a.job, a.rows, a.failure);
      if JobAdded(s.tables, a.next, a.job, a.rows) {
        NewJobFits(s, n, t, a.job, a.rows, a.runner);
        NewItemsAreUncalled(s, n, t, a.job, a.rows, a.runner);
      } else {
        RefusalKeepsWork(s, n, t, a.failure);
      }
    } else {
      SameWorkKeepsWork(s, n);
    }
  }

  /** A refused creation leaves no trace. */
  lemma RefusalKeepsWork(s: Engine, n: Engine, t: ThreadId, failure: Option<Error>)
    requires WorkInv(s) && t in s.threads && s.threads[t].Creator? && n == To(s, t, Creator(Exiting)).(ioFailed := Broke(s, failure))
    ensures WorkInv(n)
  {
    SameWorkKeepsWork(s, To(s, t, Creator(Exiting)));
    MoreFailuresKeepWork(To(s, t, Creator(Exiting)), n);
  }

  lemma MoreFailuresKeepWork(s: Engine, n: Engine)
    requires WorkInv(s) && n == s.(ioFailed := n.ioFailed) && (s.ioFailed ==> n.ioFailed)
    ensures WorkInv(n)
  {
    forall u | u in n.threads && n.threads[u].Runner?
      ensures RunnerFits(n, n.threads[u])
    {
      assert RunnerFits(s, s.threads[u]);
    }
    forall u | u in n.threads && n.threads[u].Worker?
      ensures WorkerFits(n, n.threads[u])
    {
      assert WorkerFits(s, s.threads[u]);
    }
    MoreFailuresCover(s, n);
    FewerBusyWorkersFit(s, n);
  }

  lemma MoreFailuresCover(s: Engine, n: Engine)
    requires ServiceInv(s) && CoverageInv(s) && n == s.(ioFailed := n.ioFailed)
    ensures ServiceInv(n) && CoverageInv(n)
  {
    assert forall w, r :: Serves(s, w, r) ==> Serves(n, w, r);
    assert forall w, i :: Owns(s, w, i) ==> Owns(n, w, i);
  }

  lemma SameWorkKeepsWork(s: Engine, n: Engine)
    requires WorkInv(s) && SameWork(s, n)
    ensures WorkInv(n)
  {
    SameWorkKeepsThreads(s, n);
    SameWorkKeepsCoverage(s, n);
    SameWorkKeepsCalls(s, n);
  }

  lemma RestartKeepsWork(s: Engine, next: Tables)
    requires CallsInv(s) && StatusesFit(s.tables.jobs, s.tables.items) && Recovered(s.tables, next)
    ensures WorkInv(Step(s, Restart(next)))
  {
    RestartKeepsCalls(s, next);
  }

  lemma RestartKeepsCalls(s: Engine, next: Tables)
    requires CallsInv(s) && StatusesFit(s.tables.jobs, s.tables.items) && Recovered(s.tables, next)
    ensures CallsInv(Step(s, Restart(next)))
  {
    var n := Step(s, Restart(next));
    forall i | i in n.tables.items
      ensures OutcomeFits(n, i)
    {
      assert OutcomeFits(s, i);
      GivenUpOutcomeFits(s, n, i);
    }
  }

  lemma GivenUpOutcomeFits(s: Engine, n: Engine, i: ItemId)
    requires i in s.tables.items && i in n.tables.items && OutcomeFits(s, i)
    requires n.called == s.called && n.results == s.results && s.aborted <= n.aborted
    requires n.tables.items[i] == s.tables.items[i] || (n.tables.items[i] == s.tables.items[i].(status := Unknown) && s.tables.items[i].job in n.aborted)
    ensures OutcomeFits(n, i)
  {
  }

  /** A thread that is neither runner nor worker takes a step that leaves rows and calls alone. */
  lemma OtherThreadLeavesWork(s: Engine, n: Engine, t: ThreadId, q: Option<Thread>)
    requires t in s.threads && !OfAJob(s.threads[t]) && Replaced(s, n, t, q) && (q.Some? ==> !OfAJob(q.value))
    requires n == s.(threads := n.threads, maintenance := n.maintenance, readers := n.readers, writer := n.writer, gate := n.gate)
    ensures SameWork(s, n)
  {
  }

  lemma SingleKeepsWork(s: Engine, a: Action, t: ThreadId, p: Thread)
    requires WorkInv(s) && t in s.threads && s.threads[t] == p && p.Single? && SingleEnabled(s, a, p.at)
    ensures WorkInv(SingleStep(s, a, t, p))
  {
    var n := SingleStep(s, a, t, p);
    SingleReplacesItself(s, a, t, p);
    OtherThreadLeavesWork(s, n, t, if a.UnlockMaintenance? then None else Some(n.threads[t]));
    SameWorkKeepsWork(s, n);
  }

  lemma SingleReplacesItself(s: Engine, a: Action, t: ThreadId, p: Thread)
    requires t in s.threads && s.threads[t] == p && p.Single? && SingleEnabled(s, a, p.at)
    ensures var n := SingleStep(s, a, t, p);
            && (if a.UnlockMaintenance? then Replaced(s, n, t, None) else t in n.threads && n.threads[t].Single? && Replaced(s, n, t, Some(n.threads[t])))
            && n == s.(threads := n.threads, maintenance := n.maintenance, readers := n.readers, writer := n.writer, gate := n.gate)
  {
  }

  lemma WriterKeepsWork(s: Engine, a: Action, t: ThreadId, p: Thread)
    requires WorkInv(s) && t in s.threads && s.threads[t] == p && p.Writer? && WriterEnabled(s, a, p.holding) && TransactionFollows(s, a, p)
    ensures WorkInv(WriterStep(s, a, t))
  {
    SameWorkKeepsWork(s, WriterStep(s, a, t));
  }

  lemma BatchKeepsWork(s: Engine, a: Action, t: ThreadId, p: Thread)
    requires WorkInv(s) && StatusesFit(s.tables.jobs, s.tables.items) && (p.Runner? || p.Worker?)
    requires t in s.threads && s.threads[t] == p && ActionEnabled(s, a, t, p) && TransactionFollows(s, a, p)
    ensures WorkInv(ActionStep(s, a, t, p))
  {
    match p
    case Runner(_, _, _, _) => RunnerKeepsWork(s, a, t, p);
    case Worker(_, _, _, _) => WorkerKeepsWork(s, a, t, p);
    case _ =>
  }

  lemma ActionKeepsWork(s: Engine, a: Action, t: ThreadId, p: Thread)
    requires WorkInv(s) && StatusesFit(s.tables.jobs, s.tables.items)
    requires t in s.threads && s.threads[t] == p && ActionEnabled(s, a, t, p) && TransactionFollows(s, a, p)
    ensures WorkInv(ActionStep(s, a, t, p))
  {
    match p
    case Single(_, _, _) => SingleKeepsWork(s, a, t, p);
    case Creator(_) => CreatorKeepsWork(s, a, t, p);
    case Writer(_) => WriterKeepsWork(s, a, t, p);
    case _ => BatchKeepsWork(s, a, t, p);
  }

  lemma StepKeepsWork(s: Engine, e: Event)
    requires WorkInv(s) && StatusesFit(s.tables.jobs, s.tables.items) && Possible(s, e)
    ensures WorkInv(Step(s, e))
  {
    match e
    case By(t, a) => ActionKeepsWork(s, a, t, s.threads[t]);
    case Restart(next) => RestartKeepsWork(s, next);
    case _ => SameWorkKeepsWork(s, Step(s, e));
  }
}
