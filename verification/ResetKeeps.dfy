/** Every step of ResetEngine keeps the invariant of ResetInvariant. */
module ResetKeeps {
  import opened Options
  import opened ResetTables
  import opened ResetEngine
  import opened ResetInvariant

  // ----- gates

  predicate Reserving(p: Thread) { p.Worker? && (p.stage.InGate? || p.stage.InCall? || p.stage.Back?) }

  /** No thread in the map but `t` has a different gate in `n`. */
  ghost predicate KeysStay(s: Engine, n: Engine) {
    forall i :: i in s.tables.items ==> i in n.tables.items && n.tables.items[i].key == s.tables.items[i].key
  }

  ghost predicate ItemsKnown(s: Engine) {
    forall t :: t in s.threads && Reserving(s.threads[t]) ==> s.threads[t].item in s.tables.items
  }

  /** A thread goes from `p` to `q`; the gates follow its stage. */
  ghost predicate GatesFollow(s: Engine, n: Engine, t: ThreadId, p: Thread, q: Option<Thread>) {
    var left := GateOf(s.tables.items, p);
    var entered := if q.Some? then GateOf(n.tables.items, q.value) else None;
    if left == entered then n.gate == s.gate
    else if left.None? then entered.value !in s.gate && n.gate == s.gate[entered.value := t]
    else entered.None? && n.gate == s.gate - {left.value}
  }

  lemma FollowingGatesFit(s: Engine, n: Engine, t: ThreadId, q: Option<Thread>)
    requires GatesInv(s) && KeysStay(s, n) && ItemsKnown(s)
    requires t in s.threads && Replaced(s, n, t, q) && GatesFollow(s, n, t, s.threads[t], q)
    ensures GatesInv(n)
  {
    assert forall u: ThreadId :: u != t ==> Gate(n, u) == Gate(s, u);
    assert Gate(s, t) == GateOf(s.tables.items, s.threads[t]);
    assert Gate(n, t) == if q.Some? then GateOf(n.tables.items, q.value) else None;
  }

  /** Threads outside any gate do not matter. */
  lemma UngatedThreadsChange(s: Engine, n: Engine)
    requires GatesInv(s) && KeysStay(s, n) && ItemsKnown(s) && n.gate == s.gate
    requires forall t :: t in s.threads && GateOf(s.tables.items, s.threads[t]).Some? ==> t in n.threads && n.threads[t] == s.threads[t]
    requires forall t :: t in n.threads && GateOf(n.tables.items, n.threads[t]).Some? ==> t in s.threads && n.threads[t] == s.threads[t]
    ensures GatesInv(n)
  {
    forall u: ThreadId
      ensures Gate(n, u) == Gate(s, u)
    {
    }
  }

  lemma SingleGateKeepsGates(s: Engine, a: Action, t: ThreadId, p: Thread)
    requires GatesInv(s) && ItemsKnown(s) && t in s.threads && s.threads[t] == p && p.Single? && SingleEnabled(s, a, p.at)
    requires a.EnterGate? || a.LeaveGate?
    ensures GatesInv(SingleStep(s, a, t, p))
  {
    var n := SingleStep(s, a, t, p);
    FollowingGatesFit(s, n, t, Some(n.threads[t]));
  }

  lemma SingleKeepsGates(s: Engine, a: Action, t: ThreadId, p: Thread)
    requires GatesInv(s) && ItemsKnown(s) && t in s.threads && s.threads[t] == p && p.Single? && SingleEnabled(s, a, p.at)
    ensures GatesInv(SingleStep(s, a, t, p))
  {
    if a.EnterGate? || a.LeaveGate? {
      SingleGateKeepsGates(s, a, t, p);
    } else {
      var n := SingleStep(s, a, t, p);
      FollowingGatesFit(s, n, t, if a.UnlockMaintenance? then None else Some(n.threads[t]));
    }
  }

  /** Actions on the channel and the job's fatal flag. */
  predicate OnQueue(a: Action) { a.TakeItem? || a.ReportFatal? || a.WorkerDone? }

  predicate OnItem(a: Action) { a.MarkItem? || a.CompleteItem? }

  lemma TakingKeepsGates(s: Engine, t: ThreadId, p: Thread)
    requires GatesInv(s) && ItemsKnown(s) && t in s.threads && s.threads[t] == p && p.Worker? && WorkerEnabled(s, TakeItem, p.runner, p.stage)
    ensures GatesInv(WorkerStep(s, TakeItem, t, p))
  {
    UngatedThreadsChange(s, WorkerStep(s, TakeItem, t, p));
  }

  lemma QueueActionsKeepGates(s: Engine, a: Action, t: ThreadId, p: Thread)
    requires GatesInv(s) && ItemsKnown(s) && t in s.threads && s.threads[t] == p && p.Worker? && WorkerEnabled(s, a, p.runner, p.stage) && OnQueue(a)
    ensures GatesInv(WorkerStep(s, a, t, p))
  {
    if a.TakeItem? {
      TakingKeepsGates(s, t, p);
    } else if a.ReportFatal? {
      ReportingKeepsGates(s, t, p);
    } else {
      EndingKeepsGates(s, t, p);
    }
  }

  lemma ReportingKeepsGates(s: Engine, t: ThreadId, p: Thread)
    requires GatesInv(s) && ItemsKnown(s) && t in s.threads && s.threads[t] == p && p.Worker? && WorkerEnabled(s, ReportFatal, p.runner, p.stage)
    ensures GatesInv(WorkerStep(s, ReportFatal, t, p))
  {
    UngatedThreadsChange(s, WorkerStep(s, ReportFatal, t, p));
  }

  lemma EndingKeepsGates(s: Engine, t: ThreadId, p: Thread)
    requires GatesInv(s) && ItemsKnown(s) && t in s.threads && s.threads[t] == p && p.Worker? && WorkerEnabled(s, WorkerDone, p.runner, p.stage)
    ensures GatesInv(WorkerStep(s, WorkerDone, t, p))
  {
    UngatedThreadsChange(s, WorkerStep(s, WorkerDone, t, p));
  }

  lemma ItemActionsKeepGates(s: Engine, a: Action, t: ThreadId, p: Thread)
    requires GatesInv(s) && ItemsKnown(s) && t in s.threads && s.threads[t] == p && p.Worker? && WorkerEnabled(s, a, p.runner, p.stage) && OnItem(a)
    requires KeysStay(s, WorkerStep(s, a, t, p))
    ensures GatesInv(WorkerStep(s, a, t, p))
  {
    var n := WorkerStep(s, a, t, p);
    FollowingGatesFit(s, n, t, Some(n.threads[t]));
  }

  lemma GateActionsKeepGates(s: Engine, a: Action, t: ThreadId, p: Thread)
    requires GatesInv(s) && ItemsKnown(s) && t in s.threads && s.threads[t] == p && p.Worker? && WorkerEnabled(s, a, p.runner, p.stage)
    requires a.EnterGate? || a.LeaveGate?
    ensures GatesInv(WorkerStep(s, a, t, p))
  {
    var n := WorkerStep(s, a, t, p);
    FollowingGatesFit(s, n, t, Some(n.threads[t]));
  }

  lemma OtherActionsKeepGates(s: Engine, a: Action, t: ThreadId, p: Thread)
    requires GatesInv(s) && ItemsKnown(s) && t in s.threads && s.threads[t] == p && p.Worker? && WorkerEnabled(s, a, p.runner, p.stage)
    requires a.LockRead? || a.UnlockRead? || a.Validate? || a.Call? || a.Return?
    ensures GatesInv(WorkerStep(s, a, t, p))
  {
    var n := WorkerStep(s, a, t, p);
    FollowingGatesFit(s, n, t, Some(n.threads[t]));
  }

  lemma CreatorKeepsGates(s: Engine, a: Action, t: ThreadId, p: Thread)
    requires GatesInv(s) && ItemsKnown(s) && t in s.threads && s.threads[t] == p && p.Creator? && CreatorEnabled(s, a, p.inside)
    requires KeysStay(s, CreatorStep(s, a, t))
    ensures GatesInv(CreatorStep(s, a, t))
  {
    UngatedThreadsChange(s, CreatorStep(s, a, t));
  }

  lemma RunnerKeepsGates(s: Engine, a: Action, t: ThreadId, p: Thread)
    requires GatesInv(s) && ItemsKnown(s) && t in s.threads && s.threads[t] == p && p.Runner? && RunnerEnabled(s, a, t, p.job, p.phase)
    requires KeysStay(s, RunnerStep(s, a, t, p))
    ensures GatesInv(RunnerStep(s, a, t, p))
  {
    if a.LoadItems? {
      LoadingKeepsGates(s, a, t, p);
    } else {
      var n := RunnerStep(s, a, t, p);
      FollowingGatesFit(s, n, t, if t in n.threads then Some(n.threads[t]) else None);
    }
  }

  lemma LoadingKeepsGates(s: Engine, a: Action, t: ThreadId, p: Thread)
    requires GatesInv(s) && ItemsKnown(s) && t in s.threads && s.threads[t] == p && p.Runner? && RunnerEnabled(s, a, t, p.job, p.phase)
    requires a.LoadItems?
    ensures GatesInv(RunnerStep(s, a, t, p))
  {
    UngatedThreadsChange(s, RunnerStep(s, a, t, p));
  }

  lemma WriterKeepsGates(s: Engine, a: Action, t: ThreadId, p: Thread)
    requires GatesInv(s) && ItemsKnown(s) && t in s.threads && s.threads[t] == p && p.Writer? && WriterEnabled(s, a, p.holding)
    requires KeysStay(s, WriterStep(s, a, t))
    ensures GatesInv(WriterStep(s, a, t))
  {
    UngatedThreadsChange(s, WriterStep(s, a, t));
  }

  lemma ActionKeepsGates(s: Engine, a: Action, t: ThreadId, p: Thread)
    requires GatesInv(s) && ItemsKnown(s) && t in s.threads && s.threads[t] == p && ActionEnabled(s, a, t, p)
    requires KeysStay(s, ActionStep(s, a, t, p))
    ensures GatesInv(ActionStep(s, a, t, p))
  {
    match p
    case Single(_, _, _) => SingleKeepsGates(s, a, t, p);
    case Creator(_) => CreatorKeepsGates(s, a, t, p);
    case Runner(_, _, _, _) => RunnerKeepsGates(s, a, t, p);
    case Worker(_, _, _, _) =>
      if OnQueue(a) {
        QueueActionsKeepGates(s, a, t, p);
      } else if OnItem(a) {
        ItemActionsKeepGates(s, a, t, p);
      } else if a.EnterGate? || a.LeaveGate? {
        GateActionsKeepGates(s, a, t, p);
      } else {
        OtherActionsKeepGates(s, a, t, p);
      }
    case Writer(_) => WriterKeepsGates(s, a, t, p);
  }

  lemma StepKeepsGates(s: Engine, e: Event)
    requires GatesInv(s) && ItemsKnown(s) && Enabled(s, e) && KeysStay(s, Step(s, e))
    ensures GatesInv(Step(s, e))
  {
    if e.By? {
      ActionKeepsGates(s, e.action, e.t, s.threads[e.t]);
    } else if !e.Restart? {
      UngatedThreadsChange(s, Step(s, e));
    }
  }

  // ----- bindings

  /** Bindings and item keys are as before, as far as any thread relies on them. */
  ghost predicate BindingsStay(s: Engine, n: Engine) {
    && (forall u, k :: BoundTo(s.tables, u, k) ==> BoundTo(n.tables, u, k))
    && (forall i :: i in s.tables.items ==> i in n.tables.items && n.tables.items[i].key == s.tables.items[i].key &&
                                            n.tables.items[i].user == s.tables.items[i].user)
  }

  lemma StayingBindingsHold(s: Engine, n: Engine)
    requires BindingsInv(s) && BindingsStay(s, n)
    requires forall t :: t in n.threads && ReliesOnBinding(n.threads[t]) ==>
               (t in s.threads && SameReliance(s.threads[t], n.threads[t])) || BindingHolds(n.tables, n.threads[t])
    ensures BindingsInv(n)
  {
    forall t | t in n.threads && ReliesOnBinding(n.threads[t])
      ensures BindingHolds(n.tables, n.threads[t])
    {
      if t in s.threads && SameReliance(s.threads[t], n.threads[t]) {
        assert BindingHolds(s.tables, s.threads[t]);
      }
    }
  }

  predicate SameReliance(p: Thread, q: Thread) {
    ReliesOnBinding(p) &&
    match p
    case Single(_, user, key) => q.Single? && q.user == user && q.key == key
    case Worker(_, _, item, _) => q.Worker? && q.item == item
    case _ => false
  }

  /** Nobody relies on a binding while a writer holds the lock. */
  lemma WritersAreAlone(s: Engine, t: ThreadId)
    requires LocksInv(s) && IsWriter(s, t)
    ensures forall u :: u in s.threads ==> !ReliesOnBinding(s.threads[u])
  {
    forall u | u in s.threads
      ensures !ReliesOnBinding(s.threads[u])
    {
      assert IsReader(s, u) <==> u in s.readers;
    }
  }

  lemma ReplacedBindingHolds(s: Engine, n: Engine, t: ThreadId, q: Option<Thread>)
    requires BindingsInv(s) && n.tables == s.tables && Replaced(s, n, t, q)
    requires q.Some? && ReliesOnBinding(q.value) ==> BindingHolds(n.tables, q.value)
    ensures BindingsInv(n)
  {
  }

  lemma SingleKeepsBindings(s: Engine, a: Action, t: ThreadId, p: Thread)
    requires BindingsInv(s) && t in s.threads && s.threads[t] == p && p.Single? && SingleEnabled(s, a, p.at)
    ensures BindingsInv(SingleStep(s, a, t, p))
  {
    var n := SingleStep(s, a, t, p);
    assert ReliesOnBinding(p) ==> BindingHolds(s.tables, p);
    ReplacedBindingHolds(s, n, t, if a.UnlockMaintenance? then None else Some(n.threads[t]));
  }

  lemma WorkerKeepsBindings(s: Engine, a: Action, t: ThreadId, p: Thread)
    requires BindingsInv(s) && t in s.threads && s.threads[t] == p && p.Worker? && WorkerEnabled(s, a, p.runner, p.stage)
    requires BindingsStay(s, WorkerStep(s, a, t, p))
    ensures BindingsInv(WorkerStep(s, a, t, p))
  {
    StayingBindingsHold(s, WorkerStep(s, a, t, p));
  }

  lemma RunnerKeepsBindings(s: Engine, a: Action, t: ThreadId, p: Thread)
    requires BindingsInv(s) && t in s.threads && s.threads[t] == p && p.Runner? && RunnerEnabled(s, a, t, p.job, p.phase)
    requires BindingsStay(s, RunnerStep(s, a, t, p))
    ensures BindingsInv(RunnerStep(s, a, t, p))
  {
    StayingBindingsHold(s, RunnerStep(s, a, t, p));
  }

  lemma CreatorKeepsBindings(s: Engine, a: Action, t: ThreadId, p: Thread)
    requires BindingsInv(s) && t in s.threads && s.threads[t] == p && p.Creator? && CreatorEnabled(s, a, p.inside)
    requires BindingsStay(s, CreatorStep(s, a, t))
    ensures BindingsInv(CreatorStep(s, a, t))
  {
    StayingBindingsHold(s, CreatorStep(s, a, t));
  }

  lemma WriterKeepsBindings(s: Engine, a: Action, t: ThreadId, p: Thread)
    requires LocksInv(s) && BindingsInv(s) && t in s.threads && s.threads[t] == p && p.Writer? && WriterEnabled(s, a, p.holding)
    ensures BindingsInv(WriterStep(s, a, t))
  {
    if a.ChangeUser? {
      assert IsWriter(s, t);
      WritersAreAlone(s, t);
    } else {
      StayingBindingsHold(s, WriterStep(s, a, t));
    }
  }

  lemma ActionKeepsBindings(s: Engine, a: Action, t: ThreadId, p: Thread)
    requires LocksInv(s) && BindingsInv(s) && t in s.threads && s.threads[t] == p && ActionEnabled(s, a, t, p)
    requires BindingsStay(s, ActionStep(s, a, t, p)) || a.ChangeUser?
    ensures BindingsInv(ActionStep(s, a, t, p))
  {
    match p
    case Single(_, _, _) => SingleKeepsBindings(s, a, t, p);
    case Creator(_) => CreatorKeepsBindings(s, a, t, p);
    case Runner(_, _, _, _) => RunnerKeepsBindings(s, a, t, p);
    case Worker(_, _, _, _) => WorkerKeepsBindings(s, a, t, p);
    case Writer(_) => WriterKeepsBindings(s, a, t, p);
  }

  lemma StepKeepsBindings(s: Engine, e: Event)
    requires LocksInv(s) && BindingsInv(s) && Enabled(s, e)
    requires BindingsStay(s, Step(s, e)) || (e.By? && e.action.ChangeUser?)
    ensures BindingsInv(Step(s, e))
  {
    if e.By? {
      ActionKeepsBindings(s, e.action, e.t, s.threads[e.t]);
    } else {
      StayingBindingsHold(s, Step(s, e));
    }
  }

  // ----- no job while a single mutation is past its check

  lemma StillNoJob(s: Engine, n: Engine)
    requires NoJobInv(s) && (HasOpenJob(n.tables) ==> HasOpenJob(s.tables))
    requires forall u :: u in n.threads && ReliesOnNoJob(n.threads[u]) ==>
               (u in s.threads && ReliesOnNoJob(s.threads[u])) || !HasOpenJob(n.tables)
    ensures NoJobInv(n)
  {
  }

  lemma SingleKeepsNoJob(s: Engine, a: Action, t: ThreadId, p: Thread)
    requires NoJobInv(s) && t in s.threads && s.threads[t] == p && p.Single? && SingleEnabled(s, a, p.at)
    ensures NoJobInv(SingleStep(s, a, t, p))
  {
    StillNoJob(s, SingleStep(s, a, t, p));
  }

  lemma RunnerKeepsNoJob(s: Engine, a: Action, t: ThreadId, p: Thread)
    requires NoJobInv(s) && t in s.threads && s.threads[t] == p && p.Runner? && RunnerEnabled(s, a, t, p.job, p.phase)
    requires HasOpenJob(RunnerStep(s, a, t, p).tables) ==> HasOpenJob(s.tables)
    ensures NoJobInv(RunnerStep(s, a, t, p))
  {
    StillNoJob(s, RunnerStep(s, a, t, p));
  }

  /** A worker's step touches workers and runners only. */
  lemma WorkerLeavesSingles(s: Engine, a: Action, t: ThreadId, p: Thread, u: ThreadId)
    requires t in s.threads && s.threads[t] == p && p.Worker? && WorkerEnabled(s, a, p.runner, p.stage)
    requires u in WorkerStep(s, a, t, p).threads && WorkerStep(s, a, t, p).threads[u].Single?
    ensures u in s.threads && s.threads[u] == WorkerStep(s, a, t, p).threads[u]
  {
  }

  lemma WorkerKeepsNoJob(s: Engine, a: Action, t: ThreadId, p: Thread)
    requires NoJobInv(s) && t in s.threads && s.threads[t] == p && p.Worker? && WorkerEnabled(s, a, p.runner, p.stage)
    requires HasOpenJob(WorkerStep(s, a, t, p).tables) ==> HasOpenJob(s.tables)
    ensures NoJobInv(WorkerStep(s, a, t, p))
  {
    var n := WorkerStep(s, a, t, p);
    forall u | u in n.threads && ReliesOnNoJob(n.threads[u])
      ensures u in s.threads && s.threads[u] == n.threads[u]
    {
      WorkerLeavesSingles(s, a, t, p, u);
    }
    StillNoJob(s, n);
  }

  lemma OtherKeepsNoJob(s: Engine, a: Action, t: ThreadId, p: Thread)
    requires NoJobInv(s) && t in s.threads && s.threads[t] == p && (p.Creator? || p.Writer?) && ActionEnabled(s, a, t, p) && !a.CreateJob?
    requires HasOpenJob(ActionStep(s, a, t, p).tables) ==> HasOpenJob(s.tables)
    ensures NoJobInv(ActionStep(s, a, t, p))
  {
    StillNoJob(s, ActionStep(s, a, t, p));
  }

  lemma ActionKeepsNoJob(s: Engine, a: Action, t: ThreadId, p: Thread)
    requires LocksInv(s) && NoJobInv(s) && t in s.threads && s.threads[t] == p && ActionEnabled(s, a, t, p)
    requires HasOpenJob(ActionStep(s, a, t, p).tables) ==> HasOpenJob(s.tables) || a.CreateJob?
    ensures NoJobInv(ActionStep(s, a, t, p))
  {
    match p
    case Single(_, _, _) => SingleKeepsNoJob(s, a, t, p);
    case Runner(_, _, _, _) => RunnerKeepsNoJob(s, a, t, p);
    case Worker(_, _, _, _) => WorkerKeepsNoJob(s, a, t, p);
    case _ =>
      if a.CreateJob? {
        CreationKeepsNoJob(s, a, t, p);
      } else {
        OtherKeepsNoJob(s, a, t, p);
      }
  }

  /** A job is created by the holder of maintenanceMu, so by no thread that relies on its absence. */
  lemma CreationKeepsNoJob(s: Engine, a: Action, t: ThreadId, p: Thread)
    requires LocksInv(s) && t in s.threads && s.threads[t] == p && p.Creator? && CreatorEnabled(s, a, p.inside) && a.CreateJob?
    ensures NoJobInv(CreatorStep(s, a, t))
  {
    assert InMaintenance(s, t) <==> s.maintenance == Some(t);
    assert forall u: ThreadId :: u in s.threads && ReliesOnNoJob(s.threads[u]) ==> InMaintenance(s, u);
  }

  lemma StepKeepsNoJob(s: Engine, e: Event)
    requires LocksInv(s) && NoJobInv(s) && Enabled(s, e)
    requires HasOpenJob(Step(s, e).tables) ==> HasOpenJob(s.tables) || (e.By? && e.action.CreateJob?)
    ensures NoJobInv(Step(s, e))
  {
    if e.By? {
      ActionKeepsNoJob(s, e.action, e.t, s.threads[e.t]);
    } else {
      StillNoJob(s, Step(s, e));
    }
  }
}
