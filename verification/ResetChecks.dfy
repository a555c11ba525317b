/** Who is reset and who is refused: every upstream call, every skipped item and every refusal goes back to a check of the rows. */
module ResetChecks {
  import opened Options
  import opened ResetTables
  import opened ResetEngine
  import opened ResetInvariant
  import opened ResetKeeps
  import opened ResetWork
  import opened ResetTheorems

  /** This user may be reset with this key: an active or disabled user, not an administrator, bound to this key, which is
      still listed upstream. */
  ghost predicate MayBeReset(t: Tables, user: UserId, key: KeyId) {
    && user in t.users && !t.users[user].admin && t.users[user].status in {Active, Disabled}
    && t.users[user].binding.Some? && t.users[user].binding.value.key == key && !t.users[user].binding.value.missing
  }

  /** The user of this item may be reset with the key of its snapshot. */
  ghost predicate ItemMayBeReset(t: Tables, item: ItemId) {
    item in t.items && t.items[item].key.Some? && MayBeReset(t, t.items[item].user, t.items[item].key.value)
  }

  // ----- every call was checked

  /** The thread has held the read lock from one moment to the other. */
  ghost predicate ReadsSince(check: Run, run: Run, t: ThreadId) {
    && t in Now(run).threads && HoldsRead(Now(run).threads[t])
    && (run == check || (run.Next? && ReadsSince(check, run.before, t)))
  }

  /** The thread has found the user of its mutation resettable, and the write lock has been shut out since. */
  ghost predicate Checked(check: Run, run: Run, t: ThreadId) {
    && ReadsSince(check, run, t)
    && var p := Now(run).threads[t];
       if p.Single? then MayBeReset(Now(check).tables, p.user, p.key) else p.Worker? && ItemMayBeReset(Now(check).tables, p.item)
  }

  /** A thread past its check was there before, unless this step is the check. */
  ghost predicate Relied(s: Engine, n: Engine, t: ThreadId)
    requires t in n.threads
  {
    t in s.threads && SameReliance(s.threads[t], n.threads[t]) && ReliesOnBinding(n.threads[t])
  }

  lemma SingleRelied(s: Engine, a: Action, t: ThreadId, p: Thread, u: ThreadId)
    requires t in s.threads && s.threads[t] == p && p.Single? && SingleEnabled(s, a, p.at) && !a.LoadUser?
    requires u in SingleStep(s, a, t, p).threads && ReliesOnBinding(SingleStep(s, a, t, p).threads[u])
    ensures Relied(s, SingleStep(s, a, t, p), u)
  {
  }

  lemma WorkerRelied(s: Engine, a: Action, t: ThreadId, p: Thread, u: ThreadId)
    requires t in s.threads && s.threads[t] == p && p.Worker? && WorkerEnabled(s, a, p.runner, p.stage) && !a.Validate?
    requires u in WorkerStep(s, a, t, p).threads && ReliesOnBinding(WorkerStep(s, a, t, p).threads[u])
    ensures Relied(s, WorkerStep(s, a, t, p), u)
  {
  }

  lemma OtherRelied(s: Engine, a: Action, t: ThreadId, p: Thread, u: ThreadId)
    requires t in s.threads && s.threads[t] == p && (p.Creator? || p.Runner? || p.Writer?) && ActionEnabled(s, a, t, p)
    requires u in ActionStep(s, a, t, p).threads && ReliesOnBinding(ActionStep(s, a, t, p).threads[u])
    ensures Relied(s, ActionStep(s, a, t, p), u)
  {
  }

  lemma StepRelied(s: Engine, e: Event, u: ThreadId)
    requires Possible(s, e) && !(e.By? && (e.action.LoadUser? || e.action.Validate?))
    requires u in Step(s, e).threads && ReliesOnBinding(Step(s, e).threads[u])
    ensures Relied(s, Step(s, e), u)
  {
    if e.By? {
      var p := s.threads[e.t];
      match p
      case Single(_, _, _) => SingleRelied(s, e.action, e.t, p, u);
      case Worker(_, _, _, _) => WorkerRelied(s, e.action, e.t, p, u);
      case _ => OtherRelied(s, e.action, e.t, p, u);
    }
  }

  lemma CheckStep(s: Engine, a: Action, t: ThreadId, u: ThreadId)
    requires Possible(s, By(t, a)) && (a.LoadUser? || a.Validate?)
    requires u in Step(s, By(t, a)).threads && ReliesOnBinding(Step(s, By(t, a)).threads[u])
    ensures Step(s, By(t, a)).tables == s.tables
    ensures Relied(s, Step(s, By(t, a)), u) ||
            (var q := Step(s, By(t, a)).threads[u];
             if q.Single? then MayBeReset(s.tables, q.user, q.key) else q.Worker? && ItemMayBeReset(s.tables, q.item))
  {
  }

  /** Whatever a thread has checked, it has found the user of its mutation resettable at some moment of its read lock. */
  lemma {:induction false} ReliantWasChecked(run: Run, t: ThreadId)
    requires PossibleRun(run) && t in Now(run).threads && ReliesOnBinding(Now(run).threads[t])
    ensures exists check :: Checked(check, run, t)
  {
    var before, e := run.before, run.event;
    var s, n := Now(before), Now(run);
    if e.By? && (e.action.LoadUser? || e.action.Validate?) {
      CheckStep(s, e.action, e.t, t);
    } else {
      StepRelied(s, e, t);
    }
    if Relied(s, n, t) {
      ReliantWasChecked(before, t);
      var check :| Checked(check, before, t);
      assert Checked(check, run, t);
    } else {
      assert Checked(run, run, t);
    }
  }

  /** Every upstream reset or limit change in flight: under the read lock its thread still holds, its user was found
      resettable with exactly this key; and the user still is no administrator, not deleted and bound to this key. */
  lemma {:induction false} CallsWereChecked(run: Run, t: ThreadId)
    requires PossibleRun(run) && t in Now(run).threads && Changing(Now(run).tables.items, Now(run).threads[t]).Some?
    ensures exists check :: Checked(check, run, t)
    ensures var s, p := Now(run), Now(run).threads[t];
            var user := if p.Single? then p.user else s.tables.items[p.item].user;
            && user in s.tables.users && !s.tables.users[user].admin && s.tables.users[user].status in {Active, Disabled}
            && s.tables.users[user].binding.Some? && s.tables.users[user].binding.value.key == Changing(s.tables.items, p).value
  {
    ReliantWasChecked(run, t);
    BindingStaysDuringCall(run, t);
    RunKeepsInv(run);
  }

  // ----- and every refusal of a single mutation has its reason

  /** A single mutation goes on exactly with a user that may be reset with the key it then uses, and is refused exactly
      when no key makes that true. */
  lemma {:induction false} UserIsRefusedExactlyWhen(run: Run, t: ThreadId, user: UserId)
    requires PossibleRun(run) && t in Now(run).threads && Now(run).threads[t].Single? && Now(run).threads[t].at.Reading?
    ensures Possible(Now(run), By(t, RefuseUser(user))) <==> forall k :: !MayBeReset(Now(run).tables, user, k)
    ensures Possible(Now(run), By(t, LoadUser(user))) <==> exists k :: MayBeReset(Now(run).tables, user, k)
    ensures Possible(Now(run), By(t, LoadUser(user))) ==>
              var p := Step(Now(run), By(t, LoadUser(user))).threads[t];
              p.Single? && p.at.Loaded? && p.user == user && MayBeReset(Now(run).tables, user, p.key)
  {
    var s := Now(run);
    if user in s.tables.users && s.tables.users[user].binding.Some? {
      var k := s.tables.users[user].binding.value.key;
      assert Resettable(s.tables.users[user]) <==> MayBeReset(s.tables, user, k);
    }
  }

  /** It is refused for a batch exactly while some job is queued or running. */
  lemma {:induction false} BatchRefusesExactlyWhen(run: Run, t: ThreadId)
    requires PossibleRun(run) && t in Now(run).threads && Now(run).threads[t].Single? && Now(run).threads[t].at.Loaded?
    ensures Possible(Now(run), By(t, FindJob)) <==> exists j :: j in Now(run).tables.jobs && Now(run).tables.jobs[j].status in {Queued, Running}
    ensures Possible(Now(run), By(t, FindNoJob)) <==> forall j :: j in Now(run).tables.jobs ==> Now(run).tables.jobs[j].status.Completed?
  {
    forall j | j in Now(run).tables.jobs
      ensures Now(run).tables.jobs[j].status in {Queued, Running} <==> Open(Now(run).tables.jobs[j].status)
    {
    }
  }

  /** And never because its key is busy: while it is checked no batch runs, and no other mutation has come as far. */
  lemma {:induction false} SingleFindsItsGateOpen(run: Run, t: ThreadId)
    requires PossibleRun(run) && t in Now(run).threads && Now(run).threads[t].Single? && Now(run).threads[t].at.Cleared?
    ensures Now(run).threads[t].key !in Now(run).gate
  {
    RunKeepsInv(run);
    var s := Now(run);
    var key := s.threads[t].key;
    if key in s.gate {
      var u := s.gate[key];
      assert Gate(s, u) == Some(key);
      assert InMaintenance(s, t) && (InMaintenance(s, u) <==> s.maintenance == Some(u));
      NoJobNoWorkers(s);
    }
  }

  // ----- items are skipped or called as their check says

  /** The last step is the check of this item, and the store answered. */
  ghost predicate Validates(check: Run, item: ItemId) {
    check.Next? && check.event.By? && check.event.action == Validate(false) && Owns(Now(check.before), check.event.t, item)
  }

  /** The item is skipped, or its worker is about to skip it. */
  ghost predicate ToSkip(s: Engine, item: ItemId) {
    || (item in s.tables.items && s.tables.items[item].status.Skipped?)
    || exists w :: Owns(s, w, item) && Skips(s.threads[w])
  }

  predicate Skips(p: Thread) { p.Worker? && (p.stage.Skipping? || (p.stage.Released? && p.status.Skipped?)) }

  /** Upstream was called for the item, or its worker is about to call. */
  ghost predicate ToCall(s: Engine, item: ItemId) {
    item in s.called || exists w :: Owns(s, w, item) && s.threads[w].Worker? && (s.threads[w].stage.Valid? || s.threads[w].stage.InGate?)
  }

  /** This step checks the item, with this result. */
  ghost predicate ChecksItem(s: Engine, e: Event, item: ItemId, passes: bool) {
    e.By? && e.action == Validate(false) && Owns(s, e.t, item) && (passes <==> ItemMayBeReset(s.tables, item))
  }

  ghost predicate SkipsItem(s: Engine, e: Event, item: ItemId) {
    e.By? && e.action.CompleteItem? && Owns(s, e.t, item) && Skips(s.threads[e.t])
  }

  lemma WorkerSkipsItem(s: Engine, a: Action, t: ThreadId, p: Thread, item: ItemId)
    requires t in s.threads && s.threads[t] == p && p.Worker? && (Busy(p) ==> Knows(s, p))
    requires WorkerEnabled(s, a, p.runner, p.stage) && TransactionFollows(s, a, p)
    requires item in WorkerStep(s, a, t, p).tables.items && WorkerStep(s, a, t, p).tables.items[item].status.Skipped?
    ensures (item in s.tables.items && s.tables.items[item].status.Skipped?) || SkipsItem(s, By(t, a), item)
  {
    if a.MarkItem? {
      MarkItemEffect(s.tables, a.next, JobOf(s, p), p.item, a.failure);
    } else if a.CompleteItem? {
      CompleteItemEffect(s.tables, a.next, JobOf(s, p), p.item, p.status, a.failure);
    }
  }

  lemma RunnerSkipsNothing(s: Engine, a: Action, t: ThreadId, p: Thread, item: ItemId)
    requires Inv(s) && t in s.threads && s.threads[t] == p && p.Runner? && RunnerEnabled(s, a, t, p.job, p.phase) && TransactionFollows(s, a, p)
    requires item in RunnerStep(s, a, t, p).tables.items && RunnerStep(s, a, t, p).tables.items[item].status.Skipped?
    ensures item in s.tables.items && s.tables.items[item].status.Skipped?
  {
    assert RunnerFits(s, p);
    RunnerStepSkipsNothing(s, a, t, p, item);
  }

  lemma RunnerStepSkipsNothing(s: Engine, a: Action, t: ThreadId, p: Thread, item: ItemId)
    requires p.Runner? && RunnerFits(s, p) && RunnerEnabled(s, a, t, p.job, p.phase) && TransactionFollows(s, a, p)
    requires item in RunnerStep(s, a, t, p).tables.items && RunnerStep(s, a, t, p).tables.items[item].status.Skipped?
    ensures item in s.tables.items && s.tables.items[item].status.Skipped?
  {
    match a
    case StartJob(next, failure) => StartJobEffect(s.tables, next, p.job, failure);
    case FinishJob(next, failure) => FinishJobEffect(s.tables, next, p.job, failure);
    case AbortJob(next, failure) => AbortJobEffect(s.tables, next, p.job, failure);
    case _ =>
  }

  lemma CreatorSkipsNothing(s: Engine, a: Action, t: ThreadId, p: Thread, item: ItemId)
    requires t in s.threads && s.threads[t] == p && p.Creator? && CreatorEnabled(s, a, p.inside) && TransactionFollows(s, a, p)
    requires item in CreatorStep(s, a, t).tables.items && CreatorStep(s, a, t).tables.items[item].status.Skipped?
    ensures item in s.tables.items && s.tables.items[item].status.Skipped?
  {
    if a.CreateJob? {
      CreateJobEffect(s.tables, a.next, a.job, a.rows, a.failure);
      assert item in a.rows ==> InSnapshot(s.tables, a.job, a.rows[item]);
    }
  }

  lemma WriterSkipsNothing(s: Engine, a: Action, t: ThreadId, p: Thread)
    requires TablesInv(s.tables) && p.Writer? && WriterEnabled(s, a, p.holding) && TransactionFollows(s, a, p)
    ensures WriterStep(s, a, t).tables.items == s.tables.items
  {
    if a.ChangeUser? && ResetTables.ChangeUser(s.tables, a.change).Ok? {
      ChangeUserIsSound(s.tables, a.change);
    }
  }

  lemma ActionSkipsItem(s: Engine, a: Action, t: ThreadId, p: Thread, item: ItemId)
    requires Inv(s) && t in s.threads && s.threads[t] == p && ActionEnabled(s, a, t, p) && TransactionFollows(s, a, p)
    requires item in ActionStep(s, a, t, p).tables.items && ActionStep(s, a, t, p).tables.items[item].status.Skipped?
    ensures (item in s.tables.items && s.tables.items[item].status.Skipped?) || SkipsItem(s, By(t, a), item)
  {
    match p
    case Worker(_, _, _, _) =>
      if Busy(p) {
        WorkIsKnown(s, t);
      }
      WorkerSkipsItem(s, a, t, p, item);
    case Runner(_, _, _, _) => RunnerSkipsNothing(s, a, t, p, item);
    case Creator(_) => CreatorSkipsNothing(s, a, t, p, item);
    case Single(_, _, _) => SingleLeavesUsers(s, a, t, p);
    case Writer(_) => WriterSkipsNothing(s, a, t, p);
  }

  lemma StepSkipsItem(s: Engine, e: Event, item: ItemId)
    requires Inv(s) && Possible(s, e) && item in Step(s, e).tables.items && Step(s, e).tables.items[item].status.Skipped?
    ensures (item in s.tables.items && s.tables.items[item].status.Skipped?) || SkipsItem(s, e, item)
  {
    if e.By? {
      ActionSkipsItem(s, e.action, e.t, s.threads[e.t], item);
    }
  }

  /** A busy worker was there before, as it is or before its own step. */
  lemma OwnersStay(s: Engine, e: Event, w: ThreadId, item: ItemId)
    requires Possible(s, e) && Owns(Step(s, e), w, item)
    ensures w in s.threads && s.threads[w].Worker? && (s.threads[w] == Step(s, e).threads[w] || (e.By? && e.t == w))
  {
    if e.By? {
      var p := s.threads[e.t];
      match p
      case Single(_, _, _) => SingleLeavesOwners(s, e.action, e.t, p, w);
      case Worker(_, _, _, _) => WorkerLeavesOwners(s, e.action, e.t, p, w);
      case _ => OtherLeavesOwners(s, e.action, e.t, p, w);
    }
  }

  lemma SingleLeavesOwners(s: Engine, a: Action, t: ThreadId, p: Thread, w: ThreadId)
    requires t in s.threads && s.threads[t] == p && p.Single? && SingleEnabled(s, a, p.at)
    requires w in SingleStep(s, a, t, p).threads && Busy(SingleStep(s, a, t, p).threads[w])
    ensures w in s.threads && s.threads[w] == SingleStep(s, a, t, p).threads[w]
  {
  }

  lemma WorkerLeavesOwners(s: Engine, a: Action, t: ThreadId, p: Thread, w: ThreadId)
    requires t in s.threads && s.threads[t] == p && p.Worker? && WorkerEnabled(s, a, p.runner, p.stage)
    requires w in WorkerStep(s, a, t, p).threads && Busy(WorkerStep(s, a, t, p).threads[w])
    ensures w in s.threads && s.threads[w].Worker? && (w == t || s.threads[w] == WorkerStep(s, a, t, p).threads[w])
  {
  }

  lemma OtherLeavesOwners(s: Engine, a: Action, t: ThreadId, p: Thread, w: ThreadId)
    requires t in s.threads && s.threads[t] == p && (p.Creator? || p.Runner? || p.Writer?) && ActionEnabled(s, a, t, p)
    requires w in ActionStep(s, a, t, p).threads && Busy(ActionStep(s, a, t, p).threads[w])
    ensures w in s.threads && s.threads[w] == ActionStep(s, a, t, p).threads[w]
  {
  }

  /** The worker's gate is open, and it knows what upstream answered. */
  ghost predicate InOrder(s: Engine, p: Thread) {
    && p.Worker?
    && (p.stage.Valid? ==> KeyOf(s.tables.items, p.item).Some? && KeyOf(s.tables.items, p.item).value !in s.gate)
    && (p.stage.Ungated? ==> !p.status.Skipped?)
  }

  lemma BusyWorkerIsInOrder(s: Engine, t: ThreadId)
    requires Inv(s) && t in s.threads && s.threads[t].Worker?
    ensures InOrder(s, s.threads[t])
  {
    if s.threads[t].stage.Valid? {
      ValidWorkerIsAlone(s, t);
    } else if s.threads[t].stage.Ungated? {
      assert CallFits(s, s.threads[t]);
    }
  }

  lemma WorkerTurnsToSkip(s: Engine, a: Action, t: ThreadId, p: Thread)
    requires t in s.threads && s.threads[t] == p && InOrder(s, p) && WorkerEnabled(s, a, p.runner, p.stage)
    requires var n := WorkerStep(s, a, t, p); t in n.threads && Busy(n.threads[t]) && Skips(n.threads[t])
    ensures Busy(p) && p.item == WorkerStep(s, a, t, p).threads[t].item
    ensures Skips(p) || (a == Validate(false) && !StillResettable(s.tables, p.item))
  {
  }

  lemma OwnerTurnsToSkip(s: Engine, e: Event, w: ThreadId, item: ItemId)
    requires Inv(s) && Possible(s, e) && Owns(Step(s, e), w, item) && Skips(Step(s, e).threads[w])
    ensures (Owns(s, w, item) && Skips(s.threads[w])) || ChecksItem(s, e, item, false)
  {
    OwnersStay(s, e, w, item);
    if e.By? && e.t == w {
      BusyWorkerIsInOrder(s, w);
      WorkerTurnsToSkip(s, e.action, w, s.threads[w]);
    }
  }

  lemma StepTurnsToSkip(s: Engine, e: Event, item: ItemId)
    requires Inv(s) && Possible(s, e) && ToSkip(Step(s, e), item)
    ensures ToSkip(s, item) || ChecksItem(s, e, item, false)
  {
    if item in Step(s, e).tables.items && Step(s, e).tables.items[item].status.Skipped? {
      StepSkipsItem(s, e, item);
    } else {
      var w :| Owns(Step(s, e), w, item) && Skips(Step(s, e).threads[w]);
      OwnerTurnsToSkip(s, e, w, item);
    }
  }

  /** An item is only skipped after a check that found its user gone, deleted, an administrator, unbound, bound to another
      key or bound to one that is missing. */
  lemma {:induction false} SkippedWasRefused(run: Run, item: ItemId)
    requires PossibleRun(run) && ToSkip(Now(run), item)
    ensures exists check :: ExtendsTo(check, run, item, false)
  {
    RunKeepsInv(run.before);
    StepTurnsToSkip(Now(run.before), run.event, item);
    if ToSkip(Now(run.before), item) {
      SkippedWasRefused(run.before, item);
      var check :| ExtendsTo(check, run.before, item, false);
      assert ExtendsTo(check, run, item, false);
    } else {
      assert ExtendsTo(run, run, item, false);
    }
  }

  /** This moment of the run checked the item, with this result. */
  ghost predicate ExtendsTo(check: Run, run: Run, item: ItemId, passes: bool) {
    Extends(check, run) && Validates(check, item) && (passes <==> ItemMayBeReset(Now(check.before).tables, item))
  }

  lemma WorkerTurnsToCall(s: Engine, a: Action, t: ThreadId, item: ItemId)
    requires Possible(s, By(t, a)) && s.threads[t].Worker? && Owns(Step(s, By(t, a)), t, item)
    requires var p := Step(s, By(t, a)).threads[t]; p.Worker? && (p.stage.Valid? || p.stage.InGate?)
    ensures ToCall(s, item) || ChecksItem(s, By(t, a), item, true)
  {
    assert Owns(s, t, item);
  }

  lemma StepTurnsToCall(s: Engine, e: Event, item: ItemId)
    requires Inv(s) && Possible(s, e) && ToCall(Step(s, e), item)
    ensures ToCall(s, item) || ChecksItem(s, e, item, true)
  {
    if item in Step(s, e).called {
      StepCalls(s, e, item);
      if item !in s.called {
        assert Owns(s, e.t, item);
      }
    } else {
      var n := Step(s, e);
      var w :| Owns(n, w, item) && n.threads[w].Worker? && (n.threads[w].stage.Valid? || n.threads[w].stage.InGate?);
      OwnersStay(s, e, w, item);
      if e.By? && e.t == w {
        WorkerTurnsToCall(s, e.action, w, item);
      } else {
        assert Owns(s, w, item);
      }
    }
  }

  /** Upstream is only called for an item after a check that found its user resettable with exactly its key. */
  lemma {:induction false} CalledWasAllowed(run: Run, item: ItemId)
    requires PossibleRun(run) && ToCall(Now(run), item)
    ensures exists check :: ExtendsTo(check, run, item, true)
  {
    RunKeepsInv(run.before);
    StepTurnsToCall(Now(run.before), run.event, item);
    if ToCall(Now(run.before), item) {
      CalledWasAllowed(run.before, item);
      var check :| ExtendsTo(check, run.before, item, true);
      assert ExtendsTo(check, run, item, true);
    } else {
      assert ExtendsTo(run, run, item, true);
    }
  }

  // ----- and each item is checked once

  /** The item has left the channel and its worker is past the check. */
  ghost predicate PastCheck(s: Engine, item: ItemId) {
    && item in s.tables.items && !s.tables.items[item].status.Pending?
    && forall w :: Owns(s, w, item) ==> !Unchecked(s.threads[w])
  }

  predicate Unchecked(p: Thread) { p.Worker? && (p.stage.Took? || p.stage.Marked? || p.stage.Holding?) }

  lemma CheckedIsPast(s: Engine, t: ThreadId, item: ItemId)
    requires Inv(s) && Possible(s, By(t, Validate(false))) && Owns(s, t, item)
    ensures PastCheck(Step(s, By(t, Validate(false))), item)
  {
    WorkIsKnown(s, t);
    var n := Step(s, By(t, Validate(false)));
    forall w | Owns(n, w, item)
      ensures !Unchecked(n.threads[w])
    {
      OwnersStay(s, By(t, Validate(false)), w, item);
    }
  }

  lemma OwnerStaysPast(s: Engine, e: Event, w: ThreadId, item: ItemId)
    requires Inv(s) && Possible(s, e) && PastCheck(s, item) && Owns(Step(s, e), w, item)
    ensures !Unchecked(Step(s, e).threads[w])
  {
    OwnersStay(s, e, w, item);
    if e.By? && e.t == w {
      WorkerStaysPast(s, e.action, w, s.threads[w], item);
    } else {
      assert Owns(s, w, item);
    }
  }

  lemma TakenIsPending(s: Engine, t: ThreadId, p: Thread)
    requires t in s.threads && s.threads[t] == p && p.Worker? && WorkerEnabled(s, TakeItem, p.runner, p.stage)
    requires RunnerFits(s, s.threads[p.runner]) && p.runner != t
    ensures var q := WorkerStep(s, TakeItem, t, p).threads[t];
            Busy(q) ==> q.item in s.tables.items && s.tables.items[q.item].status.Pending?
  {
    assert s.threads[p.runner].queue[0] in s.threads[p.runner].queue;
  }

  lemma WorkerStaysPast(s: Engine, a: Action, t: ThreadId, p: Thread, item: ItemId)
    requires ThreadsInv(s) && t in s.threads && s.threads[t] == p && p.Worker? && WorkerEnabled(s, a, p.runner, p.stage) && PastCheck(s, item)
    requires Owns(WorkerStep(s, a, t, p), t, item)
    ensures !Unchecked(WorkerStep(s, a, t, p).threads[t])
  {
    if a.TakeItem? {
      TakenIsPending(s, t, p);
    } else {
      assert Owns(s, t, item);
    }
  }

  lemma StepStaysPast(s: Engine, e: Event, item: ItemId)
    requires Inv(s) && Possible(s, e) && PastCheck(s, item)
    ensures PastCheck(Step(s, e), item)
  {
    StepKeepsTables(s, e);
    forall w | Owns(Step(s, e), w, item)
      ensures !Unchecked(Step(s, e).threads[w])
    {
      OwnerStaysPast(s, e, w, item);
    }
  }

  lemma {:induction false} PastSince(check: Run, run: Run, item: ItemId)
    requires PossibleRun(run) && Extends(check, run) && Validates(check, item)
    ensures PastCheck(Now(run), item)
  {
    RunKeepsInv(run.before);
    if run == check {
      CheckedIsPast(Now(run.before), run.event.t, item);
    } else {
      PastSince(check, run.before, item);
      StepStaysPast(Now(run.before), run.event, item);
    }
  }

  lemma {:induction false} MomentsAreOrdered(a: Run, b: Run, run: Run)
    requires Extends(a, run) && Extends(b, run)
    ensures a == b || (b.Next? && Extends(a, b.before)) || (a.Next? && Extends(b, a.before))
  {
    if a != run && b != run {
      MomentsAreOrdered(a, b, run.before);
    }
  }

  lemma {:induction false} MomentsAreMoments(earlier: Run, run: Run)
    requires PossibleRun(run) && Extends(earlier, run)
    ensures PossibleRun(earlier)
  {
    if run != earlier {
      MomentsAreMoments(earlier, run.before);
    }
  }

  lemma {:induction false} LaterCheckIsNone(a: Run, b: Run, item: ItemId)
    requires PossibleRun(b) && b.Next? && Extends(a, b.before) && Validates(a, item)
    ensures !Validates(b, item)
  {
    PastSince(a, b.before, item);
  }

  /** An item is checked at most once in its life. */
  lemma {:induction false} OneCheckPerItem(run: Run, a: Run, b: Run, item: ItemId)
    requires PossibleRun(run) && Extends(a, run) && Extends(b, run) && Validates(a, item) && Validates(b, item)
    ensures a == b
  {
    MomentsAreOrdered(a, b, run);
    MomentsAreMoments(a, run);
    MomentsAreMoments(b, run);
    if a != b {
      if Extends(a, b.before) {
        LaterCheckIsNone(a, b, item);
      } else {
        LaterCheckIsNone(b, a, item);
      }
    }
  }

  /** Of a job that was not aborted, an item ends skipped exactly if its check found that its user may not be reset with its
      key; and exactly otherwise upstream was called for it, once. */
  lemma {:induction false} SkippedExactlyWhen(run: Run, item: ItemId)
    requires PossibleRun(run) && item in Now(run).tables.items && Terminal(Now(run).tables.items[item].status)
    requires Now(run).tables.items[item].job !in Now(run).aborted
    ensures Now(run).tables.items[item].status.Skipped? <==> exists check :: ExtendsTo(check, run, item, false)
    ensures CallsMade(run, item) == 1 <==> exists check :: ExtendsTo(check, run, item, true)
    ensures Now(run).tables.items[item].status.Skipped? <==> CallsMade(run, item) == 0
  {
    RunKeepsInv(run);
    OneCallPerItem(run, item);
    assert OutcomeFits(Now(run), item);
    if Now(run).tables.items[item].status.Skipped? {
      SkippedWasRefused(run, item);
    } else {
      CalledWasAllowed(run, item);
    }
    forall a, b | ExtendsTo(a, run, item, true) && ExtendsTo(b, run, item, false)
      ensures false
    {
      OneCheckPerItem(run, a, b, item);
    }
  }
}
