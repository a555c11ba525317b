/**
 The store's transactions statement by statement: internal/store/quota_reset.go.  A transaction works on
 its own copy of the rows and becomes visible when it commits; any statement may fail, and a call may
 still report an error after its commit.  Each method is proved against its function in ResetTables.
 */
module ResetStore {
  import opened Options
  import opened ResetTables

  /** UPDATE quota_reset_job_items SET status=... WHERE job_id=... AND id=... AND status matches. */
  method UpdateItems(items: map<ItemId, Item>, job: JobId, only: Option<ItemId>, from: set<ItemStatus>, status: ItemStatus)
    returns (updated: map<ItemId, Item>, affected: nat)
    ensures updated.Keys == items.Keys
    ensures forall i :: i in items ==>
              updated[i] == if Selected(items[i], i, job, only, from) then items[i].(status := status) else items[i]
    ensures affected == 0 <==> forall i :: i in items ==> !Selected(items[i], i, job, only, from)
  {
    var chosen := set i | i in items && Selected(items[i], i, job, only, from);
    updated := map i | i in items :: if i in chosen then items[i].(status := status) else items[i];
    affected := |chosen|;
    assert affected == 0 ==> forall i :: i in items ==> i !in chosen;
    assert (forall i :: i in items ==> i !in chosen) ==> chosen == {};
  }

  predicate Selected(row: Item, id: ItemId, job: JobId, only: Option<ItemId>, from: set<ItemStatus>) {
    row.job == job && (only.Some? ==> only.value == id) && row.status in from
  }

  class Store {
    var tables: Tables
    ghost var mishaps: nat  // statements and commits that reported a failure

    ghost predicate Valid()
      reads this
    {
      TablesInv(tables)
    }

    constructor (users: map<UserId, User>)
      requires UsersInv(users)
      ensures Valid() && tables == Tables(map[], map[], users)
    {
      tables, mishaps := Tables(map[], map[], users), 0;
    }

    /** Nothing has gone wrong since. */
    twostate predicate Smooth()
      reads this
    {
      mishaps == old(mishaps)
    }

    method StatementFails() returns (failed: bool)
      modifies `mishaps
      ensures mishaps == old(mishaps) + if failed then 1 else 0
    {
      failed := *;
      mishaps := mishaps + if failed then 1 else 0;
    }

    method Commit(tx: Tables) returns (failure: Option<Error>)
      modifies this
      ensures failure.None? ==> tables == tx
      ensures failure.Some? ==> failure.value.IoError? && (tables == old(tables) || tables == tx)
      ensures mishaps == old(mishaps) + if failure.None? then 0 else 1
    {
      var durable: bool, reported: bool := *, *;
      mishaps := mishaps + if durable && !reported then 0 else 1;
      if durable {
        tables := tx;
      }
      failure := if durable && !reported then None else Some(IoError);
    }

    /** recomputeQuotaResetCounters: one aggregate query and one update. */
    method RecomputeQuotaResetCounters(tx: Tables, job: JobId) returns (r: Result<Tables>, counters: Counters)
      modifies `mishaps
      ensures r.Ok? ==> job in tx.jobs && r.value == Recomputed(tx, job) && counters == Tally(tx.items, job)
      ensures r.Err? ==> r.error.IoError? || (r.error.NotFound? && job !in tx.jobs)
      ensures old(mishaps) <= mishaps && (Smooth() ==> r.Ok? || r.error.NotFound?)
    {
      counters := Tally(tx.items, job);
      var failed := StatementFails();
      if failed {
        return Err(IoError), counters;
      }
      if job !in tx.jobs {
        return Err(NotFound), counters;
      }
      return Ok(tx.(jobs := tx.jobs[job := tx.jobs[job].(counters := counters)])), counters;
    }

    method InsertJob(start: Tables, job: JobId, firstItem: ItemId) returns (r: Result<Tables>)
      requires job !in start.jobs && forall i :: i in start.items ==> i < firstItem
      modifies `mishaps
      ensures r.Ok? ==> JobCreated(start, r.value, job)
      ensures r.Err? ==> r.error.IoError?
      ensures old(mishaps) <= mishaps && (Smooth() ==> r.Ok?)
    {
      var tx := start.(jobs := start.jobs[job := Job(Queued, Counters(0, 0, 0, 0, 0, 0, 0))]);
      var rows := SelectUsers(start, job, firstItem);
      tx := tx.(items := tx.items + rows);
      var failed := StatementFails();
      if failed {
        return Err(IoError);
      }
      var total := |ItemsOf(tx.items, job)|;
      tx := tx.(jobs := tx.jobs[job := tx.jobs[job].(counters := tx.jobs[job].counters.(total := total, pending := total))]);
      failed := StatementFails();  // the audit row
      if failed {
        return Err(IoError);
      }
      assert tx == CreatedJob(start, job, rows);
      return Ok(tx);
    }

    /** CreateQuotaResetJob; the partial unique index admits one open job.  The sequence hands out new identifiers. */
    method CreateQuotaResetJob(job: JobId, firstItem: ItemId) returns (failure: Option<Error>)
      requires Valid() && job !in tables.jobs && forall i :: i in tables.items ==> i < firstItem
      modifies this
      ensures Valid() && Advances(old(tables), tables)
      ensures failure.None? ==> !HasOpenJob(old(tables)) && JobCreated(old(tables), tables, job)
      ensures failure.Some? ==> tables == old(tables) || (failure.value.IoError? && !HasOpenJob(old(tables)) && JobCreated(old(tables), tables, job))
      ensures failure.Some? && !failure.value.IoError? ==> failure.value.JobActive? && HasOpenJob(old(tables))
      ensures old(mishaps) <= mishaps && (Smooth() ==> failure == if HasOpenJob(old(tables)) then Some(JobActive) else None)
    {
      var failed := StatementFails();
      if failed {
        return Some(IoError);
      }
      if exists j :: j in tables.jobs && Open(tables.jobs[j].status) {
        return Some(JobActive);
      }
      var inserted := InsertJob(tables, job, firstItem);
      if inserted.Err? {
        return Some(inserted.error);
      }
      JobCreatedIsSound(tables, inserted.value, job);
      failure := Commit(inserted.value);
      if failure.None? {
        failed := StatementFails();  // quotaResetJobByID
        failure := if failed then Some(IoError) else None;
      }
    }

    method MarkQuotaResetJobRunning(job: JobId) returns (failure: Option<Error>)
      requires Valid()
      modifies this
      ensures Valid() && Advances(old(tables), tables) && Follows(old(tables), tables, MarkJobRunning(old(tables), job), failure)
      ensures old(mishaps) <= mishaps && (Smooth() ==> failure != Some(IoError))
    {
      var failed := StatementFails();
      if failed {
        return Some(IoError);
      }
      if job in tables.jobs && tables.jobs[job].status.Queued? {
        MarkJobRunningIsSound(tables, job);
        failure := Commit(tables.(jobs := tables.jobs[job := tables.jobs[job].(status := Running)]));
        return;
      }
      failed := StatementFails();
      return Some(if failed then IoError else if job in tables.jobs then TransitionError else NotFound);
    }

    method MarkQuotaResetItemRunning(job: JobId, item: ItemId) returns (failure: Option<Error>)
      requires Valid()
      modifies this
      ensures Valid() && Advances(old(tables), tables) && Follows(old(tables), tables, MarkItemRunning(old(tables), job, item), failure)
      ensures old(mishaps) <= mishaps && (Smooth() ==> failure != Some(IoError))
    {
      failure := UpdateItem(job, item, {Pending}, InProgress);
    }

    /** CompleteQuotaResetItem; the caller's codes are always valid tokens. */
    method CompleteQuotaResetItem(job: JobId, item: ItemId, status: ItemStatus) returns (failure: Option<Error>)
      requires Valid()
      modifies this
      ensures Valid() && Advances(old(tables), tables) && Follows(old(tables), tables, CompleteItem(old(tables), job, item, status), failure)
      ensures old(mishaps) <= mishaps && (Smooth() ==> failure != Some(IoError))
    {
      if !Terminal(status) {
        return Some(TransitionError);
      }
      failure := UpdateItem(job, item, {Pending, InProgress}, status);
    }

    /** The transaction both item transitions consist of. */
    method UpdateItem(job: JobId, item: ItemId, from: set<ItemStatus>, status: ItemStatus) returns (failure: Option<Error>)
      requires Valid() && forall s :: s in from ==> !Terminal(s) && ItemRank(s) <= ItemRank(status)
      modifies this
      ensures Valid() && Advances(old(tables), tables)
      ensures Follows(old(tables), tables, if item in old(tables.items) && old(tables.items)[item].job == job && old(tables.items)[item].status in from && JobRuns(old(tables), job)
                      then Ok(SetItem(old(tables), job, item, status)) else Err(ItemTransitionError(old(tables), job, item)), failure)
      ensures old(mishaps) <= mishaps && (Smooth() ==> failure != Some(IoError))
    {
      var failed := StatementFails();
      if failed {
        return Some(IoError);
      }
      var items, affected := tables.items, 0;
      if job in tables.jobs && tables.jobs[job].status.Running? {
        items, affected := UpdateItems(tables.items, job, Some(item), from, status);
      }
      if affected == 0 {
        failed := StatementFails();
        return Some(if failed then IoError else if item in tables.items && tables.items[item].job == job then TransitionError else NotFound);
      }
      assert items == tables.items[item := tables.items[item].(status := status)];
      var recomputed, _ := RecomputeQuotaResetCounters(tables.(items := items), job);
      if recomputed.Err? {
        return Some(recomputed.error);
      }
      SetItemIsSound(tables, job, item, status);
      failure := Commit(recomputed.value);
    }

    method FinishQuotaResetJob(job: JobId) returns (failure: Option<Error>)
      requires Valid()
      modifies this
      ensures Valid() && Advances(old(tables), tables) && Follows(old(tables), tables, FinishJob(old(tables), job), failure)
      ensures old(mishaps) <= mishaps && (Smooth() ==> failure != Some(IoError))
    {
      var failed := StatementFails();
      if failed {
        return Some(IoError);
      }
      if job !in tables.jobs {
        return Some(NotFound);
      }
      if !tables.jobs[job].status.Running? {
        return Some(TransitionError);
      }
      var recomputed, counters := RecomputeQuotaResetCounters(tables, job);
      if recomputed.Err? {
        return Some(recomputed.error);
      }
      if counters.pending != 0 || counters.running != 0 {
        return Some(TransitionError);
      }
      failed := StatementFails();
      if failed {
        return Some(IoError);
      }
      FinishJobIsSound(tables, job);
      var tx := recomputed.value;
      failure := Commit(tx.(jobs := tx.jobs[job := tx.jobs[job].(status := Completed)]));
      if failure.None? {
        failed := StatementFails();  // quotaResetJobByID
        failure := if failed then Some(IoError) else None;
      }
    }

    /** abortQuotaResetJobTx */
    method AbortQuotaResetJobTx(tx: Tables, job: JobId) returns (r: Result<Tables>)
      modifies `mishaps
      ensures r.Ok? ==> r == AbortJob(tx, job)
      ensures r.Err? ==> r.error.IoError? || AbortJob(tx, job) == r
      ensures old(mishaps) <= mishaps && (Smooth() ==> r == AbortJob(tx, job))
    {
      var failed := StatementFails();
      if failed {
        return Err(IoError);
      }
      if job !in tx.jobs {
        return Err(NotFound);
      }
      if tx.jobs[job].status.Completed? {
        return Ok(tx);
      }
      var items, _ := UpdateItems(tx.items, job, None, {Pending, InProgress}, Unknown);
      assert items == GiveUpItems(tx.items, job);
      var recomputed, counters := RecomputeQuotaResetCounters(tx.(items := items), job);
      if recomputed.Err? {
        return recomputed;
      }
      NothingLeftAfterGivingUp(tx.items, job);
      if counters.pending != 0 || counters.running != 0 {
        assert false;
        return Err(TransitionError);
      }
      var next := recomputed.value;
      return Ok(next.(jobs := next.jobs[job := next.jobs[job].(status := Completed)]));
    }

    method AbortQuotaResetJob(job: JobId) returns (failure: Option<Error>)
      requires Valid()
      modifies this
      ensures Valid() && Advances(old(tables), tables) && Follows(old(tables), tables, AbortJob(old(tables), job), failure)
      ensures old(mishaps) <= mishaps && (Smooth() ==> failure != Some(IoError))
    {
      var r := AbortQuotaResetJobTx(tables, job);
      if r.Err? {
        return Some(r.error);
      }
      AbortJobIsSound(tables, job);
      failure := Commit(r.value);
    }

    method RecoverTx(start: Tables) returns (r: Result<Tables>)
      modifies `mishaps
      ensures r.Ok? ==> Recovered(start, r.value)
      ensures old(mishaps) <= mishaps && (Smooth() ==> r.Ok?)
    {
      var tx := start;
      var jobs := set j | j in start.jobs && Open(start.jobs[j].status);
      while jobs != {}
        invariant old(mishaps) <= mishaps
        invariant PartlyRecovered(start, tx, jobs)
        invariant forall j :: j in jobs ==> j in start.jobs && Open(start.jobs[j].status)
        decreases |jobs|
      {
        var job :| job in jobs;
        r := AbortQuotaResetJobTx(tx, job);
        if r.Err? {
          return;
        }
        AbortedIsRecovered(start, tx, jobs, job);
        tx := r.value;
        jobs := jobs - {job};
      }
      return Ok(tx);
    }

    /** At the start of the portal: every job left open by the previous process is closed. */
    method RecoverInterruptedQuotaResetJobs() returns (failure: Option<Error>)
      requires Valid()
      modifies this
      ensures Valid() && Advances(old(tables), tables)
      ensures failure.None? ==> Recovered(old(tables), tables)
      ensures failure.Some? ==> tables == old(tables) || Recovered(old(tables), tables)
      ensures old(mishaps) <= mishaps && (Smooth() ==> failure.None?)
    {
      var failed := StatementFails();
      if failed {
        return Some(IoError);
      }
      var recovered := RecoverTx(tables);
      if recovered.Err? {
        return Some(recovered.error);
      }
      RecoveredIsSound(tables, recovered.value);
      failure := Commit(recovered.value);
    }
  }

  lemma NothingLeftAfterGivingUp(items: map<ItemId, Item>, job: JobId)
    ensures Tally(GiveUpItems(items, job), job).pending == 0 && Tally(GiveUpItems(items, job), job).running == 0
  {
    TallyMatches(GiveUpItems(items, job), job);
    NothingLeft(Tally(GiveUpItems(items, job), job), GiveUpItems(items, job), job);
  }

  /** The open jobs not in `left` have been closed. */
  ghost predicate PartlyRecovered(before: Tables, after: Tables, left: set<JobId>) {
    && after.users == before.users && after.jobs.Keys == before.jobs.Keys && after.items.Keys == before.items.Keys
    && (forall j :: j in left && j in before.jobs ==> after.jobs[j] == before.jobs[j])
    && (forall j :: j in before.jobs && j !in left ==>
          after.jobs[j].status.Completed? &&
          after.jobs[j].counters == if Open(before.jobs[j].status) then Tally(after.items, j) else before.jobs[j].counters)
    && (forall i :: i in before.items ==>
          after.items[i] == if before.items[i].job !in left && before.items[i].job in before.jobs && Open(before.jobs[before.items[i].job].status) && !Terminal(before.items[i].status)
                            then before.items[i].(status := Unknown) else before.items[i])
  }

  lemma AbortedIsRecovered(before: Tables, after: Tables, left: set<JobId>, job: JobId)
    requires PartlyRecovered(before, after, left) && job in left && job in before.jobs && Open(before.jobs[job].status)
    ensures AbortJob(after, job).Ok? && PartlyRecovered(before, AbortJob(after, job).value, left - {job})
  {
    assert after.jobs[job] == before.jobs[job];
    OneMoreRecovered(before, after, AbortJob(after, job).value, left, job);
  }

  /** One open job is closed, the others stay as they are. */
  lemma OneMoreRecovered(before: Tables, after: Tables, next: Tables, left: set<JobId>, job: JobId)
    requires PartlyRecovered(before, after, left) && job in left && job in before.jobs && Open(before.jobs[job].status)
    requires next.users == after.users && next.items == GiveUpItems(after.items, job)
    requires job in next.jobs && next.jobs == after.jobs[job := Job(Completed, Tally(next.items, job))]
    ensures PartlyRecovered(before, next, left - {job})
  {
    RecoveredTalliesStay(before, after, next, left, job);
    RecoveredItemsStay(before, after, left, job);
  }

  lemma RecoveredTalliesStay(before: Tables, after: Tables, next: Tables, left: set<JobId>, job: JobId)
    requires PartlyRecovered(before, after, left) && job in left && next.items == GiveUpItems(after.items, job)
    ensures forall j :: j in before.jobs && j !in left ==> Tally(next.items, j) == Tally(after.items, j)
  {
    forall j | j in before.jobs && j !in left
      ensures Tally(next.items, j) == Tally(after.items, j)
    {
      SameItemsSameTally(after.items, next.items, j);
    }
  }

  lemma RecoveredItemsStay(before: Tables, after: Tables, left: set<JobId>, job: JobId)
    requires PartlyRecovered(before, after, left) && job in left && job in before.jobs && Open(before.jobs[job].status)
    ensures forall i :: i in before.items ==>
              GiveUpItems(after.items, job)[i] ==
              if before.items[i].job !in left - {job} && before.items[i].job in before.jobs && Open(before.jobs[before.items[i].job].status)
                 && !Terminal(before.items[i].status)
              then before.items[i].(status := Unknown) else before.items[i]
  {
  }

  lemma SameItemsSameTally(items: map<ItemId, Item>, other: map<ItemId, Item>, job: JobId)
    requires items.Keys == other.Keys
    requires forall i :: i in items ==> other[i].job == items[i].job && (items[i].job == job ==> other[i] == items[i])
    ensures Tally(items, job) == Tally(other, job)
  {
    assert ItemsOf(items, job) == ItemsOf(other, job);
    assert forall s :: WithStatus(items, job, s) == WithStatus(other, job, s);
  }

  // ----- INSERT ... SELECT

  ghost predicate JobCreated(before: Tables, after: Tables, job: JobId) {
    exists rows :: Snapshot(before, job, rows) && after == CreatedJob(before, job, rows)
  }

  lemma JobCreatedIsSound(before: Tables, after: Tables, job: JobId)
    requires TablesInv(before) && !HasOpenJob(before) && job !in before.jobs && JobCreated(before, after, job)
    ensures TablesInv(after) && Advances(before, after)
  {
    var rows :| Snapshot(before, job, rows) && after == CreatedJob(before, job, rows);
    CreatedJobIsSound(before, job, rows);
  }

  /** The select's cursor over the users: a new row for each that qualifies. */
  method SelectUsers(t: Tables, job: JobId, firstItem: ItemId) returns (rows: map<ItemId, Item>)
    requires forall i :: i in t.items ==> i < firstItem
    ensures Snapshot(t, job, rows)
  {
    rows := map[];
    var left := t.users.Keys;
    var next := firstItem;
    while left != {}
      invariant left <= t.users.Keys && firstItem <= next
      invariant forall i :: i in rows ==> firstItem <= i < next && InSnapshot(t, job, rows[i]) && rows[i].user !in left
      invariant forall i, k :: i in rows && k in rows && i != k ==> rows[i].user != rows[k].user
      invariant forall u :: u in t.users && u !in left && Eligible(t.users[u]) ==> exists i :: i in rows && rows[i].user == u
      decreases |left|
    {
      var u :| u in left;
      left := left - {u};
      if Eligible(t.users[u]) {
        var key := match t.users[u].binding case None => None case Some(b) => Some(b.key);
        assert InSnapshot(t, job, Item(job, u, key, Pending)) && next !in rows;
        ghost var before := rows;
        rows := rows[next := Item(job, u, key, Pending)];
        assert next in rows && rows[next].user == u && forall i :: i in before ==> i in rows && rows[i] == before[i];
        next := next + 1;
      }
    }
  }
}
