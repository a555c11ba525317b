/**
 The rows the batch quota reset works on and its store transactions: internal/store/quota_reset.go,
 with the writers of users and bindings in users.go and bindings.go.  Each transaction is one function:
 the store has a single connection, so they do not interleave.
 */
module ResetTables {
  import opened Options

  type JobId = nat
  type ItemId = nat
  type UserId = nat
  type KeyId = nat

  datatype JobStatus = Queued | Running | Completed
  datatype ItemStatus = Pending | InProgress | Succeeded | Failed | Unknown | Skipped

  datatype Counters = Counters(total: nat, pending: nat, running: nat, succeeded: nat, failed: nat, unknown: nat, skipped: nat)
  datatype Job = Job(status: JobStatus, counters: Counters)
  datatype Item = Item(job: JobId, user: UserId, key: Option<KeyId>, status: ItemStatus)

  datatype Binding = Binding(key: KeyId, missing: bool)
  datatype UserStatus = Active | Disabled | Deleted
  datatype User = User(admin: bool, status: UserStatus, binding: Option<Binding>)

  datatype Tables = Tables(jobs: map<JobId, Job>, items: map<ItemId, Item>, users: map<UserId, User>)

  datatype Error = NotFound | TransitionError | JobActive | KeyBound | IoError
  datatype Result<T> = Ok(value: T) | Err(error: Error)

  predicate Open(s: JobStatus) { s.Queued? || s.Running? }
  predicate Terminal(s: ItemStatus) { !s.Pending? && !s.InProgress? }

  predicate HasOpenJob(t: Tables) { exists j :: j in t.jobs && Open(t.jobs[j].status) }

  predicate Resettable(u: User) {
    !u.admin && (u.status.Active? || u.status.Disabled?) && u.binding.Some? && !u.binding.value.missing
  }

  predicate BoundTo(t: Tables, user: UserId, key: KeyId) {
    user in t.users && t.users[user].binding.Some? && t.users[user].binding.value.key == key
  }

  // ----- counters

  function ItemsOf(items: map<ItemId, Item>, job: JobId): set<ItemId> { set i | i in items && items[i].job == job }

  function WithStatus(items: map<ItemId, Item>, job: JobId, s: ItemStatus): set<ItemId> {
    set i | i in items && items[i].job == job && items[i].status == s
  }

  /** recomputeQuotaResetCounters: what the rows say. */
  function Tally(items: map<ItemId, Item>, job: JobId): Counters {
    Counters(|ItemsOf(items, job)|, |WithStatus(items, job, Pending)|, |WithStatus(items, job, InProgress)|,
             |WithStatus(items, job, Succeeded)|, |WithStatus(items, job, Failed)|, |WithStatus(items, job, Unknown)|,
             |WithStatus(items, job, Skipped)|)
  }

  function Recomputed(t: Tables, job: JobId): Tables
    requires job in t.jobs
  {
    t.(jobs := t.jobs[job := t.jobs[job].(counters := Tally(t.items, job))])
  }

  function Counted(c: Counters, s: ItemStatus): nat {
    match s
    case Pending => c.pending
    case InProgress => c.running
    case Succeeded => c.succeeded
    case Failed => c.failed
    case Unknown => c.unknown
    case Skipped => c.skipped
  }

  /** Stored counters equal the item tallies. */
  ghost predicate Matches(c: Counters, items: map<ItemId, Item>, job: JobId) {
    c.total == |ItemsOf(items, job)| && forall s :: Counted(c, s) == |WithStatus(items, job, s)|
  }

  lemma TallyMatches(items: map<ItemId, Item>, job: JobId)
    ensures Matches(Tally(items, job), items, job)
  {
  }

  lemma UnionOfSix(all: set<ItemId>, a: set<ItemId>, b: set<ItemId>, c: set<ItemId>, d: set<ItemId>, e: set<ItemId>, f: set<ItemId>)
    requires a + b + c + d + e + f == all
    requires a !! b !! c !! d !! e !! f
    ensures |a| + |b| + |c| + |d| + |e| + |f| == |all|
  {
    assert |a + b| == |a| + |b|;
    assert |a + b + c| == |a| + |b| + |c|;
    assert |a + b + c + d| == |a| + |b| + |c| + |d|;
    assert |a + b + c + d + e| == |a| + |b| + |c| + |d| + |e|;
  }

  lemma StatusesPartition(items: map<ItemId, Item>, job: JobId)
    ensures |WithStatus(items, job, Pending)| + |WithStatus(items, job, InProgress)| + |WithStatus(items, job, Succeeded)|
            + |WithStatus(items, job, Failed)| + |WithStatus(items, job, Unknown)| + |WithStatus(items, job, Skipped)| == |ItemsOf(items, job)|
  {
    UnionOfSix(ItemsOf(items, job), WithStatus(items, job, Pending), WithStatus(items, job, InProgress), WithStatus(items, job, Succeeded),
               WithStatus(items, job, Failed), WithStatus(items, job, Unknown), WithStatus(items, job, Skipped));
  }

  /** The six status counters of a job add up to its total. */
  lemma CountersAddUp(c: Counters, items: map<ItemId, Item>, job: JobId)
    requires Matches(c, items, job)
    ensures c.pending + c.running + c.succeeded + c.failed + c.unknown + c.skipped == c.total
  {
    StatusesPartition(items, job);
    assert Counted(c, Pending) == c.pending && Counted(c, InProgress) == c.running && Counted(c, Succeeded) == c.succeeded;
    assert Counted(c, Failed) == c.failed && Counted(c, Unknown) == c.unknown && Counted(c, Skipped) == c.skipped;
  }

  // ----- job and item transactions

  /** The rows INSERT ... SELECT adds: one pending item for every user that is not deleted and not an administrator. */
  predicate Snapshot(t: Tables, job: JobId, rows: map<ItemId, Item>) {
    && (forall i :: i in rows ==> i !in t.items && InSnapshot(t, job, rows[i]))
    && (forall i, k :: i in rows && k in rows && i != k ==> rows[i].user != rows[k].user)
    && (forall u :: u in t.users && Eligible(t.users[u]) ==> exists i :: i in rows && rows[i].user == u)
  }

  predicate Eligible(u: User) { !u.admin && !u.status.Deleted? }

  predicate InSnapshot(t: Tables, job: JobId, row: Item) {
    && row.user in t.users && Eligible(t.users[row.user])
    && row == Item(job, row.user, match t.users[row.user].binding case None => None case Some(b) => Some(b.key), Pending)
  }

  function CreatedJob(t: Tables, job: JobId, rows: map<ItemId, Item>): Tables {
    var total := |ItemsOf(t.items + rows, job)|;
    t.(jobs := t.jobs[job := Job(Queued, Counters(total, total, 0, 0, 0, 0, 0))], items := t.items + rows)
  }

  function MarkJobRunning(t: Tables, job: JobId): Result<Tables> {
    if job !in t.jobs then Err(NotFound)
    else if !t.jobs[job].status.Queued? then Err(TransitionError)
    else Ok(t.(jobs := t.jobs[job := t.jobs[job].(status := Running)]))
  }

  predicate JobRuns(t: Tables, job: JobId) { job in t.jobs && t.jobs[job].status.Running? }

  function SetItem(t: Tables, job: JobId, item: ItemId, s: ItemStatus): Tables
    requires item in t.items && job in t.jobs
  {
    Recomputed(t.(items := t.items[item := t.items[item].(status := s)]), job)
  }

  function ItemTransitionError(t: Tables, job: JobId, item: ItemId): Error {
    if item in t.items && t.items[item].job == job then TransitionError else NotFound
  }

  function MarkItemRunning(t: Tables, job: JobId, item: ItemId): Result<Tables> {
    if item in t.items && t.items[item].job == job && t.items[item].status.Pending? && JobRuns(t, job)
    then Ok(SetItem(t, job, item, InProgress)) else Err(ItemTransitionError(t, job, item))
  }

  function CompleteItem(t: Tables, job: JobId, item: ItemId, s: ItemStatus): Result<Tables> {
    if !Terminal(s) then Err(TransitionError)
    else if item in t.items && t.items[item].job == job && !Terminal(t.items[item].status) && JobRuns(t, job)
    then Ok(SetItem(t, job, item, s)) else Err(ItemTransitionError(t, job, item))
  }

  function Complete(t: Tables, job: JobId): Tables
    requires job in t.jobs
  {
    t.(jobs := t.jobs[job := t.jobs[job].(status := Completed)])
  }

  function FinishJob(t: Tables, job: JobId): Result<Tables> {
    if job !in t.jobs then Err(NotFound)
    else if !t.jobs[job].status.Running? then Err(TransitionError)
    else
      var next := Recomputed(t, job);
      var c := next.jobs[job].counters;
      if c.pending != 0 || c.running != 0 then Err(TransitionError) else Ok(Complete(next, job))
  }

  /** A job starts exactly from queued, and otherwise it is either missing or in the wrong state. */
  lemma JobStartsExactlyWhen(t: Tables, job: JobId)
    ensures MarkJobRunning(t, job).Ok? <==> job in t.jobs && t.jobs[job].status.Queued?
    ensures MarkJobRunning(t, job) == Err(NotFound) <==> job !in t.jobs
    ensures MarkJobRunning(t, job) == Err(TransitionError) <==> job in t.jobs && t.jobs[job].status in {Running, Completed}
    ensures MarkJobRunning(t, job).Ok? ==>
              var next := MarkJobRunning(t, job).value;
              && next.jobs[job].status.Running? && next.jobs[job].counters == t.jobs[job].counters && next.items == t.items && next.users == t.users
              && next.jobs.Keys == t.jobs.Keys && forall j :: j in t.jobs && j != job ==> next.jobs[j] == t.jobs[j]
  {
  }

  /** An item starts exactly if it is a pending item of that running job. */
  lemma ItemStartsExactlyWhen(t: Tables, job: JobId, item: ItemId)
    ensures MarkItemRunning(t, job, item).Ok? <==>
              && item in t.items && t.items[item].job == job && t.items[item].status.Pending?
              && job in t.jobs && t.jobs[job].status.Running?
    ensures MarkItemRunning(t, job, item).Ok? ==> ItemBecomes(t, MarkItemRunning(t, job, item).value, job, item, InProgress)
    ensures MarkItemRunning(t, job, item).Err? ==>
              MarkItemRunning(t, job, item).error == if item in t.items && t.items[item].job == job then TransitionError else NotFound
  {
    if MarkItemRunning(t, job, item).Ok? {
      TallyMatches(MarkItemRunning(t, job, item).value.items, job);
    }
  }

  /** And ends exactly with a terminal status, if it is a pending or running item of that running job. */
  lemma ItemEndsExactlyWhen(t: Tables, job: JobId, item: ItemId, s: ItemStatus)
    ensures CompleteItem(t, job, item, s).Ok? <==>
              && s in {Succeeded, Failed, Unknown, Skipped}
              && item in t.items && t.items[item].job == job && t.items[item].status in {Pending, InProgress}
              && job in t.jobs && t.jobs[job].status.Running?
    ensures CompleteItem(t, job, item, s).Ok? ==> ItemBecomes(t, CompleteItem(t, job, item, s).value, job, item, s)
    ensures CompleteItem(t, job, item, s) == Err(NotFound) <==>
              s in {Succeeded, Failed, Unknown, Skipped} && !(item in t.items && t.items[item].job == job)
  {
    if CompleteItem(t, job, item, s).Ok? {
      TallyMatches(CompleteItem(t, job, item, s).value.items, job);
    }
  }

  /** This item has this status, its job's counters are recounted, and no other row has changed. */
  ghost predicate ItemBecomes(t: Tables, next: Tables, job: JobId, item: ItemId, s: ItemStatus) {
    && item in t.items && job in t.jobs && next.users == t.users && next.items.Keys == t.items.Keys && next.jobs.Keys == t.jobs.Keys
    && next.items[item] == t.items[item].(status := s)
    && (forall i :: i in t.items && i != item ==> next.items[i] == t.items[i])
    && next.jobs[job].status == t.jobs[job].status && Matches(next.jobs[job].counters, next.items, job)
    && (forall j :: j in t.jobs && j != job ==> next.jobs[j] == t.jobs[j])
  }

  /** Every unfinished item of the job becomes unknown. */
  function GiveUpItems(items: map<ItemId, Item>, job: JobId): map<ItemId, Item> {
    map i | i in items :: if items[i].job == job && !Terminal(items[i].status) then items[i].(status := Unknown) else items[i]
  }

  /** abortQuotaResetJobTx: a completed job stays as it is. */
  function AbortJob(t: Tables, job: JobId): Result<Tables> {
    if job !in t.jobs then Err(NotFound)
    else if t.jobs[job].status.Completed? then Ok(t)
    else Ok(Complete(Recomputed(t.(items := GiveUpItems(t.items, job)), job), job))
  }

  /** RecoverInterruptedQuotaResetJobs: no job stays open. */
  predicate Recovered(before: Tables, after: Tables) {
    && after.users == before.users && after.jobs.Keys == before.jobs.Keys && after.items.Keys == before.items.Keys
    && (forall j :: j in before.jobs ==> after.jobs[j].status.Completed?)
    && (forall i :: i in before.items ==>
          after.items[i] == if before.items[i].job in before.jobs && Open(before.jobs[before.items[i].job].status) && !Terminal(before.items[i].status)
                            then before.items[i].(status := Unknown) else before.items[i])
    && (forall j :: j in before.jobs ==>
          after.jobs[j].counters == if Open(before.jobs[j].status) then Tally(after.items, j) else before.jobs[j].counters)
  }

  /** The call did what the transaction function says, or reported its error, or the database failed on the way. */
  predicate Follows(before: Tables, after: Tables, transaction: Result<Tables>, failure: Option<Error>) {
    match failure
    case None => transaction == Ok(after)
    case Some(IoError) => after == before || transaction == Ok(after)
    case Some(e) => after == before && transaction == Err(e)
  }

  // ----- writers of users and bindings

  datatype UserChange =
    | SetBinding(user: UserId, key: KeyId)
    | DeleteBinding(user: UserId)
    | CreateUser(user: UserId, key: KeyId)
    | DeleteUser(user: UserId)

  predicate KeyTaken(t: Tables, key: KeyId, owner: UserId) { exists u :: u in t.users && u != owner && BoundTo(t, u, key) }

  function ChangeUser(t: Tables, c: UserChange): Result<Tables> {
    match c
    case SetBinding(u, key) =>
      if u !in t.users || t.users[u].admin || t.users[u].status.Deleted? then Err(NotFound)
      else if KeyTaken(t, key, u) then Err(KeyBound)
      else Ok(t.(users := t.users[u := t.users[u].(binding := Some(Binding(key, false)))]))
    case DeleteBinding(u) =>
      if u !in t.users || t.users[u].binding.None? then Err(NotFound)
      else Ok(t.(users := t.users[u := t.users[u].(binding := None)]))
    case CreateUser(u, key) =>
      if u in t.users then Err(NotFound)  // the new identifier is never an old one
      else if KeyTaken(t, key, u) then Err(KeyBound)
      else Ok(t.(users := t.users[u := User(false, Active, Some(Binding(key, false)))]))
    case DeleteUser(u) =>
      if u !in t.users || t.users[u].admin || t.users[u].status.Deleted? then Err(NotFound)
      else Ok(t.(users := t.users[u := User(false, Deleted, None)]))
  }

  lemma UserIsUpdatedExactlyWhen(t: Tables, user: UserId, disabled: bool)
    ensures UpdateUser(t, user, disabled).Ok? <==> user in t.users && !t.users[user].admin && t.users[user].status in {Active, Disabled}
    ensures UpdateUser(t, user, disabled).Err? ==> UpdateUser(t, user, disabled).error == NotFound
  {
  }

  /** UpdateUser: active or disabled, without bindingMu. */
  function UpdateUser(t: Tables, user: UserId, disabled: bool): Result<Tables> {
    if user !in t.users || t.users[user].admin || t.users[user].status.Deleted? then Err(NotFound)
    else Ok(t.(users := t.users[user := t.users[user].(status := if disabled then Disabled else Active)]))
  }

  /** ApplyKeySnapshots, as far as it concerns resets: bindings whose key is no longer listed are missing. */
  function KeysListed(t: Tables, listed: set<KeyId>): Tables {
    t.(users := map u | u in t.users ::
      match t.users[u].binding
      case None => t.users[u]
      case Some(b) => t.users[u].(binding := Some(b.(missing := b.key !in listed))))
  }

  // ----- the invariant of the rows

  ghost predicate OneOpen(jobs: map<JobId, Job>) {
    forall j, k :: j in jobs && k in jobs && Open(jobs[j].status) && Open(jobs[k].status) ==> j == k
  }

  ghost predicate CountersRight(jobs: map<JobId, Job>, items: map<ItemId, Item>) {
    forall j :: j in jobs ==> Matches(jobs[j].counters, items, j)
  }

  /** A queued job has only pending items, a completed one only finished items. */
  predicate Fits(job: JobStatus, item: ItemStatus) {
    (job.Queued? ==> item.Pending?) && (job.Completed? ==> Terminal(item))
  }

  ghost predicate StatusesFit(jobs: map<JobId, Job>, items: map<ItemId, Item>) {
    forall i :: i in items ==> items[i].job in jobs && Fits(jobs[items[i].job].status, items[i].status)
  }

  /** Within a job no user and no key occurs twice. */
  ghost predicate DistinctItems(items: map<ItemId, Item>) {
    forall i, k :: i in items && k in items && i != k && items[i].job == items[k].job ==>
      items[i].user != items[k].user && (items[i].key.Some? ==> items[i].key != items[k].key)
  }

  /** No key is bound twice, and only users that can be reset have one. */
  ghost predicate UsersInv(users: map<UserId, User>) {
    && (forall u, v :: u in users && v in users && u != v && users[u].binding.Some? && users[v].binding.Some? ==>
          users[u].binding.value.key != users[v].binding.value.key)
    && (forall u :: u in users && users[u].binding.Some? ==> Eligible(users[u]))
  }

  ghost predicate TablesInv(t: Tables) {
    && OneOpen(t.jobs) && StatusesFit(t.jobs, t.items) && DistinctItems(t.items)
    && CountersRight(t.jobs, t.items) && UsersInv(t.users)
  }

  ghost predicate JobsAdvance(before: map<JobId, Job>, after: map<JobId, Job>) {
    forall j :: j in before ==> j in after && Rank(before[j].status) <= Rank(after[j].status) && after[j].counters.total == before[j].counters.total
  }

  ghost predicate ItemsAdvance(before: map<ItemId, Item>, after: map<ItemId, Item>) {
    forall i :: i in before ==> i in after && after[i] == before[i].(status := after[i].status) &&
                                ItemRank(before[i].status) <= ItemRank(after[i].status) &&
                                (Terminal(before[i].status) ==> after[i] == before[i])
  }

  /** Jobs and items never disappear, their statuses only move forward, totals and terminal items never change. */
  ghost predicate Advances(before: Tables, after: Tables) {
    JobsAdvance(before.jobs, after.jobs) && ItemsAdvance(before.items, after.items)
  }

  function ItemRank(s: ItemStatus): nat { match s case Pending => 0 case InProgress => 1 case _ => 2 }

  function Rank(s: JobStatus): nat { match s case Queued => 0 case Running => 1 case Completed => 2 }

  // ----- every transaction keeps it

  lemma OtherJobsMatch(c: Counters, items: map<ItemId, Item>, other: map<ItemId, Item>, job: JobId)
    requires Matches(c, items, job)
    requires forall i :: i in items && items[i].job == job ==> i in other && other[i] == items[i]
    requires forall i :: i in other && other[i].job == job ==> i in items && other[i] == items[i]
    ensures Matches(c, other, job)
  {
    assert ItemsOf(items, job) == ItemsOf(other, job);
    forall s
      ensures Counted(c, s) == |WithStatus(other, job, s)|
    {
      assert WithStatus(items, job, s) == WithStatus(other, job, s);
    }
  }

  lemma TotalStays(c: Counters, items: map<ItemId, Item>, other: map<ItemId, Item>, job: JobId)
    requires Matches(c, items, job)
    requires items.Keys == other.Keys && forall i :: i in items ==> items[i].job == other[i].job
    ensures |ItemsOf(other, job)| == c.total
  {
    assert ItemsOf(items, job) == ItemsOf(other, job);
  }

  lemma SameItemsStayDistinct(items: map<ItemId, Item>, other: map<ItemId, Item>)
    requires DistinctItems(items) && items.Keys == other.Keys
    requires forall i :: i in items ==> other[i] == items[i].(status := other[i].status)
    ensures DistinctItems(other)
  {
  }

  lemma NewRowsAreDistinct(t: Tables, job: JobId, rows: map<ItemId, Item>)
    requires StatusesFit(t.jobs, t.items) && DistinctItems(t.items) && UsersInv(t.users) && job !in t.jobs && Snapshot(t, job, rows)
    ensures DistinctItems(t.items + rows)
  {
    forall i, k | i in rows && k in rows && i != k
      ensures rows[i].user != rows[k].user && (rows[i].key.Some? ==> rows[i].key != rows[k].key)
    {
      assert InSnapshot(t, job, rows[i]) && InSnapshot(t, job, rows[k]);
    }
  }

  lemma NewRowsFit(t: Tables, job: JobId, rows: map<ItemId, Item>, jobs: map<JobId, Job>)
    requires OneOpen(t.jobs) && StatusesFit(t.jobs, t.items) && !HasOpenJob(t) && job !in t.jobs && Snapshot(t, job, rows)
    requires job in jobs && jobs == t.jobs[job := jobs[job]] && jobs[job].status.Queued?
    ensures OneOpen(jobs) && StatusesFit(jobs, t.items + rows) && ItemsAdvance(t.items, t.items + rows) && JobsAdvance(t.jobs, jobs)
  {
  }

  lemma NewCountersMatch(c: Counters, items: map<ItemId, Item>, job: JobId)
    requires forall i :: i in items && items[i].job == job ==> items[i].status.Pending?
    requires c == Counters(|ItemsOf(items, job)|, |ItemsOf(items, job)|, 0, 0, 0, 0, 0)
    ensures Matches(c, items, job)
  {
    forall s
      ensures Counted(c, s) == |WithStatus(items, job, s)|
    {
      assert WithStatus(items, job, s) == if s.Pending? then ItemsOf(items, job) else {};
    }
  }

  lemma NewRowsCount(t: Tables, job: JobId, rows: map<ItemId, Item>, jobs: map<JobId, Job>)
    requires CountersRight(t.jobs, t.items) && job !in t.jobs && Snapshot(t, job, rows)
    requires job in jobs && jobs == t.jobs[job := jobs[job]] && Matches(jobs[job].counters, t.items + rows, job)
    ensures CountersRight(jobs, t.items + rows)
  {
    forall j | j in t.jobs
      ensures Matches(jobs[j].counters, t.items + rows, j)
    {
      OtherJobsMatch(t.jobs[j].counters, t.items, t.items + rows, j);
    }
  }

  lemma CreatedJobIsSound(t: Tables, job: JobId, rows: map<ItemId, Item>)
    requires TablesInv(t) && !HasOpenJob(t) && job !in t.jobs && Snapshot(t, job, rows)
    ensures TablesInv(CreatedJob(t, job, rows)) && Advances(t, CreatedJob(t, job, rows))
  {
    var next := CreatedJob(t, job, rows);
    NewCountersMatch(next.jobs[job].counters, next.items, job);
    NewRowsCount(t, job, rows, next.jobs);
    NewRowsFit(t, job, rows, next.jobs);
    NewRowsAreDistinct(t, job, rows);
  }

  /** A new job is queued, with exactly one pending item for every user who is neither deleted nor an administrator, and with the
      key bound then; its total is their number. */
  lemma CreatedJobCovers(t: Tables, job: JobId, rows: map<ItemId, Item>)
    requires TablesInv(t) && job !in t.jobs && Snapshot(t, job, rows)
    ensures var next := CreatedJob(t, job, rows);
            job in next.jobs && next.jobs[job].status.Queued? && next.users == t.users && next.jobs[job].counters.total == |ItemsOf(next.items, job)|
    ensures forall u :: u in t.users && !t.users[u].admin && t.users[u].status in {Active, Disabled} ==>
              exists i :: HasItem(CreatedJob(t, job, rows).items, job, i, u)
    ensures forall i :: i in CreatedJob(t, job, rows).items && CreatedJob(t, job, rows).items[i].job == job ==>
              var item := CreatedJob(t, job, rows).items[i];
              && item.status.Pending? && item.user in t.users
              && !t.users[item.user].admin && t.users[item.user].status in {Active, Disabled}
              && (item.key.Some? <==> t.users[item.user].binding.Some?)
              && (item.key.Some? ==> item.key.value == t.users[item.user].binding.value.key)
  {
    forall u | u in t.users && !t.users[u].admin && t.users[u].status in {Active, Disabled}
      ensures exists i :: HasItem(CreatedJob(t, job, rows).items, job, i, u)
    {
      assert Eligible(t.users[u]);
      var i :| i in rows && rows[i].user == u;
      assert InSnapshot(t, job, rows[i]);
      assert HasItem(CreatedJob(t, job, rows).items, job, i, u);
    }
    forall i | i in CreatedJob(t, job, rows).items && CreatedJob(t, job, rows).items[i].job == job
      ensures i in rows && InSnapshot(t, job, rows[i])
    {
    }
  }

  ghost predicate HasItem(items: map<ItemId, Item>, job: JobId, i: ItemId, user: UserId) {
    i in items && items[i].job == job && items[i].user == user
  }

  /** Some unfinished items of one job change their status, its counters are recounted and its own status moves on. */
  ghost predicate JobRewritten(t: Tables, next: Tables, job: JobId) {
    && job in t.jobs && job in next.jobs && next.jobs == t.jobs[job := next.jobs[job]] && next.users == t.users
    && next.items.Keys == t.items.Keys
    && (forall i :: i in t.items ==> next.items[i] == t.items[i].(status := next.items[i].status) &&
                                     ItemRank(t.items[i].status) <= ItemRank(next.items[i].status))
    && (forall i :: i in t.items && (t.items[i].job != job || Terminal(t.items[i].status)) ==> next.items[i] == t.items[i])
    && (forall i :: i in t.items && t.items[i].job == job ==> Fits(next.jobs[job].status, next.items[i].status))
    && Rank(t.jobs[job].status) <= Rank(next.jobs[job].status)
    && Matches(next.jobs[job].counters, next.items, job)
  }

  lemma RewrittenCountersAreRight(t: Tables, next: Tables, job: JobId)
    requires TablesInv(t) && JobRewritten(t, next, job)
    ensures CountersRight(next.jobs, next.items) && JobsAdvance(t.jobs, next.jobs)
  {
    TotalStays(t.jobs[job].counters, t.items, next.items, job);
    forall j | j in t.jobs && j != job
      ensures Matches(next.jobs[j].counters, next.items, j)
    {
      OtherJobsMatch(t.jobs[j].counters, t.items, next.items, j);
    }
  }

  lemma RewrittenRowsFit(t: Tables, next: Tables, job: JobId)
    requires StatusesFit(t.jobs, t.items) && OneOpen(t.jobs) && JobRewritten(t, next, job)
    ensures OneOpen(next.jobs) && StatusesFit(next.jobs, next.items) && ItemsAdvance(t.items, next.items)
  {
  }

  lemma RewrittenIsSound(t: Tables, next: Tables, job: JobId)
    requires TablesInv(t) && JobRewritten(t, next, job)
    ensures TablesInv(next) && Advances(t, next)
  {
    RewrittenCountersAreRight(t, next, job);
    RewrittenRowsFit(t, next, job);
    SameItemsStayDistinct(t.items, next.items);
  }

  lemma SetItemRewrites(t: Tables, job: JobId, item: ItemId, s: ItemStatus)
    requires JobRuns(t, job) && item in t.items && t.items[item].job == job && !Terminal(t.items[item].status)
    requires StatusesFit(t.jobs, t.items) && ItemRank(t.items[item].status) <= ItemRank(s)
    ensures JobRewritten(t, SetItem(t, job, item, s), job)
  {
    TallyMatches(SetItem(t, job, item, s).items, job);
  }

  /** One unfinished item of a running job changes its status. */
  lemma SetItemIsSound(t: Tables, job: JobId, item: ItemId, s: ItemStatus)
    requires TablesInv(t) && JobRuns(t, job) && item in t.items && t.items[item].job == job && !Terminal(t.items[item].status)
    requires ItemRank(t.items[item].status) <= ItemRank(s)
    ensures TablesInv(SetItem(t, job, item, s)) && Advances(t, SetItem(t, job, item, s))
    ensures SetItem(t, job, item, s).items[item].status == s
    ensures forall i :: i in t.items && i != item ==> SetItem(t, job, item, s).items[i] == t.items[i]
  {
    SetItemRewrites(t, job, item, s);
    RewrittenIsSound(t, SetItem(t, job, item, s), job);
  }

  lemma NothingLeft(c: Counters, items: map<ItemId, Item>, job: JobId)
    requires Matches(c, items, job)
    ensures (c.pending == 0 && c.running == 0) <==> forall i :: i in items && items[i].job == job ==> Terminal(items[i].status)
  {
    assert Counted(c, Pending) == |WithStatus(items, job, Pending)| && Counted(c, InProgress) == |WithStatus(items, job, InProgress)|;
    forall i | i in items && items[i].job == job && !Terminal(items[i].status)
      ensures c.pending != 0 || c.running != 0
    {
      assert i in WithStatus(items, job, items[i].status);
    }
    if c.pending != 0 {
      var i :| i in WithStatus(items, job, Pending);
    } else if c.running != 0 {
      var i :| i in WithStatus(items, job, InProgress);
    }
  }

  /** FinishQuotaResetJob succeeds exactly on a running job with no unfinished item. */
  lemma FinishJobSucceedsWhenDrained(t: Tables, job: JobId)
    ensures FinishJob(t, job).Ok? <==> JobRuns(t, job) && forall i :: i in t.items && t.items[i].job == job ==> Terminal(t.items[i].status)
  {
    TallyMatches(t.items, job);
    NothingLeft(Tally(t.items, job), t.items, job);
  }

  lemma FinishJobIsSound(t: Tables, job: JobId)
    requires TablesInv(t) && FinishJob(t, job).Ok?
    ensures TablesInv(FinishJob(t, job).value) && Advances(t, FinishJob(t, job).value)
    ensures FinishJob(t, job).value.jobs[job].status.Completed? && FinishJob(t, job).value.items == t.items
  {
    FinishJobSucceedsWhenDrained(t, job);
    TallyMatches(t.items, job);
    RewrittenIsSound(t, FinishJob(t, job).value, job);
  }

  lemma AbortRewrites(t: Tables, job: JobId)
    requires job in t.jobs && Open(t.jobs[job].status)
    ensures JobRewritten(t, AbortJob(t, job).value, job)
  {
    TallyMatches(GiveUpItems(t.items, job), job);
  }

  lemma AbortJobIsSound(t: Tables, job: JobId)
    requires TablesInv(t) && job in t.jobs
    ensures TablesInv(AbortJob(t, job).value) && Advances(t, AbortJob(t, job).value)
  {
    if Open(t.jobs[job].status) {
      AbortRewrites(t, job);
      RewrittenIsSound(t, AbortJob(t, job).value, job);
    }
  }

  /** An aborted job is completed, its unfinished items are unknown, and no other item or job has changed. */
  lemma AbortGivesUp(t: Tables, job: JobId)
    requires job in t.jobs && StatusesFit(t.jobs, t.items)
    ensures AbortJob(t, job).Ok?
    ensures var next := AbortJob(t, job).value;
            && next.jobs[job].status.Completed? && next.users == t.users && next.items.Keys == t.items.Keys && next.jobs.Keys == t.jobs.Keys
            && (forall i :: i in t.items && t.items[i].job == job && t.items[i].status in {Pending, InProgress} ==> next.items[i].status.Unknown?)
            && (forall i :: i in t.items && (t.items[i].job != job || t.items[i].status !in {Pending, InProgress}) ==> next.items[i] == t.items[i])
            && (forall j :: j in t.jobs && j != job ==> next.jobs[j] == t.jobs[j])
  {
  }

  lemma MarkJobRunningIsSound(t: Tables, job: JobId)
    requires TablesInv(t) && MarkJobRunning(t, job).Ok?
    ensures TablesInv(MarkJobRunning(t, job).value) && Advances(t, MarkJobRunning(t, job).value)
    ensures t.jobs[job].status.Queued? && MarkJobRunning(t, job).value.jobs[job].status.Running?
  {
  }

  /** Writers of users and bindings never give one key to two users, and leave jobs and items alone. */
  lemma ChangeUserIsSound(t: Tables, c: UserChange)
    requires TablesInv(t) && ChangeUser(t, c).Ok?
    ensures UsersInv(ChangeUser(t, c).value.users) && ChangeUser(t, c).value == t.(users := ChangeUser(t, c).value.users)
  {
    if c.SetBinding? || c.CreateUser? {
      assert forall u :: u in t.users && u != c.user ==> !BoundTo(t, u, c.key);
    }
  }

  /** A change of one user leaves the rows of all others alone. */
  ghost predicate OthersStay(t: Tables, next: Tables, user: UserId) {
    && next.jobs == t.jobs && next.items == t.items && next.users.Keys == t.users.Keys + {user}
    && forall u :: u in t.users && u != user ==> next.users[u] == t.users[u]
  }

  /** No other user is bound to the key. */
  ghost predicate KeyFree(t: Tables, key: KeyId, user: UserId) {
    forall u :: u in t.users && u != user && t.users[u].binding.Some? ==> t.users[u].binding.value.key != key
  }

  /** A binding is set exactly for an active or disabled user, no administrator, and a key nobody else has; it is then
      bound to that key, which counts as listed, and its status stays. */
  lemma BindingIsSet(t: Tables, user: UserId, key: KeyId)
    ensures ChangeUser(t, SetBinding(user, key)).Ok? <==>
              user in t.users && !t.users[user].admin && t.users[user].status in {Active, Disabled} && KeyFree(t, key, user)
    ensures ChangeUser(t, SetBinding(user, key)).Ok? ==>
              var next := ChangeUser(t, SetBinding(user, key)).value;
              && OthersStay(t, next, user) && next.users[user].admin == t.users[user].admin && next.users[user].status == t.users[user].status
              && next.users[user].binding.Some? && next.users[user].binding.value.key == key && !next.users[user].binding.value.missing
  {
    KeyIsFree(t, key, user);
  }

  lemma KeyIsFree(t: Tables, key: KeyId, user: UserId)
    ensures KeyTaken(t, key, user) <==> !KeyFree(t, key, user)
  {
    forall u | u in t.users && u != user
      ensures BoundTo(t, u, key) <==> t.users[u].binding.Some? && t.users[u].binding.value.key == key
    {
    }
  }

  lemma BindingIsDeleted(t: Tables, user: UserId)
    ensures ChangeUser(t, DeleteBinding(user)).Ok? <==> user in t.users && t.users[user].binding.Some?
    ensures ChangeUser(t, DeleteBinding(user)).Ok? ==>
              var next := ChangeUser(t, DeleteBinding(user)).value;
              && OthersStay(t, next, user) && next.users[user].admin == t.users[user].admin && next.users[user].status == t.users[user].status
              && next.users[user].binding.None?
  {
  }

  lemma UserIsCreated(t: Tables, user: UserId, key: KeyId)
    ensures ChangeUser(t, CreateUser(user, key)).Ok? <==> user !in t.users && KeyFree(t, key, user)
    ensures ChangeUser(t, CreateUser(user, key)).Ok? ==>
              var next := ChangeUser(t, CreateUser(user, key)).value;
              && OthersStay(t, next, user) && !next.users[user].admin && next.users[user].status.Active?
              && next.users[user].binding.Some? && next.users[user].binding.value.key == key && !next.users[user].binding.value.missing
  {
    KeyIsFree(t, key, user);
  }

  lemma UserIsDeleted(t: Tables, user: UserId)
    ensures ChangeUser(t, DeleteUser(user)).Ok? <==> user in t.users && !t.users[user].admin && t.users[user].status in {Active, Disabled}
    ensures ChangeUser(t, DeleteUser(user)).Ok? ==>
              var next := ChangeUser(t, DeleteUser(user)).value;
              OthersStay(t, next, user) && next.users[user].status.Deleted? && next.users[user].binding.None?
  {
  }

  lemma UpdateUserIsSound(t: Tables, user: UserId, disabled: bool)
    requires TablesInv(t) && UpdateUser(t, user, disabled).Ok?
    ensures UsersInv(UpdateUser(t, user, disabled).value.users)
    ensures user in t.users && UpdateUser(t, user, disabled).value.users.Keys == t.users.Keys
    ensures UpdateUser(t, user, disabled).value.users[user].status == if disabled then Disabled else Active
    ensures UpdateUser(t, user, disabled).value.users[user].admin == t.users[user].admin
    ensures forall u :: u in t.users && u != user ==> UpdateUser(t, user, disabled).value.users[u] == t.users[u]
    ensures UpdateUser(t, user, disabled).value == t.(users := UpdateUser(t, user, disabled).value.users)
    ensures forall u, k :: BoundTo(UpdateUser(t, user, disabled).value, u, k) <==> BoundTo(t, u, k)
  {
  }

  lemma KeysListedIsSound(t: Tables, listed: set<KeyId>)
    requires TablesInv(t)
    ensures UsersInv(KeysListed(t, listed).users)
    // a bound key is missing from then on exactly if it was not listed
    ensures KeysListed(t, listed) == t.(users := KeysListed(t, listed).users) && KeysListed(t, listed).users.Keys == t.users.Keys
    ensures forall u :: u in t.users ==>
              var was, now := t.users[u], KeysListed(t, listed).users[u];
              && now.admin == was.admin && now.status == was.status && (now.binding.Some? <==> was.binding.Some?)
              && (was.binding.Some? ==> now.binding.value.key == was.binding.value.key &&
                                        (now.binding.value.missing <==> was.binding.value.key !in listed))
    ensures forall u, k :: BoundTo(KeysListed(t, listed), u, k) <==> BoundTo(t, u, k)
  {
  }

  lemma RecoveredStatusesFit(t: Tables, next: Tables)
    requires StatusesFit(t.jobs, t.items) && Recovered(t, next)
    ensures OneOpen(next.jobs) && StatusesFit(next.jobs, next.items)
  {
    forall i | i in next.items
      ensures next.items[i].job in next.jobs && Fits(next.jobs[next.items[i].job].status, next.items[i].status)
    {
      assert i in t.items;
    }
  }

  lemma RecoveredItemsAdvance(t: Tables, next: Tables)
    requires Recovered(t, next)
    ensures ItemsAdvance(t.items, next.items)
  {
  }

  lemma RecoveredIsSound(t: Tables, next: Tables)
    requires TablesInv(t) && Recovered(t, next)
    ensures TablesInv(next) && Advances(t, next) && !HasOpenJob(next)
  {
    RecoveredStatusesFit(t, next);
    RecoveredItemsAdvance(t, next);
    SameItemsStayDistinct(t.items, next.items);
    forall j | j in t.jobs
      ensures Matches(next.jobs[j].counters, next.items, j) && next.jobs[j].counters.total == t.jobs[j].counters.total
    {
      TotalStays(t.jobs[j].counters, t.items, next.items, j);
      if Open(t.jobs[j].status) {
        TallyMatches(next.items, j);
      } else {
        OtherJobsMatch(t.jobs[j].counters, t.items, next.items, j);
      }
    }
  }
}
