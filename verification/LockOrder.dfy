/**
 Deadlock freedom of the portal's locks.  A thread is what is left of its program; With takes a lock around
 a body, Await waits for another goroutine to end (a singleflight call, or the workers of a batch).  A lock
 is a Go mutex, a Go RWMutex whose announced writer keeps new readers out, or the four-slot limit of the
 sync manager.  The programs are those of the handlers, workers, sync flights and the settings rotation.
 */
module LockOrder {
  type ThreadId = nat

  datatype Lock =
    | SettingsMu | MaintenanceMu | ReleaseMu | BindingMu | LimitSlot | ConnectionMu | KeySnapshotMu | CacheMu | QuotaResetMu
    | Connection  // the store's only database connection

  datatype Mode = Read | Write

  datatype Code =
    | Skip
    | Work  // anything that ends by itself: computing, an upstream call with its timeout, a statement
    | Seq(first: Code, second: Code)
    | Choice(left: Code, right: Code)
    | Repeat(body: Code)
    | With(lock: Lock, mode: Mode, inside: Code)
    | AwaitFlight(target: ThreadId)
    | AwaitWorker(target: ThreadId)

  /** What a thread still has to do; Unlock(l, ...) means that it holds l. */
  datatype Stack = Done | Then(code: Code, rest: Stack) | Unlock(lock: Lock, mode: Mode, below: Stack)

  datatype System = System(threads: map<ThreadId, Stack>, announced: set<ThreadId>, level: map<ThreadId, int>)

  // ----- the order

  // What a thread of a kind waits for ranks above its level; those who await it hold nothing as high.
  const HANDLER: int := -1
  const WORKER: int := 0
  const FLIGHT: int := 5
  const TOP: int := 12

  function Rank(l: Lock): int {
    match l
    case SettingsMu => 1
    case MaintenanceMu => 2
    case ReleaseMu => 3
    case BindingMu => 4
    case LimitSlot => 6
    case ConnectionMu => 7
    case KeySnapshotMu => 8
    case CacheMu => 9
    case QuotaResetMu => 10
    case Connection => 11
  }

  function Min(a: int, b: int): int { if a <= b then a else b }

  /** The lowest rank the code ever waits for while it holds no lock of its own. */
  function Lowest(code: Code): int {
    match code
    case Skip => TOP
    case Work => TOP
    case Seq(a, b) => Min(Lowest(a), Lowest(b))
    case Choice(a, b) => Min(Lowest(a), Lowest(b))
    case Repeat(body) => Lowest(body)
    case With(l, _, _) => Rank(l)
    case AwaitFlight(_) => FLIGHT
    case AwaitWorker(_) => WORKER
  }

  /** Under each lock the code only waits for what ranks higher. */
  predicate Nested(code: Code) {
    match code
    case Seq(a, b) => Nested(a) && Nested(b)
    case Choice(a, b) => Nested(a) && Nested(b)
    case Repeat(body) => Nested(body)
    case With(l, _, inside) => Rank(l) < Lowest(inside) && Nested(inside)
    case _ => true
  }

  /** The locks the code may take, and for what. */
  function Takes(code: Code): set<(Lock, Mode)> {
    match code
    case Seq(a, b) => Takes(a) + Takes(b)
    case Choice(a, b) => Takes(a) + Takes(b)
    case Repeat(body) => Takes(body)
    case With(l, mode, inside) => {(l, mode)} + Takes(inside)
    case _ => {}
  }

  /** The goroutines the code may await. */
  function Flights(code: Code): set<ThreadId> {
    match code
    case Seq(a, b) => Flights(a) + Flights(b)
    case Choice(a, b) => Flights(a) + Flights(b)
    case Repeat(body) => Flights(body)
    case With(_, _, inside) => Flights(inside)
    case AwaitFlight(t) => {t}
    case _ => {}
  }

  function Workers(code: Code): set<ThreadId> {
    match code
    case Seq(a, b) => Workers(a) + Workers(b)
    case Choice(a, b) => Workers(a) + Workers(b)
    case Repeat(body) => Workers(body)
    case With(_, _, inside) => Workers(inside)
    case AwaitWorker(t) => {t}
    case _ => {}
  }

  predicate AreFlights(ts: set<ThreadId>, level: map<ThreadId, int>) { forall t :: t in ts ==> t in level && level[t] == FLIGHT }
  predicate AreWorkers(ts: set<ThreadId>, level: map<ThreadId, int>) { forall t :: t in ts ==> t in level && level[t] == WORKER }

  /** Whatever this code waits for while `floor` is held ranks above it. */
  predicate Ordered(code: Code, floor: int, level: map<ThreadId, int>) {
    Nested(code) && floor < Lowest(code) && AreFlights(Flights(code), level) && AreWorkers(Workers(code), level)
  }

  /** The highest rank a thread holds, or its level. */
  function Floor(stack: Stack, level: int): int {
    match stack
    case Done => level
    case Then(_, rest) => Floor(rest, level)
    case Unlock(l, _, _) => Rank(l)
  }

  predicate StackOrdered(stack: Stack, own: int, level: map<ThreadId, int>) {
    match stack
    case Done => true
    case Then(code, rest) => Ordered(code, Floor(rest, own), level) && StackOrdered(rest, own, level)
    case Unlock(l, _, rest) => Floor(rest, own) < Rank(l) && StackOrdered(rest, own, level)
  }

  predicate HoldsIn(stack: Stack, l: Lock, mode: Mode) {
    match stack
    case Done => false
    case Then(_, rest) => HoldsIn(rest, l, mode)
    case Unlock(k, m, rest) => (k == l && m == mode) || HoldsIn(rest, l, mode)
  }

  // ----- steps

  predicate Holds(s: System, t: ThreadId, l: Lock, mode: Mode) { t in s.threads && HoldsIn(s.threads[t], l, mode) }
  predicate HoldsAny(s: System, t: ThreadId, l: Lock) { Holds(s, t, l, Read) || Holds(s, t, l, Write) }

  function Holders(s: System, l: Lock): set<ThreadId> { set t | t in s.threads && HoldsAny(s, t, l) }

  /** The next thing a thread does is to take this lock. */
  predicate Wants(s: System, t: ThreadId, l: Lock, mode: Mode) {
    t in s.threads && s.threads[t].Then? && s.threads[t].code.With? && s.threads[t].code.lock == l && s.threads[t].code.mode == mode
  }

  function Capacity(l: Lock): nat { if l.LimitSlot? then 4 else 1 }

  predicate WriterWaits(s: System, l: Lock) { exists w :: w in s.announced && Wants(s, w, l, Write) }

  predicate Available(s: System, t: ThreadId, l: Lock, mode: Mode) {
    match mode
    case Write => |Holders(s, l)| < Capacity(l)
    case Read => !WriterWaits(s, l) && forall u :: u in s.threads ==> !Holds(s, u, l, Write)
  }

  predicate CanMove(s: System, t: ThreadId) {
    t in s.threads &&
    match s.threads[t]
    case Done => false
    case Unlock(_, _, _) => true
    case Then(code, _) =>
      match code
      case With(l, mode, _) => (mode.Write? && t !in s.announced) || Available(s, t, l, mode)
      case AwaitFlight(u) => u in s.threads && s.threads[u].Done?
      case AwaitWorker(u) => u in s.threads && s.threads[u].Done?
      case _ => true
  }

  /** A thread's step; `pick` resolves a choice. */
  function Step(s: System, t: ThreadId, pick: bool): System
    requires CanMove(s, t)
  {
    match s.threads[t]
    case Unlock(_, _, rest) => s.(threads := s.threads[t := rest])
    case Then(code, rest) =>
      match code
      case Seq(a, b) => s.(threads := s.threads[t := Then(a, Then(b, rest))])
      case Choice(a, b) => s.(threads := s.threads[t := Then(if pick then a else b, rest)])
      case Repeat(body) => s.(threads := s.threads[t := if pick then Then(body, Then(code, rest)) else rest])
      case With(l, mode, inside) =>
        if mode.Write? && t !in s.announced then s.(announced := s.announced + {t})
        else s.(threads := s.threads[t := Then(inside, Unlock(l, mode, rest))], announced := s.announced - {t})
      case _ => s.(threads := s.threads[t := rest])
  }

  // ----- the invariant

  /** Every thread respects the order, and nobody awaits a thread that may wait for something of no higher rank. */
  predicate Fits(s: System) {
    && s.threads.Keys == s.level.Keys
    && forall t :: t in s.threads ==> StackOrdered(s.threads[t], s.level[t], s.level)
  }

  lemma StepKeepsFit(s: System, t: ThreadId, pick: bool)
    requires Fits(s) && CanMove(s, t)
    ensures Fits(Step(s, t, pick))
  {
    assert StackOrdered(s.threads[t], s.level[t], s.level);
  }

  lemma {:induction false} HeldIsBelowFloor(stack: Stack, l: Lock, mode: Mode, own: int, level: map<ThreadId, int>)
    requires StackOrdered(stack, own, level) && HoldsIn(stack, l, mode)
    ensures Rank(l) <= Floor(stack, own)
  {
    match stack
    case Then(_, rest) => HeldIsBelowFloor(rest, l, mode, own, level);
    case Unlock(k, m, rest) =>
      if HoldsIn(rest, l, mode) {
        HeldIsBelowFloor(rest, l, mode, own, level);
      }
  }

  lemma {:induction false} LevelIsBelowFloor(stack: Stack, own: int, level: map<ThreadId, int>)
    requires StackOrdered(stack, own, level)
    ensures own <= Floor(stack, own)
  {
    match stack
    case Done =>
    case Then(_, rest) => LevelIsBelowFloor(rest, own, level);
    case Unlock(_, _, rest) => LevelIsBelowFloor(rest, own, level);
  }

  // ----- progress

  /** The rank of what a thread that cannot move waits for. */
  function WaitsFor(s: System, t: ThreadId): int
    requires Fits(s) && t in s.threads
  {
    match s.threads[t]
    case Then(With(l, _, _), _) => Rank(l)
    case Then(AwaitFlight(_), _) => FLIGHT
    case Then(AwaitWorker(_), _) => WORKER
    case _ => TOP
  }

  predicate Stuck(s: System, t: ThreadId) { t in s.threads && !s.threads[t].Done? && !CanMove(s, t) }

  lemma StuckThreadWaits(s: System, t: ThreadId)
    requires Fits(s) && Stuck(s, t)
    ensures Floor(s.threads[t], s.level[t]) < WaitsFor(s, t) < TOP
  {
    assert StackOrdered(s.threads[t], s.level[t], s.level);
  }

  /** Thread `t` cannot go on before `u` has: it awaits it, wants a lock it holds, or lets it write first. */
  predicate WaitsOn(s: System, t: ThreadId, u: ThreadId) {
    && t in s.threads && u in s.threads && s.threads[t].Then?
    && match s.threads[t].code
       case AwaitFlight(target) => target == u
       case AwaitWorker(target) => target == u
       case With(l, mode, _) => HoldsAny(s, u, l) || (mode.Read? && u in s.announced && Wants(s, u, l, Write))
       case _ => false
  }

  predicate WantsToRead(s: System, t: ThreadId) {
    t in s.threads && s.threads[t].Then? && s.threads[t].code.With? && s.threads[t].code.mode.Read?
  }

  /** Whom a stuck thread waits on can move, or is stuck on something of higher rank, or is a writer in front of a reader. */
  lemma {:induction false} SomeoneBlocks(s: System, t: ThreadId) returns (u: ThreadId)
    requires Fits(s) && Stuck(s, t)
    ensures WaitsOn(s, t, u)
    ensures CanMove(s, u) || (Stuck(s, u) && (WaitsFor(s, t) < WaitsFor(s, u) ||
                                              (WaitsFor(s, t) == WaitsFor(s, u) && WantsToRead(s, t) && !WantsToRead(s, u))))
  {
    StuckThreadWaits(s, t);
    var code := s.threads[t].code;
    if code.AwaitFlight? || code.AwaitWorker? {
      u := code.target;
      if Stuck(s, u) {
        StuckThreadWaits(s, u);
        LevelIsBelowFloor(s.threads[u], s.level[u], s.level);
      }
    } else if code.mode.Read? && WriterWaits(s, code.lock) {
      u :| u in s.announced && Wants(s, u, code.lock, Write);
    } else if code.mode.Read? {
      u :| u in s.threads && Holds(s, u, code.lock, Write);
      HolderMovesOrWaitsHigher(s, u, code.lock);
    } else {
      u := HolderOf(s, code.lock);
      HolderMovesOrWaitsHigher(s, u, code.lock);
    }
  }

  lemma {:induction false} HolderOf(s: System, l: Lock) returns (u: ThreadId)
    requires |Holders(s, l)| >= Capacity(l)
    ensures u in s.threads && HoldsAny(s, u, l)
  {
    u :| u in Holders(s, l);
  }

  lemma HolderMovesOrWaitsHigher(s: System, u: ThreadId, l: Lock)
    requires Fits(s) && u in s.threads && HoldsAny(s, u, l)
    ensures CanMove(s, u) || (Stuck(s, u) && Rank(l) < WaitsFor(s, u))
  {
    var mode := if Holds(s, u, l, Read) then Read else Write;
    HeldIsBelowFloor(s.threads[u], l, mode, s.level[u], s.level);
    if Stuck(s, u) {
      StuckThreadWaits(s, u);
    }
  }

  /** From a waiting thread along whom each waits on. */
  ghost predicate Chain(s: System, path: seq<ThreadId>) {
    |path| > 0 && forall i :: 0 <= i < |path| - 1 ==> WaitsOn(s, path[i], path[i + 1])
  }

  lemma {:induction false} FollowTheBlockers(s: System, t: ThreadId) returns (path: seq<ThreadId>)
    requires Fits(s) && Stuck(s, t)
    ensures Chain(s, path) && path[0] == t && CanMove(s, path[|path| - 1])
    decreases TOP - WaitsFor(s, t), if WantsToRead(s, t) then 1 else 0
  {
    StuckThreadWaits(s, t);
    var u := SomeoneBlocks(s, t);
    path := [u];
    if !CanMove(s, u) {
      StuckThreadWaits(s, u);
      path := FollowTheBlockers(s, u);
    }
    path := [t] + path;
  }

  /** In every state the programs can reach, a thread that is not done can move, or waits, directly or along
      others, on one that can. */
  lemma {:induction false} NoDeadlock(run: Run, t: ThreadId)
    requires PossibleRun(run) && t in Now(run).threads && !Now(run).threads[t].Done?
    ensures exists path :: Chain(Now(run), path) && path[0] == t && CanMove(Now(run), path[|path| - 1])
  {
    RunFits(run);
    if CanMove(Now(run), t) {
      assert Chain(Now(run), [t]);
    } else {
      var path := FollowTheBlockers(Now(run), t);
    }
  }

  // ----- programs and how they are put together

  function Both(a: Code, b: Code): (c: Code)
    ensures Lowest(c) == Min(Lowest(a), Lowest(b)) && (Nested(c) <==> Nested(a) && Nested(b))
    ensures Flights(c) == Flights(a) + Flights(b) && Workers(c) == Workers(a) + Workers(b) && Takes(c) == Takes(a) + Takes(b)
  {
    Seq(a, b)
  }

  function Either(a: Code, b: Code): (c: Code)
    ensures Lowest(c) == Min(Lowest(a), Lowest(b)) && (Nested(c) <==> Nested(a) && Nested(b))
    ensures Flights(c) == Flights(a) + Flights(b) && Workers(c) == Workers(a) + Workers(b) && Takes(c) == Takes(a) + Takes(b)
  {
    Choice(a, b)
  }

  function Optional(a: Code): (c: Code)
    ensures Lowest(c) == Min(TOP, Lowest(a)) && (Nested(c) <==> Nested(a)) && Flights(c) == Flights(a) && Workers(c) == Workers(a)
    ensures Takes(c) == Takes(a)
  {
    Choice(Skip, a)
  }

  function Under(l: Lock, mode: Mode, inside: Code): (c: Code)
    ensures Lowest(c) == Rank(l) && (Nested(c) <==> Rank(l) < Lowest(inside) && Nested(inside))
    ensures Flights(c) == Flights(inside) && Workers(c) == Workers(inside) && Takes(c) == {(l, mode)} + Takes(inside)
  {
    With(l, mode, inside)
  }

  /** Code that respects the order wherever only locks below `rank` are held, and awaits nobody. */
  predicate Simple(c: Code, rank: int) { Nested(c) && rank <= Lowest(c) && Flights(c) == {} && Workers(c) == {} }

  // The programs.  `work` stands for anything that takes no lock: a statement, an upstream call, computing.  Each
  // contract says which locks the program takes, in the one order, from which rank on, and whom it awaits: what
  // `InOrder` asks of a program, for handlers (level -1), workers (0) and flights (5).

  function Store(work: Code): (c: Code)
    requires Simple(work, TOP)
    ensures Simple(c, Rank(Connection))
    ensures Takes(work) == {} ==> Takes(c) == {(Connection, Write)}
  {
    Under(Connection, Write, work)
  }

  /** beginQuotaReset and endQuotaReset */
  function Gate(work: Code): (c: Code)
    requires Simple(work, TOP)
    ensures Simple(c, Rank(QuotaResetMu))
    ensures Takes(work) == {} ==> Takes(c) == {(QuotaResetMu, Write)}
  {
    Under(QuotaResetMu, Write, work)
  }

  /** connectionSettings */
  function ConnectionSettings(work: Code): (c: Code)
    requires Simple(work, TOP)
    ensures Simple(c, Rank(ConnectionMu))
    ensures Takes(work) == {} ==> Takes(c) == {(ConnectionMu, Write), (Connection, Write)}
  {
    Under(ConnectionMu, Write, Store(work))
  }

  /** ResetQuota and SetKeyLimits of the syncer. */
  function UpstreamMutation(work: Code): (c: Code)
    requires Simple(work, TOP)
    ensures Simple(c, Rank(ConnectionMu))
    ensures Takes(work) == {} ==> Takes(c) == {(ConnectionMu, Write), (KeySnapshotMu, Write), (Connection, Write)}
  {
    Both(ConnectionSettings(work), Both(work, Optional(Under(ConnectionMu, Write, Under(KeySnapshotMu, Write, Store(work))))))
  }

  /** From beginQuotaReset to the answer of upstream. */
  function GatedMutation(work: Code): (c: Code)
    requires Simple(work, TOP)
    ensures Simple(c, Rank(ConnectionMu))
    ensures Takes(work) == {} ==> Takes(c) == {(QuotaResetMu, Write), (ConnectionMu, Write), (KeySnapshotMu, Write), (Connection, Write)}
  {
    Both(Gate(work), UpstreamMutation(work))
  }

  /** Under bindingMu: the user, the open job, and the mutation. */
  function CheckedMutation(work: Code): (c: Code)
    requires Simple(work, TOP)
    ensures Simple(c, Rank(BindingMu))
    ensures Takes(work) == {} ==>
              Takes(c) == {(BindingMu, Read), (QuotaResetMu, Write), (ConnectionMu, Write), (KeySnapshotMu, Write), (Connection, Write)}
  {
    Under(BindingMu, Read, Both(Store(work), Optional(Both(Store(work), Optional(GatedMutation(work))))))
  }

  /** After bindingMu: the final sync, the audit row, the answer, and endQuotaReset. */
  function Reconcile(work: Code, flight: ThreadId): (c: Code)
    requires Simple(work, TOP)
    ensures Nested(c) && FLIGHT <= Lowest(c) && Flights(c) == {flight} && Workers(c) == {}
    ensures Takes(work) == {} ==> Takes(c) == {(QuotaResetMu, Write), (Connection, Write)}
  {
    Both(Optional(AwaitFlight(flight)), Both(Optional(Store(work)), Both(Store(work), Gate(work))))
  }

  function MutateAndReconcile(work: Code, flight: ThreadId): (c: Code)
    requires Simple(work, TOP)
    ensures Nested(c) && Rank(BindingMu) <= Lowest(c) && Flights(c) == {flight} && Workers(c) == {}
    ensures Takes(work) == {} ==>
              Takes(c) == {(BindingMu, Read), (QuotaResetMu, Write), (ConnectionMu, Write), (KeySnapshotMu, Write), (Connection, Write)}
  {
    Both(CheckedMutation(work), Reconcile(work, flight))
  }

  /** resetUserQuota and setUserKeyLimits; the reconciliation waits for a keys flight. */
  function SingleMutation(work: Code, flight: ThreadId): (c: Code)
    requires Simple(work, TOP)
    ensures Nested(c) && Rank(MaintenanceMu) <= Lowest(c) && Flights(c) == {flight} && Workers(c) == {}
    ensures Takes(work) == {} ==>
              Takes(c) == {(MaintenanceMu, Write), (BindingMu, Read), (QuotaResetMu, Write), (ConnectionMu, Write), (KeySnapshotMu, Write), (Connection, Write)}
  {
    Under(MaintenanceMu, Write, Both(Store(work), Optional(MutateAndReconcile(work, flight))))
  }

  function CreateJob(work: Code): (c: Code)
    requires Simple(work, TOP)
    ensures Simple(c, Rank(MaintenanceMu))
    ensures Takes(work) == {} ==> Takes(c) == {(MaintenanceMu, Write), (Connection, Write)}
  {
    Under(MaintenanceMu, Write, Both(Store(work), Optional(Store(work))))
  }

  /** runQuotaResetItem */
  function BatchItem(work: Code): (c: Code)
    requires Simple(work, TOP)
    ensures Simple(c, Rank(BindingMu))
    ensures Takes(work) == {} ==> Takes(c) == {(QuotaResetMu, Write), (ConnectionMu, Write), (KeySnapshotMu, Write), (Connection, Write), (BindingMu, Read)}
  {
    Both(Store(work), Both(
      Optional(Under(BindingMu, Read, Both(Store(work), Optional(Both(Gate(work), Optional(Both(UpstreamMutation(work), Gate(work)))))))),
      Optional(Store(work))))
  }

  function BatchWorker(work: Code): (c: Code)
    requires Simple(work, TOP)
    ensures Simple(c, Rank(BindingMu))
    ensures Takes(work) == {} ==> Takes(c) == {(QuotaResetMu, Write), (ConnectionMu, Write), (KeySnapshotMu, Write), (Connection, Write), (BindingMu, Read)}
  {
    Repeat(BatchItem(work))
  }

  /** createUser, setBinding, deleteBinding, deleteUser */
  function BindingWriter(work: Code): (c: Code)
    requires Simple(work, TOP)
    ensures Simple(c, Rank(BindingMu))
    ensures Takes(work) == {} ==> Takes(c) == {(BindingMu, Write), (Connection, Write), (CacheMu, Read)}
  {
    Under(BindingMu, Write, Both(Optional(Under(CacheMu, Read, work)), Both(Optional(Store(work)), Optional(Store(work)))))
  }

  /** putSettings; BeginConnectionRotation's connectionMu is held until the settings are stored. */
  function PutSettings(work: Code): (c: Code)
    requires Simple(work, TOP)
    ensures Simple(c, Rank(SettingsMu))
    ensures Takes(work) == {} ==> Takes(c) == {(SettingsMu, Write), (BindingMu, Write), (ConnectionMu, Write), (CacheMu, Write), (Connection, Write)}
  {
    Under(SettingsMu, Write, Both(Store(work), Optional(Both(work, Both(
      Either(Store(work), Under(BindingMu, Write, Under(ConnectionMu, Write, Both(Under(CacheMu, Write, work), Store(work))))),
      Optional(Store(work)))))))
  }

  /** syncOne for keys */
  function KeysFlight(work: Code): (c: Code)
    requires Simple(work, TOP)
    ensures Simple(c, Rank(LimitSlot))
    ensures Takes(work) == {} ==> Takes(c) == {(LimitSlot, Write), (ConnectionMu, Write), (KeySnapshotMu, Write), (CacheMu, Write), (Connection, Write)}
  {
    Under(LimitSlot, Write, Both(ConnectionSettings(work), Optional(Both(Under(KeySnapshotMu, Write, work), Both(work,
      Under(ConnectionMu, Write, Under(KeySnapshotMu, Write, Optional(Both(Store(work), Optional(Both(Store(work), Under(CacheMu, Write, work))))))))))))
  }

  /** syncOne for accounts and usage */
  function PoolFlight(work: Code): (c: Code)
    requires Simple(work, TOP)
    ensures Simple(c, Rank(LimitSlot))
    ensures Takes(work) == {} ==> Takes(c) == {(LimitSlot, Write), (ConnectionMu, Write), (Connection, Write)}
  {
    Under(LimitSlot, Write, Both(ConnectionSettings(work), Optional(Both(Optional(Store(work)), Both(work,
      Under(ConnectionMu, Write, Optional(Both(Store(work), Store(work)))))))))
  }

  /** applyUpdate and its releasecheck Apply; and the release check that shares the lock. */
  function ApplyUpdate(work: Code): (c: Code)
    requires Simple(work, TOP)
    ensures Simple(c, Rank(MaintenanceMu))
    ensures Takes(work) == {} ==> Takes(c) == {(MaintenanceMu, Write), (ReleaseMu, Write), (Connection, Write)}
  {
    Under(MaintenanceMu, Write, Both(Store(work), Optional(Under(ReleaseMu, Write, Both(Store(work), Optional(Store(work)))))))
  }

  function CheckRelease(work: Code): (c: Code)
    requires Simple(work, TOP)
    ensures Simple(c, Rank(ReleaseMu))
    ensures Takes(work) == {} ==> Takes(c) == {(ReleaseMu, Write), (Connection, Write)}
  {
    Under(ReleaseMu, Write, Both(work, Both(Store(work), Store(work))))
  }

  /** upstreamKeys */
  function ListKeys(work: Code): (c: Code)
    requires Simple(work, TOP)
    ensures Simple(c, Rank(CacheMu))
    ensures Takes(work) == {} ==> Takes(c) == {(Connection, Write), (CacheMu, Read)}
  {
    Both(Under(CacheMu, Read, work), Store(work))
  }

  /** workers.Wait */
  function AwaitAll(workers: seq<ThreadId>): (c: Code)
    ensures Nested(c) && WORKER <= Lowest(c) && Flights(c) == {} && Workers(c) == set w | w in workers
    ensures Takes(c) == {}
  {
    if workers == [] then Skip else
    assert workers == [workers[0]] + workers[1..];
    Both(AwaitWorker(workers[0]), AwaitAll(workers[1..]))
  }

  /** runQuotaResetJob: the workers, the final sync, and the end of the job. */
  function JobRunner(work: Code, workers: seq<ThreadId>, flight: ThreadId): (c: Code)
    requires Simple(work, TOP)
    ensures Nested(c) && WORKER <= Lowest(c) && Flights(c) == {flight} && Workers(c) == set w | w in workers
    ensures Takes(work) == {} ==> Takes(c) == {(Connection, Write)}
  {
    Both(Both(Store(work), Store(work)), Either(Store(work), Both(AwaitAll(workers),
      Either(Store(work), Both(AwaitFlight(flight), Both(Store(work), Optional(Store(work))))))))
  }

  // ----- systems of programs

  datatype Program = Program(code: Code, level: int)

  /** Each program takes its locks in the one order, above its level, and awaits only flights and workers that are there. */
  predicate InOrder(programs: map<ThreadId, Program>) {
    forall t :: t in programs ==> Nested(programs[t].code) && programs[t].level < Lowest(programs[t].code) && AwaitsWell(programs, programs[t].code)
  }

  predicate AwaitsWell(programs: map<ThreadId, Program>, code: Code) {
    && (forall f :: f in Flights(code) ==> f in programs && programs[f].level == FLIGHT)
    && (forall w :: w in Workers(code) ==> w in programs && programs[w].level == WORKER)
  }

  function Initial(programs: map<ThreadId, Program>): System {
    System(map t | t in programs :: Then(programs[t].code, Done), {}, map t | t in programs :: programs[t].level)
  }

  datatype Run = Start(programs: map<ThreadId, Program>) | Next(before: Run, t: ThreadId, pick: bool)

  function Now(run: Run): System
    requires PossibleRun(run)
    decreases run, 1
  {
    match run
    case Start(programs) => Initial(programs)
    case Next(before, t, pick) => Step(Now(before), t, pick)
  }

  /** Any number of threads with programs in order, scheduled in any way. */
  predicate PossibleRun(run: Run)
    decreases run, 0
  {
    match run
    case Start(programs) => InOrder(programs)
    case Next(before, t, _) => PossibleRun(before) && CanMove(Now(before), t)
  }

  lemma InitialFits(programs: map<ThreadId, Program>)
    requires InOrder(programs)
    ensures Fits(Initial(programs))
  {
    var s := Initial(programs);
    forall t | t in s.threads
      ensures StackOrdered(s.threads[t], s.level[t], s.level)
    {
      assert Ordered(programs[t].code, programs[t].level, s.level);
    }
  }

  lemma {:induction false} RunFits(run: Run)
    requires PossibleRun(run)
    ensures Fits(Now(run))
  {
    match run
    case Start(programs) => InitialFits(programs);
    case Next(before, t, pick) =>
      RunFits(before);
      StepKeepsFit(Now(before), t, pick);
  }

  // ----- the portal

  /** What a thread of the portal runs, with the threads it awaits. */
  datatype Role =
    | Resetting(flight: ThreadId)                       // resetUserQuota, setUserKeyLimits
    | Creating                                          // createQuotaResetJob
    | Running(workers: seq<ThreadId>, flight: ThreadId) // runQuotaResetJob
    | Working                                           // its workers
    | Binding                                           // createUser, setBinding, deleteBinding, deleteUser
    | PuttingSettings
    | SyncingKeys
    | SyncingPool
    | Applying                                          // applyUpdate
    | Checking                                          // checkUpdate and the periodic check
    | Listing                                           // upstreamKeys

  function ProgramOf(role: Role): Program {
    match role
    case Resetting(flight) => Program(SingleMutation(Work, flight), HANDLER)
    case Creating => Program(CreateJob(Work), HANDLER)
    case Running(workers, flight) => Program(JobRunner(Work, workers, flight), HANDLER)
    case Working => Program(BatchWorker(Work), WORKER)
    case Binding => Program(BindingWriter(Work), HANDLER)
    case PuttingSettings => Program(PutSettings(Work), HANDLER)
    case SyncingKeys => Program(KeysFlight(Work), FLIGHT)
    case SyncingPool => Program(PoolFlight(Work), FLIGHT)
    case Applying => Program(ApplyUpdate(Work), HANDLER)
    case Checking => Program(CheckRelease(Work), HANDLER)
    case Listing => Program(ListKeys(Work), HANDLER)
  }

  /** Whoever is awaited is there, in the role it is awaited in. */
  predicate Staffed(roles: map<ThreadId, Role>) {
    && (forall t :: t in roles && roles[t].Resetting? ==> roles[t].flight in roles && roles[roles[t].flight].SyncingKeys?)
    && (forall t :: t in roles && roles[t].Running? ==> roles[t].flight in roles && roles[roles[t].flight].SyncingKeys?)
    && (forall t, w :: t in roles && roles[t].Running? && w in roles[t].workers ==> w in roles && roles[w].Working?)
  }

  function Portal(roles: map<ThreadId, Role>): map<ThreadId, Program> { map t | t in roles :: ProgramOf(roles[t]) }

  lemma WorkIsSimple()
    ensures Simple(Work, TOP)
  {
  }

  /** The program is in the order, above the level of its role, and awaits exactly whom the role names. */
  predicate Serves(p: Program, role: Role) {
    && Nested(p.code) && p.level < Lowest(p.code)
    && Flights(p.code) == (if role.Resetting? || role.Running? then {role.flight} else {})
    && Workers(p.code) == (if role.Running? then set w | w in role.workers else {})
    && (role.SyncingKeys? ==> p.level == FLIGHT) && (role.Working? ==> p.level == WORKER)
  }

  lemma ResettingIsInOrder(role: Role)
    requires role.Resetting? || role.Creating?
    ensures Serves(ProgramOf(role), role)
  {
    WorkIsSimple();
  }

  lemma RunningIsInOrder(role: Role)
    requires role.Running?
    ensures Serves(ProgramOf(role), role)
  {
    WorkIsSimple();
  }

  /** A program whose contract says that it is simple serves any role that awaits nobody. */
  lemma SimpleServes(c: Code, rank: int, level: int, role: Role)
    requires Simple(c, rank) && level < rank && !role.Resetting? && !role.Running?
    requires (role.SyncingKeys? ==> level == FLIGHT) && (role.Working? ==> level == WORKER)
    ensures Serves(Program(c, level), role)
  {
  }

  lemma WorkingIsInOrder()
    ensures Serves(ProgramOf(Working), Working)
  {
    WorkIsSimple();
    SimpleServes(BatchWorker(Work), Rank(BindingMu), WORKER, Working);
  }

  lemma BindingIsInOrder()
    ensures Serves(ProgramOf(Binding), Binding)
  {
    WorkIsSimple();
    SimpleServes(BindingWriter(Work), Rank(BindingMu), HANDLER, Binding);
  }

  lemma PuttingIsInOrder(role: Role)
    requires role.PuttingSettings? || role.Listing?
    ensures Serves(ProgramOf(role), role)
  {
    WorkIsSimple();
  }

  lemma SyncingKeysIsInOrder()
    ensures Serves(ProgramOf(SyncingKeys), SyncingKeys)
  {
    WorkIsSimple();
    SimpleServes(KeysFlight(Work), Rank(LimitSlot), FLIGHT, SyncingKeys);
  }

  lemma SyncingPoolIsInOrder()
    ensures Serves(ProgramOf(SyncingPool), SyncingPool)
  {
    WorkIsSimple();
    SimpleServes(PoolFlight(Work), Rank(LimitSlot), FLIGHT, SyncingPool);
  }

  lemma ReleasingIsInOrder(role: Role)
    requires role.Applying? || role.Checking?
    ensures Serves(ProgramOf(role), role)
  {
    WorkIsSimple();
  }

  lemma RoleIsInOrder(role: Role)
    ensures Serves(ProgramOf(role), role)
  {
    if role.Resetting? || role.Creating? {
      ResettingIsInOrder(role);
    } else if role.Running? {
      RunningIsInOrder(role);
    } else if role.Working? {
      WorkingIsInOrder();
    } else if role.Binding? {
      BindingIsInOrder();
    } else if role.PuttingSettings? || role.Listing? {
      PuttingIsInOrder(role);
    } else if role.SyncingKeys? {
      SyncingKeysIsInOrder();
    } else if role.SyncingPool? {
      SyncingPoolIsInOrder();
    } else {
      ReleasingIsInOrder(role);
    }
  }

  lemma StaffedIsInOrder(roles: map<ThreadId, Role>, programs: map<ThreadId, Program>)
    requires Staffed(roles) && programs.Keys == roles.Keys && forall t :: t in roles ==> Serves(programs[t], roles[t])
    ensures InOrder(programs)
  {
    forall t | t in programs
      ensures AwaitsWell(programs, programs[t].code)
    {
      assert Serves(programs[t], roles[t]);
      forall w | w in Workers(programs[t].code)
        ensures w in programs && programs[w].level == WORKER
      {
        assert w in roles[t].workers;
      }
    }
  }

  lemma PortalIsInOrder(roles: map<ThreadId, Role>)
    requires Staffed(roles)
    ensures InOrder(Portal(roles))
  {
    forall t | t in roles
      ensures Serves(Portal(roles)[t], roles[t])
    {
      RoleIsInOrder(roles[t]);
    }
    StaffedIsInOrder(roles, Portal(roles));
  }

  function Origin(run: Run): map<ThreadId, Program> {
    match run
    case Start(programs) => programs
    case Next(before, _, _) => Origin(before)
  }

  /** The portal can start, and from then on never deadlocks: any number of handlers, runners, workers, sync flights and
      rotations, scheduled in any way.  Whoever is not done can move, or waits, directly or along others, on one that can. */
  lemma {:induction false} PortalHasNoDeadlock(roles: map<ThreadId, Role>, run: Run, t: ThreadId)
    requires Staffed(roles)
    ensures PossibleRun(Start(Portal(roles)))
    ensures PossibleRun(run) && Origin(run) == Portal(roles) && t in Now(run).threads && !Now(run).threads[t].Done? ==>
              exists path :: Chain(Now(run), path) && path[0] == t && CanMove(Now(run), path[|path| - 1])
  {
    PortalIsInOrder(roles);
    if PossibleRun(run) && t in Now(run).threads && !Now(run).threads[t].Done? {
      NoDeadlock(run, t);
    }
  }

  /** The order is needed: a rotation that took connectionMu before bindingMu would block with one that does not. */
  lemma OppositeOrdersBlock(s: System, t: ThreadId, u: ThreadId, work: Code)
    requires t != u && t in s.threads && u in s.threads && s.threads.Keys == {t, u} && s.announced == {t, u}
    requires s.threads[t] == Then(With(ConnectionMu, Write, work), Unlock(BindingMu, Write, Done))
    requires s.threads[u] == Then(With(BindingMu, Write, work), Unlock(ConnectionMu, Write, Done))
    ensures forall w :: !CanMove(s, w)
  {
    assert Holds(s, u, ConnectionMu, Write) && Holds(s, t, BindingMu, Write);
    assert u in Holders(s, ConnectionMu) && t in Holders(s, BindingMu);
  }
}
