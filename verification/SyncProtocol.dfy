/**
 The sync manager's generation protocol: internal/syncer/manager.go, with the writers of bindings
 (internal/httpapi/admin_users.go) and the rotation of the connection (admin_pool_settings.go,
 internal/store/setup.go).  A step is one section under connectionMu, keySnapshotMu or cacheMu, one store
 transaction, or one upstream read or mutation.  Values are reduced to where and when they were read:
 the identity of the connection and a version that grows whenever the key changes upstream.
 */
module SyncProtocol {
  import opened Options

  /** Base URL without trailing slash, and owner. */
  type Identity = nat
  type Key = nat
  type UserId = nat
  type Account = nat
  type Version = nat
  type Id = nat

  datatype Reading = Reading(origin: Identity, version: Version)

  /** The writer of a binding row's values last. */
  datatype Source = Confirmed | Inserted | Unconfirmed
  datatype Binding = Binding(key: Key, reading: Reading, source: Source)
  datatype PoolRow = PoolRow(origin: Identity, usage: Option<Identity>, published: bool)

  datatype FlightStage = Begun | Connected | Captured
  /** One execution of syncOne.  `generation` and `readings` belong to a flight of keys. */
  datatype Flight = Flight(keys: bool, stage: FlightStage, connection: nat, identity: Identity, generation: nat, readings: map<Key, Version>)

  datatype MutationStage = Started | Ready | Applied
  /** One execution of ResetQuota or SetKeyLimits. */
  datatype Mutation = Mutation(key: Key, stage: MutationStage, connection: nat, identity: Identity, version: Version)

  /** Who holds bindingMu for writing, and the snapshot it has looked up. */
  datatype BindingLock = Free | Binder(found: Option<(Key, Reading)>) | Rotator

  datatype PutStage = Probing | Locked | Rotating | Stored | Released
  /** putSettings, which holds settingsMu: the identity it read and the one it is to store. */
  datatype Put = Put(current: Identity, next: Identity, stage: PutStage)

  /**
   `registered` is the singleflight call that a new keys sync would join; `upstream` is what the upstream
   would answer; `confirmed` remembers, per identity and key, the version of the last mutation whose
   generation bump has happened.
   */
  datatype State = State(
    settings: Option<Identity>,
    bindings: map<UserId, Binding>,
    pool: map<Account, PoolRow>,
    connectionGeneration: nat,
    rotating: bool,               // connectionMu is held by a rotation
    keyGeneration: nat,
    cache: map<Key, Reading>,
    registered: Option<Id>,
    flights: map<Id, Flight>,
    mutations: map<Id, Mutation>,
    bindingLock: BindingLock,
    put: Option<Put>,
    upstream: map<(Identity, Key), Version>,
    confirmed: map<(Identity, Key), Version>)

  /** How far the transaction and MarkSync of a publication come. */
  datatype Publication = Nothing | RowsOnly | RowsAndCache

  /** Sync */
  datatype FlightAction =
    | StartFlight(keys: bool)
    | Connect
    | Capture
    | ReadKeys(listed: set<Key>)
    | PublishKeys(published: Publication)
    | PublishAccounts(accounts: set<Account>)
    | PublishUsage(accounts: set<Account>)
    | EndFlight

  /** ResetQuota and SetKeyLimits */
  datatype MutationAction = StartMutation(key: Key) | ConnectMutation | Mutate | Persist(stored: bool) | EndMutation

  /** createUser, setBinding, deleteBinding, deleteUser; publishing a pool account */
  datatype AdminAction =
    | LockBindings
    | FindKey(key: Key)
    | InsertBinding(user: UserId)
    | DeleteBinding(user: UserId)
    | UnlockBindings
    | PublishAccount(account: Account, visible: bool)

  /** putSettings */
  datatype PutAction = PutBegin(next: Identity) | PutUpdate | PutLockBindings | PutRotate | PutStore(stored: bool) | PutRelease | PutEnd

  datatype Event =
    | OnFlight(f: Id, flight: FlightAction)
    | OnMutation(m: Id, mutation: MutationAction)
    | OnAdmin(admin: AdminAction)
    | OnPut(putting: PutAction)
    | Setup(identity: Identity)
    | Restart
    | UpstreamMoves(identity: Identity, key: Key)

  function Latest(upstream: map<(Identity, Key), Version>, i: Identity, k: Key): Version {
    if (i, k) in upstream then upstream[(i, k)] else 0
  }

  // ----- the effects

  /** ApplyKeySnapshots: rows of listed keys take the listed values; the others are marked missing. */
  function AppliedSnapshots(bindings: map<UserId, Binding>, identity: Identity, readings: map<Key, Version>): map<UserId, Binding> {
    map u | u in bindings ::
      if bindings[u].key in readings then Binding(bindings[u].key, Reading(identity, readings[bindings[u].key]), Confirmed) else bindings[u]
  }

  /** ApplyQuotaResetSnapshot and ApplyKeyLimitChange */
  function AppliedMutation(bindings: map<UserId, Binding>, key: Key, reading: Reading, stored: bool): map<UserId, Binding> {
    map u | u in bindings ::
      if bindings[u].key != key then bindings[u]
      else if stored then Binding(key, reading, Confirmed) else bindings[u].(source := Unconfirmed)
  }

  /** A pool row after an upsert, or as it was. */
  function Upserted(pool: map<Account, PoolRow>, a: Account, identity: Identity, listed: bool): PoolRow {
    if a !in pool then PoolRow(identity, None, false) else if listed then pool[a].(origin := identity) else pool[a]
  }

  function AppliedInventory(pool: map<Account, PoolRow>, identity: Identity, accounts: set<Account>): map<Account, PoolRow> {
    map a | a in pool.Keys + accounts :: Upserted(pool, a, identity, a in accounts)
  }

  function AppliedUsage(pool: map<Account, PoolRow>, identity: Identity, accounts: set<Account>): map<Account, PoolRow> {
    map a | a in pool :: if a in accounts then pool[a].(usage := Some(identity)) else pool[a]
  }

  function ReadingsOf(f: Flight): map<Key, Reading> { map k | k in f.readings :: Reading(f.identity, f.readings[k]) }

  function Landed(s: State, f: Id): State {
    s.(flights := s.flights - {f}, registered := if s.registered == Some(f) then None else s.registered)
  }

  /** A flight that may still publish. */
  predicate Current(s: State, flight: Flight) { flight.connection == s.connectionGeneration && flight.generation == s.keyGeneration }

  /** The section of syncKeys under both locks; a stale flight only ends. */
  function PublishedKeys(s: State, f: Id, flight: Flight, published: Publication): State {
    Landed(s, f).(
      bindings := if Current(s, flight) && !published.Nothing? then AppliedSnapshots(s.bindings, flight.identity, flight.readings) else s.bindings,
      cache := if Current(s, flight) && published.RowsAndCache? then ReadingsOf(flight) else s.cache)
  }

  /** The sections of syncAccounts and syncUsage. */
  function PublishedPool(s: State, f: Id, flight: Flight, pool: map<Account, PoolRow>): State {
    Landed(s, f).(pool := if flight.connection == s.connectionGeneration then pool else s.pool)
  }

  /** The section of ResetQuota and SetKeyLimits after a confirmed mutation. */
  function Persisted(s: State, m: Id, mutation: Mutation, stored: bool): State {
    var current := mutation.connection == s.connectionGeneration;
    s.(mutations := s.mutations - {m},
       keyGeneration := if current then s.keyGeneration + 1 else s.keyGeneration,
       registered := if current then None else s.registered,
       confirmed := if current then s.confirmed[(mutation.identity, mutation.key) := mutation.version] else s.confirmed,
       bindings := if current then AppliedMutation(s.bindings, mutation.key, Reading(mutation.identity, mutation.version), stored) else s.bindings)
  }

  // ----- steps

  predicate Published(pool: map<Account, PoolRow>) { exists a :: a in pool && pool[a].published }

  predicate TakenByOther(bindings: map<UserId, Binding>, user: UserId, key: Key) {
    exists u :: u in bindings && u != user && bindings[u].key == key
  }

  /** What the code checks, and the locks it must get; sections under connectionMu wait for a rotation. */
  predicate Possible(s: State, e: Event) {
    match e
    case OnFlight(f, a) => if a.StartFlight? then f !in s.flights && (a.keys ==> s.registered.None?) else f in s.flights && FlightPossible(s, a, s.flights[f])
    case OnMutation(m, a) =>
      if a.StartMutation? then m !in s.mutations && forall o :: o in s.mutations ==> s.mutations[o].key != a.key  // the key's gate
      else m in s.mutations && MutationPossible(s, a, s.mutations[m].stage)
    case OnAdmin(a) => AdminPossible(s, a)
    case OnPut(a) => PutPossible(s, a)
    case Setup(_) => s.settings.None?
    case Restart => true
    case UpstreamMoves(_, _) => true
  }

  function Step(s: State, e: Event): State {
    match e
    case OnFlight(f, a) => FlightStep(s, f, a)
    case OnMutation(m, a) => MutationStep(s, m, a)
    case OnAdmin(a) => AdminStep(s, a)
    case OnPut(a) => PutStep(s, a)
    case Setup(identity) => s.(settings := Some(identity))
    case Restart =>
      s.(connectionGeneration := 0, rotating := false, keyGeneration := 0, cache := map[], registered := None,
         flights := map[], mutations := map[], bindingLock := Free, put := None)
    case UpstreamMoves(i, k) => s.(upstream := s.upstream[(i, k) := Latest(s.upstream, i, k) + 1])
  }

  predicate FlightPossible(s: State, a: FlightAction, f: Flight) {
    match a
    case StartFlight(_) => false
    case Connect => f.stage.Begun? && !s.rotating && s.settings.Some?
    case Capture => f.stage.Connected? && f.keys
    case ReadKeys(_) => f.stage.Captured?
    case PublishKeys(_) => f.stage.Captured? && !s.rotating
    case PublishAccounts(_) => f.stage.Connected? && !f.keys && !s.rotating
    case PublishUsage(_) => f.stage.Connected? && !f.keys && !s.rotating
    case EndFlight => true
  }

  function FlightTo(s: State, f: Id, flight: Flight): State { s.(flights := s.flights[f := flight]) }

  function FlightOf(s: State, f: Id): Flight { if f in s.flights then s.flights[f] else Flight(false, Begun, 0, 0, 0, map[]) }

  function CurrentIdentity(s: State): Identity { if s.settings.Some? then s.settings.value else 0 }

  function FlightStep(s: State, f: Id, a: FlightAction): State {
    var flight := FlightOf(s, f);
    match a
    case StartFlight(keys) => FlightTo(s, f, Flight(keys, Begun, 0, 0, 0, map[])).(registered := if keys then Some(f) else s.registered)
    case Connect => FlightTo(s, f, flight.(stage := Connected, connection := s.connectionGeneration, identity := CurrentIdentity(s)))
    case Capture => FlightTo(s, f, flight.(stage := Captured, generation := s.keyGeneration))
    case ReadKeys(listed) => FlightTo(s, f, flight.(readings := flight.readings + Listing(s.upstream, flight.identity, listed)))
    case PublishKeys(published) => PublishedKeys(s, f, flight, published)
    case PublishAccounts(accounts) => PublishedPool(s, f, flight, AppliedInventory(s.pool, flight.identity, accounts))
    case PublishUsage(accounts) => PublishedPool(s, f, flight, AppliedUsage(s.pool, flight.identity, accounts))
    case EndFlight => Landed(s, f)
  }

  /** One page of ListAPIKeys. */
  function Listing(upstream: map<(Identity, Key), Version>, i: Identity, listed: set<Key>): map<Key, Version> {
    map k | k in listed :: Latest(upstream, i, k)
  }

  predicate MutationPossible(s: State, a: MutationAction, stage: MutationStage) {
    match a
    case StartMutation(_) => false
    case ConnectMutation => stage.Started? && !s.rotating && s.settings.Some?
    case Mutate => stage.Ready?
    case Persist(_) => stage.Applied? && !s.rotating
    case EndMutation => true
  }

  function MutationOf(s: State, m: Id): Mutation { if m in s.mutations then s.mutations[m] else Mutation(0, Started, 0, 0, 0) }

  function MutationStep(s: State, m: Id, a: MutationAction): State {
    var mutation := MutationOf(s, m);
    match a
    case StartMutation(key) => s.(mutations := s.mutations[m := Mutation(key, Started, 0, 0, 0)])
    case ConnectMutation => s.(mutations := s.mutations[m := mutation.(stage := Ready, connection := s.connectionGeneration, identity := CurrentIdentity(s))])
    case Mutate => Mutated(s, m, mutation)
    case Persist(stored) => Persisted(s, m, mutation, stored)
    case EndMutation => s.(mutations := s.mutations - {m})
  }

  /** The upstream applies the mutation and answers with the values it left. */
  function Mutated(s: State, m: Id, mutation: Mutation): State {
    var version := Latest(s.upstream, mutation.identity, mutation.key) + 1;
    s.(upstream := s.upstream[(mutation.identity, mutation.key) := version],
       mutations := s.mutations[m := mutation.(stage := Applied, version := version)])
  }

  predicate AdminPossible(s: State, a: AdminAction) {
    match a
    case LockBindings => s.bindingLock.Free?
    case FindKey(key) => s.bindingLock.Binder? && key in s.cache
    case InsertBinding(user) =>
      s.bindingLock.Binder? && s.bindingLock.found.Some? && !TakenByOther(s.bindings, user, s.bindingLock.found.value.0)
    case DeleteBinding(_) => s.bindingLock.Binder?
    case UnlockBindings => s.bindingLock.Binder?
    case PublishAccount(account, _) => account in s.pool
  }

  /** The snapshot the holder of bindingMu has found. */
  function Found(lock: BindingLock): (Key, Reading) { if lock.Binder? && lock.found.Some? then lock.found.value else (0, Reading(0, 0)) }

  function AdminStep(s: State, a: AdminAction): State {
    match a
    case LockBindings => s.(bindingLock := Binder(None))
    case FindKey(key) => s.(bindingLock := Binder(if key in s.cache then Some((key, s.cache[key])) else None))
    case InsertBinding(user) => s.(bindings := s.bindings[user := Binding(Found(s.bindingLock).0, Found(s.bindingLock).1, Inserted)])
    case DeleteBinding(user) => s.(bindings := s.bindings - {user})
    case UnlockBindings => s.(bindingLock := Free)
    case PublishAccount(account, visible) =>
      s.(pool := if account in s.pool then s.pool[account := s.pool[account].(published := visible)] else s.pool)
  }

  predicate PutAt(s: State, stage: PutStage) { s.put.Some? && s.put.value.stage == stage }

  predicate PutPossible(s: State, a: PutAction) {
    match a
    case PutBegin(_) => s.put.None? && s.settings.Some?
    case PutUpdate => PutAt(s, Probing) && s.put.value.current == s.put.value.next
    case PutLockBindings => PutAt(s, Probing) && s.put.value.current != s.put.value.next && s.bindingLock.Free?
    case PutRotate => PutAt(s, Locked) && !s.rotating
    case PutStore(stored) => PutAt(s, Rotating) && (stored ==> s.bindings == map[] && !Published(s.pool))
    case PutRelease => PutAt(s, Stored)
    case PutEnd => PutAt(s, Probing) || PutAt(s, Released)
  }

  function PutTo(s: State, stage: PutStage): State { s.(put := if s.put.Some? then Some(s.put.value.(stage := stage)) else None) }

  function PutStep(s: State, a: PutAction): State {
    match a
    case PutBegin(next) => s.(put := Some(Put(CurrentIdentity(s), next, Probing)))
    case PutUpdate => s.(put := None)
    case PutLockBindings => PutTo(s, Locked).(bindingLock := Rotator)
    case PutRotate => PutTo(s, Rotating).(rotating := true, connectionGeneration := s.connectionGeneration + 1, registered := None, cache := map[])
    case PutStore(stored) =>
      PutTo(s, Stored).(settings := if stored && s.put.Some? then Some(s.put.value.next) else s.settings, pool := if stored then map[] else s.pool)
    case PutRelease => PutTo(s, Released).(rotating := false)
    case PutEnd => s.(put := None, bindingLock := if s.bindingLock.Rotator? then Free else s.bindingLock)
  }

  // ----- runs

  datatype Run = Start(state: State) | Next(before: Run, event: Event)

  function Now(run: Run): State {
    match run
    case Start(s) => s
    case Next(before, e) => Step(Now(before), e)
  }

  /** Before setup nothing is cached or stored and nobody is at work. */
  ghost predicate Initial(s: State) {
    s == State(None, map[], map[], 0, false, 0, map[], None, map[], map[], Free, None, s.upstream, map[])
  }

  ghost predicate PossibleRun(run: Run) {
    match run
    case Start(s) => Initial(s)
    case Next(before, e) => PossibleRun(before) && Possible(Now(before), e)
  }
}
