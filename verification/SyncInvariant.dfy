/** What every step of SyncProtocol keeps. */
module SyncInvariant {
  import opened Options
  import opened SyncProtocol

  // ----- connections

  /** Everything kept was read over the connection the settings describe. */
  ghost predicate CacheFrom(settings: Option<Identity>, cache: map<Key, Reading>) {
    forall k :: k in cache ==> settings == Some(cache[k].origin)
  }

  ghost predicate RowsFrom(settings: Option<Identity>, bindings: map<UserId, Binding>) {
    forall u :: u in bindings ==> settings == Some(bindings[u].reading.origin)
  }

  ghost predicate PoolFrom(settings: Option<Identity>, pool: map<Account, PoolRow>) {
    forall a :: a in pool ==> settings == Some(pool[a].origin) && (pool[a].usage.Some? ==> settings == pool[a].usage)
  }

  ghost predicate LookupFrom(settings: Option<Identity>, lock: BindingLock) {
    lock.Binder? && lock.found.Some? ==> settings == Some(lock.found.value.1.origin)
  }

  ghost predicate Isolated(s: State) {
    CacheFrom(s.settings, s.cache) && RowsFrom(s.settings, s.bindings) && PoolFrom(s.settings, s.pool) && LookupFrom(s.settings, s.bindingLock)
  }

  /** A connection generation belongs to one identity; during a rotation nobody has the new one yet. */
  ghost predicate ConnectionFits(settings: Option<Identity>, current: nat, rotating: bool, connection: nat, identity: Identity) {
    && connection <= current
    && (connection == current ==> !rotating && settings == Some(identity))
  }

  ghost predicate FlightsConnected(settings: Option<Identity>, current: nat, rotating: bool, flights: map<Id, Flight>) {
    forall f :: f in flights && !flights[f].stage.Begun? ==> ConnectionFits(settings, current, rotating, flights[f].connection, flights[f].identity)
  }

  ghost predicate MutationsConnected(settings: Option<Identity>, current: nat, rotating: bool, mutations: map<Id, Mutation>) {
    forall m :: m in mutations && !mutations[m].stage.Started? ==>
      ConnectionFits(settings, current, rotating, mutations[m].connection, mutations[m].identity)
  }

  /** putSettings' copy of the identity is current until it stores the new one; it rotates under bindingMu and connectionMu. */
  ghost predicate PutFits(settings: Option<Identity>, rotating: bool, lock: BindingLock, cache: map<Key, Reading>, put: Option<Put>) {
    && (rotating <==> put.Some? && (put.value.stage.Rotating? || put.value.stage.Stored?))
    && (lock.Rotator? <==> put.Some? && !put.value.stage.Probing?)
    && (put.Some? && (put.value.stage.Probing? || put.value.stage.Locked? || put.value.stage.Rotating?) ==> settings == Some(put.value.current))
    && (rotating ==> cache == map[])
  }

  ghost predicate ConnectionsInv(s: State) {
    && FlightsConnected(s.settings, s.connectionGeneration, s.rotating, s.flights)
    && MutationsConnected(s.settings, s.connectionGeneration, s.rotating, s.mutations)
    && PutFits(s.settings, s.rotating, s.bindingLock, s.cache, s.put)
  }

  // ----- freshness

  /** A flight that may still publish has read nothing older than the last confirmed mutation. */
  ghost predicate FlightFresh(confirmed: map<(Identity, Key), Version>, current: nat, f: Flight) {
    if f.stage.Captured?
    then f.generation <= current && (f.generation == current ==> ReadingsFresh(confirmed, f.identity, f.readings))
    else f.readings == map[]
  }

  ghost predicate ReadingsFresh(confirmed: map<(Identity, Key), Version>, i: Identity, readings: map<Key, Version>) {
    forall k :: k in readings ==> Latest(confirmed, i, k) <= readings[k]
  }

  ghost predicate FlightsFresh(confirmed: map<(Identity, Key), Version>, current: nat, flights: map<Id, Flight>) {
    forall f :: f in flights ==> FlightFresh(confirmed, current, flights[f])
  }

  /** What an applied mutation left is newer than any confirmed one of its key, and not newer than upstream. */
  ghost predicate MutationsAhead(confirmed: map<(Identity, Key), Version>, upstream: map<(Identity, Key), Version>, mutations: map<Id, Mutation>) {
    forall m :: m in mutations && mutations[m].stage.Applied? ==>
      Latest(confirmed, mutations[m].identity, mutations[m].key) < mutations[m].version <= Latest(upstream, mutations[m].identity, mutations[m].key)
  }

  ghost predicate Exclusive(mutations: map<Id, Mutation>) {
    forall m, o :: m in mutations && o in mutations && m != o ==> mutations[m].key != mutations[o].key
  }

  ghost predicate UpstreamAhead(confirmed: map<(Identity, Key), Version>, upstream: map<(Identity, Key), Version>) {
    forall i: Identity, k: Key :: Latest(confirmed, i, k) <= Latest(upstream, i, k)
  }

  /** A row last written by a sync or a stored mutation is at least as new as the key's last confirmed mutation. */
  ghost predicate RowsFresh(confirmed: map<(Identity, Key), Version>, bindings: map<UserId, Binding>) {
    forall u :: u in bindings && bindings[u].source.Confirmed? ==>
      Latest(confirmed, bindings[u].reading.origin, bindings[u].key) <= bindings[u].reading.version
  }

  ghost predicate FreshnessInv(s: State) {
    && FlightsFresh(s.confirmed, s.keyGeneration, s.flights) && RowsFresh(s.confirmed, s.bindings)
    && MutationsAhead(s.confirmed, s.upstream, s.mutations) && Exclusive(s.mutations) && UpstreamAhead(s.confirmed, s.upstream)
  }

  ghost predicate Inv(s: State) { Isolated(s) && ConnectionsInv(s) && FreshnessInv(s) }

  // ----- flights

  lemma FewerFlights(s: State, f: Id)
    requires Inv(s)
    ensures Inv(Landed(s, f))
  {
  }

  lemma PublishedKeysAreIsolated(s: State, f: Id, flight: Flight, published: Publication)
    requires Isolated(s) && ConnectionsInv(s) && f in s.flights && flight == s.flights[f] && flight.stage.Captured? && !s.rotating
    ensures var n := PublishedKeys(s, f, flight, published); Isolated(n) && ConnectionsInv(n)
  {
    assert ConnectionFits(s.settings, s.connectionGeneration, s.rotating, flight.connection, flight.identity);
    assert FlightsConnected(s.settings, s.connectionGeneration, s.rotating, s.flights - {f});
  }

  lemma PublishedKeysAreFresh(s: State, f: Id, flight: Flight, published: Publication)
    requires Inv(s) && f in s.flights && flight == s.flights[f] && flight.stage.Captured? && !s.rotating
    ensures FreshnessInv(PublishedKeys(s, f, flight, published))
  {
    assert FlightFresh(s.confirmed, s.keyGeneration, flight);
    FewerFlights(s, f);
  }

  lemma PublishedPoolIsIsolated(s: State, f: Id, a: FlightAction)
    requires Inv(s) && Possible(s, OnFlight(f, a)) && (a.PublishAccounts? || a.PublishUsage?)
    ensures Inv(FlightStep(s, f, a))
  {
    var flight := s.flights[f];
    assert ConnectionFits(s.settings, s.connectionGeneration, s.rotating, flight.connection, flight.identity);
    FewerFlights(s, f);
  }

  lemma FlightTakesOff(s: State, f: Id, a: FlightAction)
    requires Inv(s) && Possible(s, OnFlight(f, a)) && (a.StartFlight? || a.Connect? || a.Capture?)
    ensures Inv(FlightStep(s, f, a))
  {
  }

  /** What is read now is at least as new as every confirmed mutation. */
  lemma ReadingIsFresh(s: State, f: Id, a: FlightAction)
    requires Inv(s) && Possible(s, OnFlight(f, a)) && a.ReadKeys?
    ensures Inv(FlightStep(s, f, a))
  {
    assert FlightFresh(s.confirmed, s.keyGeneration, s.flights[f]);
  }

  lemma FlightKeepsInv(s: State, f: Id, a: FlightAction)
    requires Inv(s) && Possible(s, OnFlight(f, a))
    ensures Inv(FlightStep(s, f, a))
  {
    match a
    case PublishKeys(published) =>
      PublishedKeysAreIsolated(s, f, s.flights[f], published);
      PublishedKeysAreFresh(s, f, s.flights[f], published);
    case PublishAccounts(_) => PublishedPoolIsIsolated(s, f, a);
    case PublishUsage(_) => PublishedPoolIsIsolated(s, f, a);
    case ReadKeys(_) => ReadingIsFresh(s, f, a);
    case EndFlight => FewerFlights(s, f);
    case _ => FlightTakesOff(s, f, a);
  }

  // ----- mutations

  lemma MutationKeepsConnections(s: State, m: Id, a: MutationAction)
    requires Inv(s) && Possible(s, OnMutation(m, a))
    ensures Isolated(MutationStep(s, m, a)) && ConnectionsInv(MutationStep(s, m, a))
  {
  }

  lemma MutatingKeepsFreshness(s: State, m: Id, mutation: Mutation)
    requires FreshnessInv(s) && m in s.mutations && mutation == s.mutations[m] && mutation.stage.Ready?
    ensures FreshnessInv(Mutated(s, m, mutation))
  {
    var n := Mutated(s, m, mutation);
    assert UpstreamAhead(n.confirmed, n.upstream) by {
      forall i: Identity, k: Key
        ensures Latest(n.confirmed, i, k) <= Latest(n.upstream, i, k)
      {
        assert Latest(s.confirmed, i, k) <= Latest(s.upstream, i, k);
      }
    }
    assert Latest(s.confirmed, mutation.identity, mutation.key) <= Latest(s.upstream, mutation.identity, mutation.key);
  }

  /** The bump of the key generation shuts out every flight that may have read the old values. */
  lemma PersistingKeepsFreshness(s: State, m: Id, mutation: Mutation, stored: bool)
    requires FreshnessInv(s) && m in s.mutations && mutation == s.mutations[m] && mutation.stage.Applied?
    ensures FreshnessInv(Persisted(s, m, mutation, stored))
  {
    var n := Persisted(s, m, mutation, stored);
    if mutation.connection == s.connectionGeneration {
      forall f | f in n.flights
        ensures FlightFresh(n.confirmed, n.keyGeneration, n.flights[f])
      {
        assert FlightFresh(s.confirmed, s.keyGeneration, s.flights[f]);
      }
      assert UpstreamAhead(n.confirmed, n.upstream) by {
        forall i: Identity, k: Key
          ensures Latest(n.confirmed, i, k) <= Latest(n.upstream, i, k)
        {
          assert Latest(s.confirmed, i, k) <= Latest(s.upstream, i, k);
        }
      }
      PersistedRowsAreFresh(s, m, mutation, stored);
    }
  }

  lemma PersistedRowsAreFresh(s: State, m: Id, mutation: Mutation, stored: bool)
    requires FreshnessInv(s) && m in s.mutations && mutation == s.mutations[m] && mutation.stage.Applied?
    ensures RowsFresh(Persisted(s, m, mutation, stored).confirmed, Persisted(s, m, mutation, stored).bindings)
  {
  }

  lemma MutationKeepsFreshness(s: State, m: Id, a: MutationAction)
    requires FreshnessInv(s) && Possible(s, OnMutation(m, a))
    ensures FreshnessInv(MutationStep(s, m, a))
  {
    match a
    case Mutate => MutatingKeepsFreshness(s, m, s.mutations[m]);
    case Persist(stored) => PersistingKeepsFreshness(s, m, s.mutations[m], stored);
    case _ =>
  }

  // ----- the rest

  lemma AdminKeepsInv(s: State, a: AdminAction)
    requires Inv(s) && AdminPossible(s, a)
    ensures Inv(AdminStep(s, a))
  {
  }

  /** A rotation starts: the generation moves on, so nobody has the new one. */
  lemma RotatingKeepsInv(s: State)
    requires Inv(s) && PutPossible(s, PutRotate)
    ensures Inv(PutStep(s, PutRotate))
  {
    var n := PutStep(s, PutRotate);
    forall f | f in n.flights && !n.flights[f].stage.Begun?
      ensures ConnectionFits(n.settings, n.connectionGeneration, n.rotating, n.flights[f].connection, n.flights[f].identity)
    {
      assert ConnectionFits(s.settings, s.connectionGeneration, s.rotating, s.flights[f].connection, s.flights[f].identity);
    }
    forall m | m in n.mutations && !n.mutations[m].stage.Started?
      ensures ConnectionFits(n.settings, n.connectionGeneration, n.rotating, n.mutations[m].connection, n.mutations[m].identity)
    {
      assert ConnectionFits(s.settings, s.connectionGeneration, s.rotating, s.mutations[m].connection, s.mutations[m].identity);
    }
  }

  /** The identity changes only while nothing of the old one is kept and nobody may still publish it. */
  lemma StoringKeepsInv(s: State, stored: bool)
    requires Inv(s) && PutPossible(s, PutStore(stored))
    ensures Inv(PutStep(s, PutStore(stored)))
  {
    var n := PutStep(s, PutStore(stored));
    forall f | f in n.flights && !n.flights[f].stage.Begun?
      ensures ConnectionFits(n.settings, n.connectionGeneration, n.rotating, n.flights[f].connection, n.flights[f].identity)
    {
      assert ConnectionFits(s.settings, s.connectionGeneration, s.rotating, s.flights[f].connection, s.flights[f].identity);
    }
    forall m | m in n.mutations && !n.mutations[m].stage.Started?
      ensures ConnectionFits(n.settings, n.connectionGeneration, n.rotating, n.mutations[m].connection, n.mutations[m].identity)
    {
      assert ConnectionFits(s.settings, s.connectionGeneration, s.rotating, s.mutations[m].connection, s.mutations[m].identity);
    }
  }

  lemma ReleasingKeepsInv(s: State)
    requires Inv(s) && PutPossible(s, PutRelease)
    ensures Inv(PutStep(s, PutRelease))
  {
    var n := PutStep(s, PutRelease);
    forall f | f in n.flights && !n.flights[f].stage.Begun?
      ensures ConnectionFits(n.settings, n.connectionGeneration, n.rotating, n.flights[f].connection, n.flights[f].identity)
    {
      assert ConnectionFits(s.settings, s.connectionGeneration, s.rotating, s.flights[f].connection, s.flights[f].identity);
    }
    forall m | m in n.mutations && !n.mutations[m].stage.Started?
      ensures ConnectionFits(n.settings, n.connectionGeneration, n.rotating, n.mutations[m].connection, n.mutations[m].identity)
    {
      assert ConnectionFits(s.settings, s.connectionGeneration, s.rotating, s.mutations[m].connection, s.mutations[m].identity);
    }
  }

  lemma PutKeepsInv(s: State, a: PutAction)
    requires Inv(s) && PutPossible(s, a)
    ensures Inv(PutStep(s, a))
  {
    match a
    case PutRotate => RotatingKeepsInv(s);
    case PutStore(stored) => StoringKeepsInv(s, stored);
    case PutRelease => ReleasingKeepsInv(s);
    case _ =>
  }

  lemma OtherKeepsInv(s: State, e: Event)
    requires Inv(s) && Possible(s, e) && (e.Setup? || e.Restart? || e.UpstreamMoves?)
    ensures Inv(Step(s, e))
  {
  }

  lemma StepKeepsInv(s: State, e: Event)
    requires Inv(s) && Possible(s, e)
    ensures Inv(Step(s, e))
  {
    match e
    case OnFlight(f, a) => FlightKeepsInv(s, f, a);
    case OnMutation(m, a) =>
      MutationKeepsConnections(s, m, a);
      MutationKeepsFreshness(s, m, a);
    case OnAdmin(a) => AdminKeepsInv(s, a);
    case OnPut(a) => PutKeepsInv(s, a);
    case _ => OtherKeepsInv(s, e);
  }

  /** The invariant holds in every reachable state. */
  lemma {:induction false} RunKeepsInv(run: Run)
    requires PossibleRun(run)
    ensures Inv(Now(run))
  {
    match run
    case Start(_) =>
    case Next(before, e) =>
      RunKeepsInv(before);
      StepKeepsInv(Now(before), e);
  }
}
