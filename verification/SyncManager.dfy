/**
 The code of internal/syncer/manager.go, of the store calls it makes (internal/store/bindings.go, pool.go,
 setup.go) and of the handlers that meet it, one method per Go function.  Between its sections the other
 goroutines take theirs (`Yield`); when a lock is taken or the process restarts, `alive` becomes false and
 the remaining calls do nothing.  Each section is proved to be one step of SyncProtocol, so `Valid`, and
 with it every theorem of SyncTheorems, holds throughout.
 */
module SyncManager {
  import opened Options
  import opened SyncProtocol

  lemma OthersLeaveFlight(s: State, e: Event, f: Id)
    requires f in s.flights && !e.Restart? && !(e.OnFlight? && e.f == f)
    ensures f in Step(s, e).flights && Step(s, e).flights[f] == s.flights[f]
  {
    match e
    case OnFlight(o, a) => OtherFlightsStay(s, o, a, f);
    case OnMutation(m, a) => MutationLeavesFlights(s, m, a);
    case OnAdmin(a) => AdminLeavesFlights(s, a);
    case OnPut(a) => PutLeavesFlights(s, a);
    case _ =>
  }

  lemma MutationLeavesFlights(s: State, m: Id, a: MutationAction)
    ensures MutationStep(s, m, a).flights == s.flights
  {
  }

  lemma AdminLeavesFlights(s: State, a: AdminAction)
    ensures AdminStep(s, a).flights == s.flights && AdminStep(s, a).mutations == s.mutations
  {
  }

  lemma FlightLeavesMutations(s: State, f: Id, a: FlightAction)
    ensures FlightStep(s, f, a).mutations == s.mutations
  {
  }

  lemma OtherFlightsStay(s: State, o: Id, a: FlightAction, f: Id)
    requires f != o && f in s.flights
    ensures f in FlightStep(s, o, a).flights && FlightStep(s, o, a).flights[f] == s.flights[f]
  {
  }

  lemma PutLeavesFlights(s: State, a: PutAction)
    ensures PutStep(s, a).flights == s.flights && PutStep(s, a).mutations == s.mutations
  {
  }

  lemma OthersLeaveMutation(s: State, e: Event, m: Id)
    requires m in s.mutations && !e.Restart? && !(e.OnMutation? && e.m == m)
    ensures m in Step(s, e).mutations && Step(s, e).mutations[m] == s.mutations[m]
  {
    match e
    case OnMutation(o, a) => OtherMutationsStay(s, o, a, m);
    case OnFlight(f, a) => FlightLeavesMutations(s, f, a);
    case OnAdmin(a) => AdminLeavesFlights(s, a);
    case OnPut(a) => PutLeavesFlights(s, a);
    case _ =>
  }

  lemma OtherMutationsStay(s: State, o: Id, a: MutationAction, m: Id)
    requires m != o && m in s.mutations
    ensures m in MutationStep(s, o, a).mutations && MutationStep(s, o, a).mutations[m] == s.mutations[m]
  {
  }

  // ----- store

  /** ApplyKeySnapshots: an update for every bound key, one after the other. */
  method ApplyKeySnapshots(bindings: map<UserId, Binding>, identity: Identity, readings: map<Key, Version>) returns (updated: map<UserId, Binding>)
    ensures updated == AppliedSnapshots(bindings, identity, readings)
    // every row of a listed key shows what was read of it, and the others are as they were
    ensures updated.Keys == bindings.Keys
    ensures forall u :: u in bindings && bindings[u].key in readings ==>
              updated[u].key == bindings[u].key && updated[u].reading == Reading(identity, readings[bindings[u].key])
    ensures forall u :: u in bindings && bindings[u].key !in readings ==> updated[u] == bindings[u]
  {
    updated := bindings;
    var ids := set u | u in bindings :: bindings[u].key;
    while ids != {}
      invariant updated.Keys == bindings.Keys
      invariant forall u :: u in bindings ==>
                  updated[u] == if bindings[u].key !in ids then AppliedSnapshots(bindings, identity, readings)[u] else bindings[u]
      decreases |ids|
    {
      var id :| id in ids;
      ids := ids - {id};
      if id in readings {
        updated := map u | u in updated :: if updated[u].key == id then Binding(id, Reading(identity, readings[id]), Confirmed) else updated[u];
      }
    }
  }

  /** ApplyPoolInventory: an upsert for every account. */
  method ApplyPoolInventory(pool: map<Account, PoolRow>, identity: Identity, accounts: set<Account>) returns (updated: map<Account, PoolRow>)
    ensures updated == AppliedInventory(pool, identity, accounts)
    // every listed account has a row of this connection, and the others are as they were
    ensures updated.Keys == pool.Keys + accounts && forall a :: a in accounts ==> updated[a].origin == identity
    ensures forall a :: a in pool && a !in accounts ==> updated[a] == pool[a]
  {
    updated := pool;
    NothingUpserted(pool, identity);
    var left := accounts;
    ghost var done: set<Account> := {};
    while left != {}
      invariant forall a :: a in accounts <==> a in left || a in done
      invariant forall a :: a in left ==> a !in done
      invariant updated == AppliedInventory(pool, identity, done)
      decreases |left|
    {
      var a :| a in left;
      OneMoreUpsert(pool, identity, done, a);
      updated := updated[a := Upserted(updated, a, identity, true)];
      left, done := left - {a}, done + {a};
    }
    assert done == accounts;
  }

  lemma NothingUpserted(pool: map<Account, PoolRow>, identity: Identity)
    ensures AppliedInventory(pool, identity, {}) == pool
  {
  }

  lemma OneMoreUpsert(pool: map<Account, PoolRow>, identity: Identity, done: set<Account>, a: Account)
    requires a !in done
    ensures var updated := AppliedInventory(pool, identity, done);
            updated[a := Upserted(updated, a, identity, true)] == AppliedInventory(pool, identity, done + {a})
  {
  }

  class Process {
    var state: State  // Manager's fields, the store's rows and what the other goroutines hold
    var alive: bool
    ghost var run: Run
    ghost var mishaps: nat  // failed calls, restarts of the process, and locks that stay taken

    /** Nobody has come back to life, and nobody has ended without a mishap. */
    twostate predicate Aged()
      reads this
    {
      old(mishaps) <= mishaps && (alive ==> old(alive)) && (old(alive) && mishaps == old(mishaps) ==> alive)
    }

    /** The goroutine was at work and nothing has gone wrong since. */
    twostate predicate Smooth()
      reads this
    {
      old(alive) && mishaps == old(mishaps)
    }

    method Fails() returns (failed: bool)
      modifies `mishaps
      ensures mishaps == old(mishaps) + if failed then 1 else 0
    {
      failed := *;
      mishaps := mishaps + if failed then 1 else 0;
    }

    method Interrupt()
      modifies `alive, `mishaps
      ensures !alive && mishaps == old(mishaps) + 1
    {
      alive, mishaps := false, mishaps + 1;
    }

    /** The present is where a possible run has led. */
    ghost predicate Valid()
      reads this
    {
      PossibleRun(run) && Now(run) == state
    }

    constructor (upstream: map<(Identity, Key), Version>)
      ensures Valid() && !alive
    {
      state := State(None, map[], map[], 0, false, 0, map[], None, map[], map[], Free, None, upstream, map[]);
      alive, mishaps := false, 0;
      run := Start(State(None, map[], map[], 0, false, 0, map[], None, map[], map[], Free, None, upstream, map[]));
    }

    /** The section that has just ended was one step of the protocol. */
    ghost method Record(e: Event)
      requires PossibleRun(run) && Possible(Now(run), e) && state == Step(Now(run), e)
      modifies `run
      ensures Valid() && run == Next(old(run), e)
    {
      run := Next(run, e);
    }

    ghost predicate Flying(f: Id, flight: Flight)
      reads this
    {
      alive ==> f in state.flights && state.flights[f] == flight
    }

    ghost predicate Mutating(m: Id, mutation: Mutation)
      reads this
    {
      alive ==> m in state.mutations && state.mutations[m] == mutation
    }

    /** Other goroutines run; this one's flight stays where it is. */
    method YieldFlight(f: Id, ghost flight: Flight)
      requires Valid() && Flying(f, flight)
      modifies this
      ensures Valid() && Flying(f, flight) && Aged()
    {
      var steps: nat := *;
      while steps > 0
        invariant Valid() && Flying(f, flight) && Aged()
      {
        var e: Event := *;
        if Possible(state, e) && !(e.OnFlight? && e.f == f) {
          if e.Restart? {
            Interrupt();
          }
          if alive {
            OthersLeaveFlight(state, e, f);
          }
          state := Step(state, e);
          Record(e);
        }
        steps := steps - 1;
      }
    }

    method YieldMutation(m: Id, ghost mutation: Mutation)
      requires Valid() && Mutating(m, mutation)
      modifies this
      ensures Valid() && Mutating(m, mutation) && Aged()
    {
      var steps: nat := *;
      while steps > 0
        invariant Valid() && Mutating(m, mutation) && Aged()
      {
        var e: Event := *;
        if Possible(state, e) && !(e.OnMutation? && e.m == m) {
          if e.Restart? {
            Interrupt();
          }
          if alive {
            OthersLeaveMutation(state, e, m);
          }
          state := Step(state, e);
          Record(e);
        }
        steps := steps - 1;
      }
    }

    // ----- sections of manager.go

    /** connectionSettings, for a sync: the generation and the settings belong together. */
    method ConnectionSettings(f: Id, ghost flight: Flight) returns (connection: nat, identity: Identity)
      requires Valid() && Flying(f, flight) && flight.stage.Begun?
      modifies this
      ensures Valid() && Aged() && Flying(f, flight.(stage := Connected, connection := connection, identity := identity))
    {
      YieldFlight(f, flight);
      if state.rotating || state.settings.None? {
        Interrupt();  // waiting for connectionMu, or ErrNotFound
      }
      connection, identity := state.connectionGeneration, CurrentIdentity(state);
      if alive {
        state := FlightTo(state, f, state.flights[f].(stage := Connected, connection := connection, identity := identity));
        Record(OnFlight(f, Connect));
      }
    }

    /** The generation a keys sync will have to find unchanged. */
    method CaptureGeneration(f: Id, ghost flight: Flight) returns (generation: nat)
      requires Valid() && Flying(f, flight) && flight.stage.Connected? && flight.keys
      modifies this
      ensures Valid() && Aged() && Flying(f, flight.(stage := Captured, generation := generation))
    {
      YieldFlight(f, flight);
      generation := state.keyGeneration;
      if alive {
        state := FlightTo(state, f, state.flights[f].(stage := Captured, generation := generation));
        Record(OnFlight(f, Capture));
      }
    }

    /** Every listed key has been read. */
    static ghost predicate ReadAll(pages: seq<set<Key>>, read: Flight) {
      forall i, k :: 0 <= i < |pages| && k in pages[i] ==> k in read.readings
    }

    /** The last step of the run was this one. */
    ghost predicate JustDid(e: Event)
      reads this
    {
      run.Next? && run.event == e
    }

    /** This flight, as it was before the last step, could still publish. */
    ghost predicate WasCurrent(flight: Flight)
      reads this
    {
      run.Next? && Current(Now(run.before), flight)
    }

    /** Before the last step the rows and the cache were these. */
    ghost predicate WroteNothing()
      reads this
    {
      run.Next? && state.bindings == Now(run.before).bindings && state.cache == Now(run.before).cache
    }

    /** Since the last step the rows of the listed keys and the cache show what the flight has read, and nothing else has changed. */
    ghost predicate ShowsList(flight: Flight)
      reads this
    {
      && run.Next? && state.bindings.Keys == Now(run.before).bindings.Keys
      && (forall u :: u in state.bindings ==>
            var was, now := Now(run.before).bindings[u], state.bindings[u];
            if was.key in flight.readings
            then now.key == was.key && now.reading == Reading(flight.identity, flight.readings[was.key])
            else now == was)
      && state.cache.Keys == flight.readings.Keys
      && (forall k :: k in flight.readings ==> state.cache[k] == Reading(flight.identity, flight.readings[k]))
    }

    /** Since the last step every row of the mutation's key shows what it left, and nothing else has changed. */
    ghost predicate ShowsMutation(mutation: Mutation)
      reads this
    {
      && run.Next? && state.bindings.Keys == Now(run.before).bindings.Keys && state.cache == Now(run.before).cache
      && forall u :: u in state.bindings ==>
           var was, now := Now(run.before).bindings[u], state.bindings[u];
           if was.key == mutation.key
           then now.key == was.key && now.reading == Reading(mutation.identity, mutation.version)
           else now == was
    }

    /** ListAPIKeys, page by page. */
    method ListKeys(f: Id, ghost flight: Flight, pages: seq<set<Key>>) returns (ghost read: Flight)
      requires Valid() && Flying(f, flight) && flight.stage.Captured?
      modifies this
      ensures Valid() && Aged() && Flying(f, read) && read == flight.(readings := read.readings)
      ensures alive ==> ReadAll(pages, read)
    {
      read := flight;
      for page := 0 to |pages|
        invariant Valid() && Aged() && Flying(f, read) && read == flight.(readings := read.readings)
        invariant alive ==> ReadAll(pages[..page], read)
      {
        YieldFlight(f, read);
        assert pages[..page + 1] == pages[..page] + [pages[page]];
        if alive {
          var answer := Listing(state.upstream, state.flights[f].identity, pages[page]);
          state := FlightTo(state, f, state.flights[f].(readings := state.flights[f].readings + answer));
          Record(OnFlight(f, ReadKeys(pages[page])));
          read := state.flights[f];
        }
      }
    }

    /** The publication of syncKeys: under connectionMu and keySnapshotMu, only if neither generation has moved on. */
    method PublishKeyList(f: Id, ghost flight: Flight)
      requires Valid() && Flying(f, flight) && flight.stage.Captured?
      modifies this
      ensures Valid() && !alive && old(mishaps) <= mishaps
      // a stale flight only ends; a current one writes the rows and the cache
      ensures Smooth() ==> JustDid(OnFlight(f, PublishKeys(if WasCurrent(flight) then RowsAndCache else Nothing)))
      ensures Smooth() ==> f in Now(run.before).flights && Now(run.before).flights[f] == flight
      ensures Smooth() ==> if WasCurrent(flight) then ShowsList(flight) else WroteNothing()
    {
      YieldFlight(f, flight);
      if !alive || state.rotating {
        Interrupt();  // still waiting for connectionMu
        return;
      }
      var published := Nothing;
      var fetched := state.flights[f];
      var rows, keys := state.bindings, state.cache;
      if fetched.connection == state.connectionGeneration {
        if fetched.generation == state.keyGeneration {
          var fails := Fails();
          if !fails {
            published := RowsOnly;
            rows := ApplyKeySnapshots(rows, fetched.identity, fetched.readings);
            fails := Fails();  // MarkSync
            if !fails {
              published := RowsAndCache;
              keys := ReadingsOf(fetched);
            }
          }
        }
      }
      Publish(f, fetched, published, rows, keys);
    }

    /** The locks are released and the singleflight call ends. */
    method Publish(f: Id, fetched: Flight, published: Publication, rows: map<UserId, Binding>, keys: map<Key, Reading>)
      requires Valid() && f in state.flights && state.flights[f] == fetched && fetched.stage.Captured? && !state.rotating
      requires !Current(state, fetched) ==> published.Nothing?
      requires rows == if published.Nothing? then state.bindings else AppliedSnapshots(state.bindings, fetched.identity, fetched.readings)
      requires keys == if published.RowsAndCache? then ReadingsOf(fetched) else state.cache
      modifies this
      ensures Valid() && !alive && state.bindings == rows && state.cache == keys && mishaps == old(mishaps)
      ensures JustDid(OnFlight(f, PublishKeys(published))) && run.before == old(run)
      ensures published.RowsAndCache? ==> ShowsList(fetched)
      ensures published.Nothing? ==> WroteNothing()
    {
      state := Landed(state, f).(bindings := rows, cache := keys);
      alive := false;
      Record(OnFlight(f, PublishKeys(published)));
    }

    /** syncOne for keys. */
    method SyncKeys(f: Id, pages: seq<set<Key>>) returns (ghost flight: Flight)
      requires Valid() && Flying(f, Flight(true, Begun, 0, 0, 0, map[]))
      modifies this
      ensures Valid() && !alive && old(mishaps) <= mishaps
      ensures Smooth() ==> ReadAll(pages, flight)
      ensures Smooth() ==> JustDid(OnFlight(f, PublishKeys(if WasCurrent(flight) then RowsAndCache else Nothing)))
      ensures Smooth() ==> f in Now(run.before).flights && Now(run.before).flights[f] == flight
      ensures Smooth() ==> if WasCurrent(flight) then ShowsList(flight) else WroteNothing()
    {
      flight := Flight(true, Begun, 0, 0, 0, map[]);
      var connection, identity := ConnectionSettings(f, flight);
      flight := flight.(stage := Connected, connection := connection, identity := identity);
      var generation := CaptureGeneration(f, flight);
      flight := flight.(stage := Captured, generation := generation);
      flight := ListKeys(f, flight, pages);
      var failed := Fails();
      if failed {
        EndSync(f, flight);
        return;
      }
      PublishKeyList(f, flight);
    }

    /** An error of the upstream call: only error codes are stored, and those only if nothing has moved on. */
    method EndSync(f: Id, ghost flight: Flight)
      requires Valid() && Flying(f, flight)
      modifies this
      ensures Valid() && !alive && old(mishaps) <= mishaps && (Smooth() ==> JustDid(OnFlight(f, EndFlight)))
    {
      YieldFlight(f, flight);
      if alive {
        state := Landed(state, f);
        alive := false;
        Record(OnFlight(f, EndFlight));
      }
    }

    /** syncOne for accounts. */
    method SyncAccounts(f: Id, accounts: set<Account>)
      requires Valid() && Flying(f, Flight(false, Begun, 0, 0, 0, map[]))
      modifies this
      ensures Valid() && !alive && old(mishaps) <= mishaps && (Smooth() ==> JustDid(OnFlight(f, PublishAccounts(accounts))))
    {
      ghost var flight := Flight(false, Begun, 0, 0, 0, map[]);
      var connection, identity := ConnectionSettings(f, flight);
      flight := flight.(stage := Connected, connection := connection, identity := identity);
      YieldFlight(f, flight);
      if !alive || state.rotating {
        Interrupt();  // still waiting for connectionMu
        return;
      }
      var rows := state.pool;
      if connection == state.connectionGeneration {
        rows := ApplyPoolInventory(rows, identity, accounts);
      }
      PublishRows(f, accounts, rows);
    }

    method PublishRows(f: Id, accounts: set<Account>, rows: map<Account, PoolRow>)
      requires Valid() && f in state.flights && state.flights[f].stage.Connected? && !state.flights[f].keys && !state.rotating
      requires rows == if state.flights[f].connection == state.connectionGeneration
                       then AppliedInventory(state.pool, state.flights[f].identity, accounts) else state.pool
      modifies this
      ensures Valid() && !alive && state.pool == rows && mishaps == old(mishaps) && JustDid(OnFlight(f, PublishAccounts(accounts)))
    {
      state := Landed(state, f).(pool := rows);
      alive := false;
      Record(OnFlight(f, PublishAccounts(accounts)));
    }

    // ----- ResetQuota and SetKeyLimits

    /** Both functions of the syncer: the upstream call, then the section that persists a confirmed answer. */
    method ConfirmMutation(m: Id, key: Key) returns (ghost mutation: Mutation)
      requires Valid() && Mutating(m, Mutation(key, Started, 0, 0, 0))
      modifies this
      ensures Valid() && !alive && old(mishaps) <= mishaps && (Smooth() ==> JustDid(OnMutation(m, Persist(true))))
      ensures mutation.key == key && (Smooth() ==> if WasConnected(mutation) then ShowsMutation(mutation) else WroteNothing())
    {
      mutation := Mutation(key, Started, 0, 0, 0);
      var connection, identity := MutationSettings(m, mutation);
      mutation := mutation.(stage := Ready, connection := connection, identity := identity);
      var unanswered := Fails();
      if unanswered {
        EndMutationCall(m, mutation);
        return;
      }
      var version := CallUpstream(m, mutation);
      mutation := mutation.(stage := Applied, version := version);
      PersistConfirmed(m, mutation);
    }

    /** The connection the mutation was made over was still the current one before the last step. */
    ghost predicate WasConnected(mutation: Mutation)
      reads this
    {
      run.Next? && mutation.connection == Now(run.before).connectionGeneration
    }

    /** connectionSettings, for a mutation. */
    method MutationSettings(m: Id, ghost mutation: Mutation) returns (connection: nat, identity: Identity)
      requires Valid() && Mutating(m, mutation) && mutation.stage.Started?
      modifies this
      ensures Valid() && Aged() && Mutating(m, mutation.(stage := Ready, connection := connection, identity := identity))
    {
      YieldMutation(m, mutation);
      if state.rotating || state.settings.None? {
        Interrupt();
      }
      connection, identity := state.connectionGeneration, CurrentIdentity(state);
      if alive {
        state := state.(mutations := state.mutations[m := state.mutations[m].(stage := Ready, connection := connection, identity := identity)]);
        Record(OnMutation(m, ConnectMutation));
      }
    }

    method EndMutationCall(m: Id, ghost mutation: Mutation)
      requires Valid() && Mutating(m, mutation)
      modifies this
      ensures Valid() && !alive && old(mishaps) <= mishaps && (Smooth() ==> JustDid(OnMutation(m, EndMutation)))
    {
      YieldMutation(m, mutation);
      if alive {
        state := state.(mutations := state.mutations - {m});
        alive := false;
        Record(OnMutation(m, EndMutation));
      }
    }

    method CallUpstream(m: Id, ghost mutation: Mutation) returns (version: Version)
      requires Valid() && Mutating(m, mutation) && mutation.stage.Ready?
      modifies this
      ensures Valid() && Aged() && Mutating(m, mutation.(stage := Applied, version := version))
      ensures alive ==> version == Latest(state.upstream, mutation.identity, mutation.key)
      ensures alive ==> JustDid(OnMutation(m, Mutate)) && version == Latest(Now(run.before).upstream, mutation.identity, mutation.key) + 1
    {
      YieldMutation(m, mutation);
      version := 0;
      if alive {
        var target := state.mutations[m];
        version := Latest(state.upstream, target.identity, target.key) + 1;
        state := state.(upstream := state.upstream[(target.identity, target.key) := version],
                        mutations := state.mutations[m := target.(stage := Applied, version := version)]);
        Record(OnMutation(m, Mutate));
      }
    }

    /** Under connectionMu and keySnapshotMu: the generation moves on first, then the row is written. */
    method PersistConfirmed(m: Id, ghost mutation: Mutation)
      requires Valid() && Mutating(m, mutation) && mutation.stage.Applied?
      modifies this
      ensures Valid() && !alive && old(mishaps) <= mishaps && (Smooth() ==> JustDid(OnMutation(m, Persist(true))))
      ensures Smooth() ==> if WasConnected(mutation) then ShowsMutation(mutation) else WroteNothing()
    {
      YieldMutation(m, mutation);
      if !alive || state.rotating {
        Interrupt();  // still waiting for connectionMu
        return;
      }
      var target := state.mutations[m];
      var failed := Fails();
      var stored := !failed;
      if target.connection != state.connectionGeneration {
        state := state.(mutations := state.mutations - {m});
      } else {
        state := state.(mutations := state.mutations - {m}, keyGeneration := state.keyGeneration + 1, registered := None,
                        confirmed := state.confirmed[(target.identity, target.key) := target.version],
                        bindings := AppliedMutation(state.bindings, target.key, Reading(target.identity, target.version), stored));
      }
      alive := false;
      Record(OnMutation(m, Persist(stored)));
    }

    // ----- putSettings

    /** BeginConnectionRotation; connectionMu stays locked until the settings are stored. */
    method BeginConnectionRotation()
      requires Valid() && PutPossible(state, PutRotate)
      modifies this
      ensures Valid() && state.rotating && state.cache == map[] && state.connectionGeneration == old(state.connectionGeneration) + 1
      ensures PutAt(state, Rotating) && state.settings == old(state.settings) && state.put.value.next == old(state.put.value.next)
    {
      state := state.(rotating := true, connectionGeneration := state.connectionGeneration + 1, registered := None);
      state := PutTo(state.(cache := map[]), Rotating);
      Record(OnPut(PutRotate));
    }

    /** UpdateSettings with rotateConnection: refused while anything is bound or published. */
    method UpdateSettings() returns (stored: bool)
      requires Valid() && PutAt(state, Rotating)
      modifies this
      ensures Valid() && PutAt(state, Stored)
      ensures stored ==> old(state.bindings) == map[] && state.settings == Some(old(state.put.value.next)) && state.pool == map[]
      ensures !stored ==> state.settings == old(state.settings) && state.pool == old(state.pool)
      ensures mishaps == old(mishaps) ==> (stored <==> old(state.bindings) == map[] && !Published(old(state.pool)))
      ensures stored ==> forall a :: a in old(state.pool) ==> !old(state.pool)[a].published
    {
      var fails := Fails();
      stored := !fails && state.bindings == map[] && !Published(state.pool);
      if stored {
        state := state.(pool := map[], settings := Some(state.put.value.next));
      }
      state := PutTo(state, Stored);
      Record(OnPut(PutStore(stored)));
    }
  }
}
