/**
 What a reachable state shows after each writer of the rows and the cache, said of the state itself, and what
 follows over whole runs: a confirmed and stored mutation is shown from then on, and what a keys sync writes
 was upstream at some moment after it captured its generation.
 */
module SyncEffects {
  import opened Options
  import opened SyncProtocol
  import opened SyncInvariant
  import opened SyncTheorems

  // ----- keys syncs

  /** The last step is the publication of this flight. */
  ghost predicate Lands(run: Run, flight: Flight, published: Publication) {
    && run.Next? && run.event.OnFlight? && run.event.flight == PublishKeys(published)
    && run.event.f in Now(run.before).flights && Now(run.before).flights[run.event.f] == flight
  }

  /** Neither generation has moved on since the flight captured it. */
  ghost predicate InTime(s: State, flight: Flight) { flight.connection == s.connectionGeneration && flight.generation == s.keyGeneration }

  /** A keys sync in time whose transaction succeeds gives every row of a listed key what it has read of that key, and
      touches no other row; and the cache then holds exactly the listed keys with those readings. */
  lemma {:induction false} SyncReachesRows(run: Run, flight: Flight, published: Publication)
    requires PossibleRun(run) && Lands(run, flight, published) && InTime(Now(run.before), flight) && !published.Nothing?
    ensures Now(run).bindings.Keys == Now(run.before).bindings.Keys
    ensures forall u :: u in Now(run).bindings && Now(run.before).bindings[u].key in flight.readings ==>
              && Now(run).bindings[u].key == Now(run.before).bindings[u].key
              && Now(run).bindings[u].reading == Reading(flight.identity, flight.readings[Now(run).bindings[u].key])
    ensures forall u :: u in Now(run).bindings && Now(run.before).bindings[u].key !in flight.readings ==>
              Now(run).bindings[u] == Now(run.before).bindings[u]
    ensures published.RowsAndCache? ==>
              && Now(run).cache.Keys == flight.readings.Keys
              && forall k :: k in flight.readings ==> Now(run).cache[k] == Reading(flight.identity, flight.readings[k])
    ensures published.RowsOnly? ==> Now(run).cache == Now(run.before).cache
  {
  }

  /** A stale flight, or one whose transaction fails, writes nothing. */
  lemma {:induction false} StaleSyncWritesNothing(run: Run, flight: Flight, published: Publication)
    requires PossibleRun(run) && Lands(run, flight, published) && (!InTime(Now(run.before), flight) || published.Nothing?)
    ensures Now(run).bindings == Now(run.before).bindings && Now(run).cache == Now(run.before).cache
  {
  }

  /** What a keys sync has changed, in a row or in the cache, is not older than any mutation confirmed before. */
  lemma {:induction false} ChangedRowsAreFresh(mutation: Run, run: Run, flight: Flight, published: Publication, u: UserId, confirmed: Version)
    requires PossibleRun(run) && Lands(run, flight, published) && u in Now(run).bindings
    requires Now(run.before).bindings[u] != Now(run).bindings[u]
    requires Extends(mutation, run.before) && Confirms(mutation, Now(run).bindings[u].reading.origin, Now(run).bindings[u].key, confirmed)
    ensures confirmed <= Now(run).bindings[u].reading.version
  {
    if InTime(Now(run.before), flight) && !published.Nothing? {
      SyncReachesRows(run, flight, published);
      var b := Now(run).bindings[u];
      StaleSyncNeverWins(mutation, run, b.reading.origin, b.key, confirmed, b.reading.version);
    } else {
      StaleSyncWritesNothing(run, flight, published);
    }
  }

  lemma {:induction false} ChangedCacheIsFresh(mutation: Run, run: Run, flight: Flight, published: Publication, k: Key, confirmed: Version)
    requires PossibleRun(run) && Lands(run, flight, published) && k in Now(run).cache
    requires k in Now(run.before).cache ==> Now(run.before).cache[k] != Now(run).cache[k]
    requires Extends(mutation, run.before) && Confirms(mutation, Now(run).cache[k].origin, k, confirmed)
    ensures confirmed <= Now(run).cache[k].version
  {
    if InTime(Now(run.before), flight) && !published.Nothing? {
      SyncReachesRows(run, flight, published);
      StaleSyncNeverWins(mutation, run, Now(run).cache[k].origin, k, confirmed, Now(run).cache[k].version);
    } else {
      StaleSyncWritesNothing(run, flight, published);
    }
  }

  /** At `moment` of the run upstream held this version of the key, and the flight had captured its generation. */
  ghost predicate ReadAt(moment: Run, run: Run, f: Id, i: Identity, k: Key, version: Version) {
    && Extends(moment, run) && f in Now(moment).flights && Now(moment).flights[f].stage.Captured?
    && Now(moment).flights[f].identity == i && Latest(Now(moment).upstream, i, k) == version
  }

  lemma FlightsBefore(s: State, e: Event, f: Id)
    requires f in Step(s, e).flights && !(e.OnFlight? && e.f == f)
    ensures f in s.flights && Step(s, e).flights[f] == s.flights[f]
  {
    match e
    case OnFlight(o, a) => OtherFlightsStay(s, o, a, f);
    case OnMutation(m, a) => MutationFrame(s, m, a);
    case OnAdmin(a) => AdminFrame(s, a);
    case OnPut(a) => PutLeavesFlights(s, a);
    case _ =>
  }

  /** Every reading of a flight is what upstream held at some moment after the flight captured its generation. */
  lemma {:induction false} ReadingWasUpstream(run: Run, f: Id, k: Key)
    requires PossibleRun(run) && f in Now(run).flights && k in Now(run).flights[f].readings
    ensures exists moment :: ReadAt(moment, run, f, Now(run).flights[f].identity, k, Now(run).flights[f].readings[k])
  {
    var flight := Now(run).flights[f];
    RunKeepsInv(run);
    var before, e := run.before, run.event;
    var s := Now(before);
    if e.OnFlight? && e.f == f && e.flight.ReadKeys? && k in e.flight.listed {
      FlightFrame(s, f, e.flight);
      assert Extends(run, run) && ReadAt(run, run, f, flight.identity, k, flight.readings[k]);
    } else {
      if e.OnFlight? && e.f == f {
        RunKeepsInv(before);
        EarlierReading(s, f, e.flight, k);
      } else {
        FlightsBefore(s, e, f);
      }
      ReadingWasUpstream(before, f, k);
      var moment :| ReadAt(moment, before, f, flight.identity, k, flight.readings[k]);
      assert ReadAt(moment, run, f, flight.identity, k, flight.readings[k]);
    }
  }

  lemma EarlierReading(s: State, f: Id, a: FlightAction, k: Key)
    requires Possible(s, OnFlight(f, a)) && f in FlightStep(s, f, a).flights && k in FlightStep(s, f, a).flights[f].readings
    requires a.ReadKeys? ==> k !in a.listed
    requires f in s.flights && !s.flights[f].stage.Captured? ==> s.flights[f].readings == map[]
    ensures f in s.flights && k in s.flights[f].readings
    ensures FlightStep(s, f, a).flights[f].readings[k] == s.flights[f].readings[k] && FlightStep(s, f, a).flights[f].identity == s.flights[f].identity
  {
  }

  // ----- mutations

  /** A confirmed mutation that is stored shows in every row of its key, and touches no other row; one that cannot be
      stored changes what no row shows. */
  lemma {:induction false} MutationReachesRows(run: Run, i: Identity, k: Key, version: Version)
    requires PossibleRun(run) && Confirms(run, i, k, version)
    ensures Now(run).bindings.Keys == Now(run.before).bindings.Keys
    ensures forall u :: u in Now(run).bindings ==> Now(run).bindings[u].key == Now(run.before).bindings[u].key
    ensures forall u :: u in Now(run).bindings && Now(run).bindings[u].key == k && run.event.mutation.stored ==>
              Now(run).bindings[u].reading == Reading(i, version)
    ensures forall u :: u in Now(run).bindings && (Now(run).bindings[u].key != k || !run.event.mutation.stored) ==>
              Now(run).bindings[u].reading == Now(run.before).bindings[u].reading
    ensures Now(run).cache == Now(run.before).cache
  {
  }

  /** A mutation answered over a connection that is gone changes no row and confirms nothing. */
  lemma {:induction false} StaleMutationWritesNothing(run: Run)
    requires PossibleRun(run) && run.Next? && run.event.OnMutation? && run.event.mutation.Persist?
    requires Now(run.before).mutations[run.event.m].connection != Now(run.before).connectionGeneration
    ensures Now(run) == Now(run.before).(mutations := Now(run.before).mutations - {run.event.m})
  {
  }

  /** The user has been bound to this key ever since, without being bound anew. */
  ghost predicate StaysBound(earlier: Run, run: Run, u: UserId, k: Key) {
    && u in Now(run).bindings && Now(run).bindings[u].key == k
    && (run == earlier || (run.Next? && run.event != OnAdmin(InsertBinding(u)) && StaysBound(earlier, run.before, u, k)))
  }

  /** No keys sync and no later mutation takes a stored mutation back: its row shows at least its version, over the same
      connection, for as long as the user stays bound. */
  lemma {:induction false} StoredMutationIsShown(mutation: Run, run: Run, i: Identity, k: Key, version: Version, u: UserId)
    requires PossibleRun(run) && StaysBound(mutation, run, u, k)
    requires Confirms(mutation, i, k, version) && mutation.event.mutation.stored
    ensures Extends(mutation, run) && Now(run).bindings[u].reading.origin == i && version <= Now(run).bindings[u].reading.version
  {
    if run == mutation {
      MutationReachesRows(run, i, k, version);
    } else {
      StoredMutationIsShown(mutation, run.before, i, k, version, u);
      ConfirmationsGrow(mutation, run.before, i, k);
      ConfirmedIsRecorded(mutation, i, k, version);
      RowsGrow(run, u);
    }
  }

  /** This row is as new as it was, or as the last confirmed mutation of its key, over the same connection. */
  ghost predicate RowGrows(s: State, n: State, u: UserId)
    requires u in s.bindings && u in n.bindings
  {
    var k, was, now := s.bindings[u].key, s.bindings[u].reading, n.bindings[u].reading;
    now.origin == was.origin && (was.version <= now.version || Latest(s.confirmed, was.origin, k) <= now.version)
  }

  lemma {:induction false} SyncGrowsRows(run: Run, u: UserId)
    requires PossibleRun(run) && run.Next? && run.event.OnFlight? && run.event.flight.PublishKeys? && u in Now(run.before).bindings
    ensures u in Now(run).bindings && RowGrows(Now(run.before), Now(run), u)
  {
    var s, a := Now(run.before), run.event.flight;
    RunKeepsInv(run.before);
    var flight := s.flights[run.event.f];
    if InTime(s, flight) && !a.published.Nothing? {
      SyncReachesRows(run, flight, a.published);
      var k := s.bindings[u].key;
      if k in flight.readings {
        PublishedIsFresh(run, flight.identity, k, flight.readings[k]);
      }
    } else {
      StaleSyncWritesNothing(run, flight, a.published);
    }
  }

  lemma {:induction false} MutationGrowsRows(run: Run, u: UserId)
    requires PossibleRun(run) && run.Next? && run.event.OnMutation? && run.event.mutation.Persist? && u in Now(run.before).bindings
    ensures u in Now(run).bindings && RowGrows(Now(run.before), Now(run), u)
  {
    var s := Now(run.before);
    RunKeepsInv(run.before);
    var mutation := s.mutations[run.event.m];
    if mutation.connection == s.connectionGeneration {
      MutationReachesRows(run, mutation.identity, mutation.key, mutation.version);
      assert Latest(s.confirmed, mutation.identity, mutation.key) < mutation.version;
    } else {
      StaleMutationWritesNothing(run);
    }
  }

  /** No step but a new binding makes a row older than the last confirmed mutation of its key leaves it. */
  lemma {:induction false} RowsGrow(run: Run, u: UserId)
    requires PossibleRun(run) && run.Next? && run.event != OnAdmin(InsertBinding(u))
    requires u in Now(run.before).bindings && u in Now(run).bindings
    ensures RowGrows(Now(run.before), Now(run), u)
  {
    var s := Now(run.before);
    match run.event
    case OnFlight(f, a) =>
      if a.PublishKeys? {
        SyncGrowsRows(run, u);
      } else {
        OnlyPublishingWrites(s, f, a);
      }
    case OnMutation(m, a) =>
      if a.Persist? {
        MutationGrowsRows(run, u);
      } else {
        OnlyPersistingWrites(s, m, a);
      }
    case OnAdmin(a) => AdminLeavesOtherRows(s, a, u);
    case OnPut(a) => PutLeavesRows(s, a);
    case _ =>
  }

  lemma OnlyPersistingWrites(s: State, m: Id, a: MutationAction)
    requires !a.Persist?
    ensures MutationStep(s, m, a).bindings == s.bindings
  {
  }

  lemma AdminLeavesOtherRows(s: State, a: AdminAction, u: UserId)
    requires a != InsertBinding(u) && u in s.bindings && u in AdminStep(s, a).bindings
    ensures AdminStep(s, a).bindings[u] == s.bindings[u]
  {
  }

  // ----- bindings and pool rows

  /** A handler's snapshot is what the cache held for its key at some moment while it has been holding bindingMu. */
  ghost predicate CachedThen(moment: Run, run: Run, k: Key, reading: Reading) {
    && Extends(moment, run) && Now(moment).bindingLock.Binder?
    && k in Now(moment).cache && Now(moment).cache[k] == reading
  }

  lemma {:induction false} FoundWasCached(run: Run)
    requires PossibleRun(run) && Now(run).bindingLock.Binder? && Now(run).bindingLock.found.Some?
    ensures var (k, reading) := Now(run).bindingLock.found.value; exists moment :: CachedThen(moment, run, k, reading)
  {
    var (k, reading) := Now(run).bindingLock.found.value;
    var before, e := run.before, run.event;
    if e == OnAdmin(FindKey(k)) {
      assert CachedThen(before, run, k, reading) by {
        assert Extends(before, before);
      }
    } else {
      LookupStays(Now(before), e);
      FoundWasCached(before);
      var moment :| CachedThen(moment, before, k, reading);
      assert CachedThen(moment, run, k, reading);
    }
  }

  lemma LookupStays(s: State, e: Event)
    requires Possible(s, e) && Step(s, e).bindingLock.Binder? && Step(s, e).bindingLock.found.Some?
    requires e != OnAdmin(FindKey(Step(s, e).bindingLock.found.value.0))
    ensures s.bindingLock == Step(s, e).bindingLock
  {
    match e
    case OnFlight(f, a) => FlightLeavesLookup(s, f, a);
    case OnMutation(m, a) => MutationLeavesLookup(s, m, a);
    case OnAdmin(a) => AdminLeavesLookup(s, a);
    case OnPut(a) => PutLeavesLookup(s, a);
    case _ =>
  }

  lemma AdminLeavesLookup(s: State, a: AdminAction)
    requires AdminPossible(s, a) && AdminStep(s, a).bindingLock.Binder? && AdminStep(s, a).bindingLock.found.Some?
    requires a != FindKey(AdminStep(s, a).bindingLock.found.value.0)
    ensures AdminStep(s, a).bindingLock == s.bindingLock
  {
  }

  lemma PutLeavesLookup(s: State, a: PutAction)
    requires PutStep(s, a).bindingLock.Binder?
    ensures PutStep(s, a).bindingLock == s.bindingLock
  {
  }

  lemma FlightLeavesLookup(s: State, f: Id, a: FlightAction)
    ensures FlightStep(s, f, a).bindingLock == s.bindingLock
  {
  }

  lemma MutationLeavesLookup(s: State, m: Id, a: MutationAction)
    ensures MutationStep(s, m, a).bindingLock == s.bindingLock
  {
  }

  /** A new binding stores the key and the values the cache held while its handler was holding bindingMu, for this user
      alone, and no other user has the key. */
  lemma {:induction false} BindingStoresWhatWasCached(run: Run, user: UserId)
    requires PossibleRun(run) && run.Next? && run.event == OnAdmin(InsertBinding(user))
    ensures user in Now(run).bindings
    ensures var b := Now(run).bindings[user];
            && (exists moment :: CachedThen(moment, run.before, b.key, b.reading))
            && forall u :: u in Now(run).bindings && u != user ==>
                 u in Now(run.before).bindings && Now(run).bindings[u] == Now(run.before).bindings[u] && Now(run).bindings[u].key != b.key
    ensures Now(run).bindings.Keys == Now(run.before).bindings.Keys + {user}
  {
    FoundWasCached(run.before);
  }

  lemma {:induction false} UnbindingRemovesOneRow(run: Run, user: UserId)
    requires PossibleRun(run) && run.Next? && run.event == OnAdmin(DeleteBinding(user))
    ensures user !in Now(run).bindings
    ensures forall u :: u != user ==> (u in Now(run).bindings <==> u in Now(run.before).bindings)
    ensures forall u :: u in Now(run).bindings ==> Now(run).bindings[u] == Now(run.before).bindings[u]
  {
  }

  ghost predicate BoundOnce(bindings: map<UserId, Binding>) {
    forall u, v :: u in bindings && v in bindings && bindings[u].key == bindings[v].key ==> u == v
  }

  /** No step gives one key to two users. */
  lemma {:induction false} KeysAreBoundOnce(run: Run)
    requires PossibleRun(run)
    ensures BoundOnce(Now(run).bindings)
  {
    if run.Next? {
      KeysAreBoundOnce(run.before);
      var s := Now(run.before);
      match run.event
      case OnFlight(f, a) => FlightKeepsKeys(s, f, a);
      case OnMutation(m, a) => MutationKeepsKeys(s, m, a);
      case OnAdmin(a) => AdminBindsOnce(s, a);
      case OnPut(a) => PutLeavesRows(s, a);
      case _ =>
    }
  }

  lemma AdminBindsOnce(s: State, a: AdminAction)
    requires AdminPossible(s, a) && BoundOnce(s.bindings)
    ensures BoundOnce(AdminStep(s, a).bindings)
  {
  }

  lemma FlightKeepsKeys(s: State, f: Id, a: FlightAction)
    ensures FlightStep(s, f, a).bindings.Keys == s.bindings.Keys
    ensures forall u :: u in s.bindings ==> FlightStep(s, f, a).bindings[u].key == s.bindings[u].key
  {
  }

  lemma MutationKeepsKeys(s: State, m: Id, a: MutationAction)
    ensures MutationStep(s, m, a).bindings.Keys == s.bindings.Keys
    ensures forall u :: u in s.bindings ==> MutationStep(s, m, a).bindings[u].key == s.bindings[u].key
  {
  }

  /** An accounts sync over the current connection gives every listed account a row of that connection, new ones
      unpublished, and keeps what administrators decided and what the other rows say. */
  lemma {:induction false} InventoryReachesRows(run: Run, accounts: set<Account>)
    requires PossibleRun(run) && run.Next? && run.event.OnFlight? && run.event.flight == PublishAccounts(accounts)
    ensures var s, n, flight := Now(run.before), Now(run).pool, Now(run.before).flights[run.event.f];
            if flight.connection != s.connectionGeneration then n == s.pool
            else
              && n.Keys == s.pool.Keys + accounts
              && (forall a :: a in accounts ==> n[a].origin == flight.identity)
              && (forall a :: a in accounts && a !in s.pool ==> !n[a].published && n[a].usage.None?)
              && (forall a :: a in accounts && a in s.pool ==> n[a].published == s.pool[a].published && n[a].usage == s.pool[a].usage)
              && (forall a :: a in s.pool && a !in accounts ==> n[a] == s.pool[a])
  {
    var s := Now(run.before);
    if s.flights[run.event.f].connection == s.connectionGeneration {
      InventoryRows(s, run.event.f, accounts);
    }
  }

  /** New settings are stored exactly while nothing is bound and no pool account is published; the pool is then empty and
      the connection is the new one.  Otherwise nothing changes but the put. */
  lemma {:induction false} SettingsAreStoredExactlyWhen(run: Run)
    requires PossibleRun(run) && PutAt(Now(run), Rotating)
    ensures Possible(Now(run), OnPut(PutStore(true))) <==>
              (forall u :: u !in Now(run).bindings) && (forall a :: a in Now(run).pool ==> !Now(run).pool[a].published)
    ensures var n := Step(Now(run), OnPut(PutStore(true)));
            n.settings == Some(Now(run).put.value.next) && n.pool == map[] && n.bindings == Now(run).bindings && n.cache == Now(run).cache
    ensures var n := Step(Now(run), OnPut(PutStore(false)));
            n.settings == Now(run).settings && n.pool == Now(run).pool && n.bindings == Now(run).bindings && n.cache == Now(run).cache
  {
    if exists u :: u in Now(run).bindings {
      var u :| u in Now(run).bindings;
      assert Now(run).bindings != map[];
    } else {
      assert Now(run).bindings == map[];
    }
  }

  /** A usage sync marks exactly the listed accounts that have a row, and adds none. */
  lemma {:induction false} UsageReachesRows(run: Run, accounts: set<Account>)
    requires PossibleRun(run) && run.Next? && run.event.OnFlight? && run.event.flight == PublishUsage(accounts)
    ensures var s, n, flight := Now(run.before), Now(run).pool, Now(run.before).flights[run.event.f];
            if flight.connection != s.connectionGeneration then n == s.pool
            else
              && n.Keys == s.pool.Keys
              && forall a :: a in s.pool ==>
                   n[a].origin == s.pool[a].origin && n[a].published == s.pool[a].published &&
                   n[a].usage == if a in accounts then Some(flight.identity) else s.pool[a].usage
  {
  }

  lemma InventoryRows(s: State, f: Id, accounts: set<Account>)
    requires f in s.flights && s.flights[f].connection == s.connectionGeneration
    ensures var n := FlightStep(s, f, PublishAccounts(accounts)).pool;
            && n.Keys == s.pool.Keys + accounts
            && forall a :: a in n ==> n[a] == Upserted(s.pool, a, s.flights[f].identity, a in accounts)
  {
  }

  lemma OnlyPublishingWrites(s: State, f: Id, a: FlightAction)
    requires !a.PublishKeys?
    ensures FlightStep(s, f, a).bindings == s.bindings && FlightStep(s, f, a).settings == s.settings
  {
  }

  lemma PutLeavesRows(s: State, a: PutAction)
    ensures PutStep(s, a).bindings == s.bindings
  {
  }
}
