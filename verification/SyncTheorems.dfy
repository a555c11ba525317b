/** What the generation protocol guarantees in every interleaving, and the corners where more would be false. */
module SyncTheorems {
  import opened Options
  import opened SyncProtocol
  import opened SyncInvariant

  ghost predicate Extends(earlier: Run, run: Run) { run == earlier || (run.Next? && Extends(earlier, run.before)) }

  /** The last step is the confirmed mutation of this key, with the version it left. */
  ghost predicate Confirms(run: Run, i: Identity, k: Key, version: Version) {
    && run.Next? && run.event.OnMutation? && run.event.mutation.Persist?
    && var s := Now(run.before);
       && run.event.m in s.mutations && s.mutations[run.event.m].connection == s.connectionGeneration
       && s.mutations[run.event.m].identity == i && s.mutations[run.event.m].key == k && s.mutations[run.event.m].version == version
  }

  /** The last step is a keys sync that writes this version of this key, to a bound row or to the cache. */
  ghost predicate Publishes(run: Run, i: Identity, k: Key, version: Version) {
    && run.Next? && run.event.OnFlight? && run.event.flight.PublishKeys? && !run.event.flight.published.Nothing?
    && var s := Now(run.before);
       && run.event.f in s.flights && s.flights[run.event.f].connection == s.connectionGeneration
       && s.flights[run.event.f].generation == s.keyGeneration && s.flights[run.event.f].identity == i
       && k in s.flights[run.event.f].readings && s.flights[run.event.f].readings[k] == version
  }

  lemma FlightFrame(s: State, f: Id, a: FlightAction)
    ensures FlightStep(s, f, a).confirmed == s.confirmed && FlightStep(s, f, a).upstream == s.upstream
  {
  }

  lemma AdminFrame(s: State, a: AdminAction)
    ensures var n := AdminStep(s, a); n.confirmed == s.confirmed && n.upstream == s.upstream && n.flights == s.flights && n.cache == s.cache
  {
  }

  lemma PutFrame(s: State, a: PutAction)
    ensures PutStep(s, a).confirmed == s.confirmed && PutStep(s, a).upstream == s.upstream
  {
  }

  lemma PutLeavesFlights(s: State, a: PutAction)
    ensures PutStep(s, a).flights == s.flights && (PutStep(s, a).cache == s.cache || PutStep(s, a).cache == map[])
  {
  }

  lemma MutationFrame(s: State, m: Id, a: MutationAction)
    ensures var n := MutationStep(s, m, a); n.flights == s.flights && n.cache == s.cache
    ensures a.Persist? || MutationStep(s, m, a).confirmed == s.confirmed
  {
  }

  lemma StepConfirms(s: State, e: Event, i: Identity, k: Key)
    requires MutationsAhead(s.confirmed, s.upstream, s.mutations) && Possible(s, e)
    ensures Latest(s.confirmed, i, k) <= Latest(Step(s, e).confirmed, i, k)
  {
    match e
    case OnFlight(f, a) => FlightFrame(s, f, a);
    case OnAdmin(a) => AdminFrame(s, a);
    case OnPut(a) => PutFrame(s, a);
    case OnMutation(m, a) =>
      MutationFrame(s, m, a);
      if a.Persist? {
        assert Latest(s.confirmed, s.mutations[m].identity, s.mutations[m].key) < s.mutations[m].version;
      }
    case _ =>
  }

  lemma {:induction false} ConfirmationsGrow(earlier: Run, run: Run, i: Identity, k: Key)
    requires PossibleRun(run) && Extends(earlier, run)
    ensures PossibleRun(earlier) && Latest(Now(earlier).confirmed, i, k) <= Latest(Now(run).confirmed, i, k)
  {
    if run != earlier {
      ConfirmationsGrow(earlier, run.before, i, k);
      RunKeepsInv(run.before);
      StepConfirms(Now(run.before), run.event, i, k);
    }
  }

  lemma {:induction false} ConfirmedIsRecorded(run: Run, i: Identity, k: Key, version: Version)
    requires PossibleRun(run) && Confirms(run, i, k, version)
    ensures Latest(Now(run).confirmed, i, k) == version
  {
  }

  lemma {:induction false} PublishedIsFresh(run: Run, i: Identity, k: Key, version: Version)
    requires PossibleRun(run) && Publishes(run, i, k, version)
    ensures Latest(Now(run.before).confirmed, i, k) <= version
  {
    RunKeepsInv(run.before);
    var s := Now(run.before);
    assert FlightFresh(s.confirmed, s.keyGeneration, s.flights[run.event.f]);
  }

  /** A stale sync never wins: once a mutation of a key is confirmed, no later keys sync, however it interleaves,
      writes a value of that key read before the mutation took effect. */
  lemma {:induction false} StaleSyncNeverWins(mutation: Run, sync: Run, i: Identity, k: Key, confirmed: Version, published: Version)
    requires PossibleRun(sync) && sync.Next? && Extends(mutation, sync.before) && Confirms(mutation, i, k, confirmed) && Publishes(sync, i, k, published)
    ensures confirmed <= published
  {
    ConfirmationsGrow(mutation, sync.before, i, k);
    ConfirmedIsRecorded(mutation, i, k, confirmed);
    PublishedIsFresh(sync, i, k, published);
  }

  /** And conversely the values a sync may write were all read from upstream by then. */
  lemma {:induction false} PublishedWasUpstream(run: Run, i: Identity, k: Key, version: Version)
    requires PossibleRun(run) && Publishes(run, i, k, version)
    ensures version <= Latest(Now(run).upstream, i, k)
  {
    ReadingsAreOld(run.before, run.event.f);
    FlightFrame(Now(run.before), run.event.f, run.event.flight);
  }

  ghost predicate ReadingsOld(upstream: map<(Identity, Key), Version>, f: Flight) {
    forall k :: k in f.readings ==> f.readings[k] <= Latest(upstream, f.identity, k)
  }

  lemma OtherFlightsStay(s: State, o: Id, a: FlightAction, f: Id)
    requires f != o && f in FlightStep(s, o, a).flights
    ensures f in s.flights && FlightStep(s, o, a).flights[f] == s.flights[f]
  {
  }

  lemma FlightReads(s: State, f: Id, a: FlightAction)
    requires f in s.flights ==> ReadingsOld(s.upstream, s.flights[f]) && FlightFresh(s.confirmed, s.keyGeneration, s.flights[f])
    requires Possible(s, OnFlight(f, a)) && f in FlightStep(s, f, a).flights
    requires a.StartFlight? || a.Connect? || a.Capture? || a.ReadKeys?
    ensures ReadingsOld(s.upstream, FlightStep(s, f, a).flights[f])
  {
  }

  lemma LandedFlightsAreGone(s: State, f: Id, a: FlightAction)
    requires f in s.flights && (a.PublishKeys? || a.PublishAccounts? || a.PublishUsage? || a.EndFlight?)
    ensures f !in FlightStep(s, f, a).flights
  {
  }

  lemma MutationRaises(s: State, m: Id, a: MutationAction, i: Identity, k: Key)
    ensures Latest(s.upstream, i, k) <= Latest(MutationStep(s, m, a).upstream, i, k)
  {
  }

  lemma MutationKeepsReadingsOld(s: State, m: Id, a: MutationAction, f: Flight)
    requires ReadingsOld(s.upstream, f)
    ensures ReadingsOld(MutationStep(s, m, a).upstream, f)
  {
    forall k | k in f.readings
      ensures f.readings[k] <= Latest(MutationStep(s, m, a).upstream, f.identity, k)
    {
      MutationRaises(s, m, a, f.identity, k);
    }
  }

  lemma {:induction false} ReadingsAreOld(run: Run, f: Id)
    requires PossibleRun(run) && f in Now(run).flights
    ensures ReadingsOld(Now(run).upstream, Now(run).flights[f])
  {
    if run.Next? {
      RunKeepsInv(run.before);
      var s, e := Now(run.before), run.event;
      if f in s.flights {
        ReadingsAreOld(run.before, f);
      }
      match e
      case OnFlight(o, a) =>
        if o != f {
          OtherFlightsStay(s, o, a, f);
        } else if a.PublishKeys? || a.PublishAccounts? || a.PublishUsage? || a.EndFlight? {
          LandedFlightsAreGone(s, f, a);
        } else {
          FlightReads(s, f, a);
        }
        FlightFrame(s, o, a);
      case OnAdmin(a) => AdminFrame(s, a);
      case OnPut(a) =>
        PutFrame(s, a);
        PutLeavesFlights(s, a);
      case OnMutation(m, a) =>
        MutationFrame(s, m, a);
        MutationKeepsReadingsOld(s, m, a, s.flights[f]);
      case _ =>
    }
  }

  /** Connection isolation: in every reachable state, also after failed rotations and with responses still in flight,
      every cached key, binding and pool row was read over the current connection. */
  lemma {:induction false} ConnectionIsolation(run: Run)
    requires PossibleRun(run)
    ensures Isolated(Now(run))
  {
    RunKeepsInv(run);
  }

  /** A bound row older than its key's last confirmed mutation was inserted from the cache, or the store failed then. */
  lemma {:induction false} OldRowsHaveACause(run: Run, u: UserId)
    requires PossibleRun(run) && u in Now(run).bindings
    requires Now(run).bindings[u].reading.version < Latest(Now(run).confirmed, Now(run).bindings[u].reading.origin, Now(run).bindings[u].key)
    ensures !Now(run).bindings[u].source.Confirmed?
  {
    RunKeepsInv(run);
  }

  // ----- the cache

  /** This mutation left a newer version of the key while the value that is still cached was cached already. */
  ghost predicate Overtakes(mutation: Run, version: Version, run: Run, k: Key)
    requires k in Now(run).cache
  {
    && Extends(mutation, run) && Confirms(mutation, Now(run).cache[k].origin, k, version) && Now(run).cache[k].version < version
    && k in Now(mutation.before).cache && Now(mutation.before).cache[k] == Now(run).cache[k]
  }

  ghost predicate Lags(run: Run, k: Key)
    requires k in Now(run).cache
  {
    Now(run).cache[k].version < Latest(Now(run).confirmed, Now(run).cache[k].origin, k)
  }

  /** A cached value is older than the last confirmed mutation of its key if and only if a mutation overtook it. */
  lemma {:induction false} CacheLagsOnlyBehindMutations(run: Run, k: Key)
    requires PossibleRun(run) && k in Now(run).cache
    ensures Lags(run, k) <==> exists mutation, version :: Overtakes(mutation, version, run, k)
  {
    if Lags(run, k) {
      LaggingWasOvertaken(run, k);
    }
    forall mutation, version | Overtakes(mutation, version, run, k)
      ensures Lags(run, k)
    {
      ConfirmationsGrow(mutation, run, Now(run).cache[k].origin, k);
      ConfirmedIsRecorded(mutation, Now(run).cache[k].origin, k, version);
    }
  }

  lemma {:induction false} LaggingWasOvertaken(run: Run, k: Key)
    requires PossibleRun(run) && k in Now(run).cache && Lags(run, k)
    ensures exists mutation, version :: Overtakes(mutation, version, run, k)
  {
    var reading := Now(run).cache[k];
    if run.Next? {
      var before, e := run.before, run.event;
      RunKeepsInv(before);
      if Publishes(run, reading.origin, k, reading.version) {
        PublishedIsFresh(run, reading.origin, k, reading.version);
      }
      CacheChangesByPublishing(before, e, k);
      if Latest(Now(before).confirmed, reading.origin, k) == Latest(Now(run).confirmed, reading.origin, k) {
        LaggingWasOvertaken(before, k);
        var mutation, version :| Overtakes(mutation, version, before, k);
        assert Overtakes(mutation, version, run, k);
      } else {
        assert Overtakes(run, Now(before).mutations[e.m].version, run, k);
      }
    }
  }

  lemma OnlyPublishingCaches(s: State, f: Id, a: FlightAction)
    requires !a.PublishKeys?
    ensures FlightStep(s, f, a).cache == s.cache
  {
  }

  lemma PublishingCaches(s: State, f: Id, published: Publication, k: Key)
    requires Possible(s, OnFlight(f, PublishKeys(published))) && k in FlightStep(s, f, PublishKeys(published)).cache
    requires FlightStep(s, f, PublishKeys(published)).cache != s.cache
    ensures var reading := FlightStep(s, f, PublishKeys(published)).cache[k];
            && !published.Nothing? && f in s.flights
            && s.flights[f].connection == s.connectionGeneration && s.flights[f].generation == s.keyGeneration
            && s.flights[f].identity == reading.origin && k in s.flights[f].readings && s.flights[f].readings[k] == reading.version
  {
  }

  lemma {:induction false} CacheChangesByPublishing(before: Run, e: Event, k: Key)
    requires PossibleRun(before) && Possible(Now(before), e) && k in Step(Now(before), e).cache
    ensures var reading := Step(Now(before), e).cache[k];
            Publishes(Next(before, e), reading.origin, k, reading.version) || (k in Now(before).cache && Now(before).cache[k] == reading)
  {
    var s := Now(before);
    match e
    case OnFlight(f, a) =>
      if !a.PublishKeys? {
        OnlyPublishingCaches(s, f, a);
      } else if FlightStep(s, f, a).cache != s.cache {
        PublishingCaches(s, f, a.published, k);
      }
    case OnAdmin(a) => AdminFrame(s, a);
    case OnPut(a) => PutLeavesFlights(s, a);
    case OnMutation(m, a) => MutationFrame(s, m, a);
    case _ =>
  }

  lemma UpstreamOnlyMoves(s: State, e: Event, i: Identity, k: Key)
    ensures Latest(s.upstream, i, k) <= Latest(Step(s, e).upstream, i, k)
  {
    match e
    case OnFlight(f, a) => FlightFrame(s, f, a);
    case OnAdmin(a) => AdminFrame(s, a);
    case OnPut(a) => PutFrame(s, a);
    case OnMutation(m, a) => MutationRaises(s, m, a, i, k);
    case _ =>
  }

  /** What is cached was upstream at some time. */
  lemma {:induction false} CachedWasUpstream(run: Run, k: Key)
    requires PossibleRun(run) && k in Now(run).cache
    ensures Now(run).cache[k].version <= Latest(Now(run).upstream, Now(run).cache[k].origin, k)
  {
    if run.Next? {
      var reading := Now(run).cache[k];
      if Publishes(run, reading.origin, k, reading.version) {
        PublishedWasUpstream(run, reading.origin, k, reading.version);
      } else {
        CacheChangesByPublishing(run.before, run.event, k);
        CachedWasUpstream(run.before, k);
        UpstreamOnlyMoves(Now(run.before), run.event, reading.origin, k);
      }
    }
  }

  // ----- exactly when a binding is older than a confirmed mutation

  ghost predicate IsOld(confirmed: map<(Identity, Key), Version>, k: Key, reading: Reading) {
    reading.version < Latest(confirmed, reading.origin, k)
  }

  /** The snapshot a handler finds is older if and only if a mutation overtook the cached value. */
  lemma {:induction false} FoundIsOldExactlyWhen(run: Run, k: Key)
    requires PossibleRun(run) && run.Next? && run.event == OnAdmin(FindKey(k))
    ensures var (key, reading) := Found(Now(run).bindingLock);
            key == k && k in Now(run.before).cache &&
            (IsOld(Now(run).confirmed, k, reading) <==> exists mutation, version :: Overtakes(mutation, version, run.before, k))
  {
    CacheLagsOnlyBehindMutations(run.before, k);
  }

  /** And the binding it then stores is older if and only if that snapshot is. */
  lemma {:induction false} BoundIsOldExactlyWhen(run: Run, user: UserId)
    requires PossibleRun(run) && run.Next? && run.event == OnAdmin(InsertBinding(user))
    ensures user in Now(run).bindings
    ensures var b, (key, reading) := Now(run).bindings[user], Found(Now(run.before).bindingLock);
            b.key == key && b.reading == reading && (IsOld(Now(run).confirmed, b.key, b.reading) <==> IsOld(Now(run.before).confirmed, key, reading))
  {
  }

  /** The row of this user has shown this reading of this key all the time. */
  ghost predicate Kept(earlier: Run, run: Run, u: UserId, k: Key, reading: Reading) {
    && u in Now(run).bindings && Now(run).bindings[u].key == k && Now(run).bindings[u].reading == reading
    && (run == earlier || (run.Next? && Kept(earlier, run.before, u, k, reading)))
  }

  /** This insertion stored what was older already. */
  ghost predicate InsertsOld(insertion: Run, u: UserId, k: Key, reading: Reading) {
    insertion.Next? && insertion.event == OnAdmin(InsertBinding(u)) && IsOld(Now(insertion).confirmed, k, reading)
  }

  /** This mutation was confirmed, and storing it failed. */
  ghost predicate LeavesOld(mutation: Run, version: Version, k: Key, reading: Reading) {
    Confirms(mutation, reading.origin, k, version) && mutation.event == OnMutation(mutation.event.m, Persist(false)) && reading.version < version
  }

  ghost predicate OldFor(run: Run, u: UserId, k: Key, reading: Reading) {
    || (exists insertion :: Kept(insertion, run, u, k, reading) && InsertsOld(insertion, u, k, reading))
    || (exists mutation, version :: Kept(mutation, run, u, k, reading) && LeavesOld(mutation, version, k, reading))
  }

  ghost predicate RowStays(s: State, n: State, u: UserId) {
    u in n.bindings && !n.bindings[u].source.Confirmed? ==>
      u in s.bindings && s.bindings[u].key == n.bindings[u].key && s.bindings[u].reading == n.bindings[u].reading
  }

  lemma FlightRowsStay(s: State, f: Id, a: FlightAction, u: UserId)
    ensures RowStays(s, FlightStep(s, f, a), u)
  {
  }

  lemma MutationRowsStay(s: State, m: Id, a: MutationAction, u: UserId)
    ensures RowStays(s, MutationStep(s, m, a), u)
  {
  }

  lemma AdminRowsStay(s: State, a: AdminAction, u: UserId)
    requires a != InsertBinding(u)
    ensures RowStays(s, AdminStep(s, a), u)
  {
  }

  lemma PutRowsStay(s: State, a: PutAction, u: UserId)
    ensures RowStays(s, PutStep(s, a), u)
  {
  }

  /** A row no sync and no stored mutation has written is as it was before the step, unless the step inserted it. */
  lemma OldRowsStay(s: State, e: Event, u: UserId)
    requires e != OnAdmin(InsertBinding(u))
    ensures RowStays(s, Step(s, e), u)
  {
    match e
    case OnFlight(f, a) => FlightRowsStay(s, f, a, u);
    case OnMutation(m, a) => MutationRowsStay(s, m, a, u);
    case OnAdmin(a) => AdminRowsStay(s, a, u);
    case OnPut(a) => PutRowsStay(s, a, u);
    case _ =>
  }

  /** Only a confirmed mutation of its key that could not be stored makes a row older. */
  lemma OnlyConfirmationsAge(before: Run, e: Event, k: Key, reading: Reading, u: UserId)
    requires PossibleRun(before) && Possible(Now(before), e)
    requires IsOld(Step(Now(before), e).confirmed, k, reading) && !IsOld(Now(before).confirmed, k, reading)
    requires var n := Step(Now(before), e); u in n.bindings && n.bindings[u].key == k && !n.bindings[u].source.Confirmed?
    ensures exists version :: LeavesOld(Next(before, e), version, k, reading)
  {
    var s := Now(before);
    match e
    case OnFlight(f, a) => FlightFrame(s, f, a);
    case OnAdmin(a) => AdminFrame(s, a);
    case OnPut(a) => PutFrame(s, a);
    case OnMutation(m, a) =>
      MutationFrame(s, m, a);
      if a.Persist? {
        assert LeavesOld(Next(before, e), s.mutations[m].version, k, reading);
      }
    case _ =>
  }

  lemma {:induction false} KeptIsExtended(earlier: Run, run: Run, u: UserId, k: Key, reading: Reading)
    requires Kept(earlier, run, u, k, reading)
    ensures Extends(earlier, run)
  {
    if run != earlier {
      KeptIsExtended(earlier, run.before, u, k, reading);
    }
  }

  lemma {:induction false} OldRowsWereLeft(run: Run, u: UserId)
    requires PossibleRun(run) && u in Now(run).bindings
    requires IsOld(Now(run).confirmed, Now(run).bindings[u].key, Now(run).bindings[u].reading)
    ensures OldFor(run, u, Now(run).bindings[u].key, Now(run).bindings[u].reading)
  {
    var k, reading := Now(run).bindings[u].key, Now(run).bindings[u].reading;
    OldRowsHaveACause(run, u);
    var before, e := run.before, run.event;
    if e == OnAdmin(InsertBinding(u)) {
      assert Kept(run, run, u, k, reading) && InsertsOld(run, u, k, reading);
      return;
    }
    OldRowsStay(Now(before), e, u);
    if IsOld(Now(before).confirmed, k, reading) {
      OldRowsWereLeft(before, u);
      KeptLonger(before, e, u, k, reading);
    } else {
      OnlyConfirmationsAge(before, e, k, reading, u);
      var version :| LeavesOld(run, version, k, reading);
      assert Kept(run, run, u, k, reading);
    }
  }

  lemma {:induction false} KeptLonger(before: Run, e: Event, u: UserId, k: Key, reading: Reading)
    requires OldFor(before, u, k, reading)
    requires u in Now(Next(before, e)).bindings && Now(Next(before, e)).bindings[u].key == k && Now(Next(before, e)).bindings[u].reading == reading
    ensures OldFor(Next(before, e), u, k, reading)
  {
    var run := Next(before, e);
    if exists insertion :: Kept(insertion, before, u, k, reading) && InsertsOld(insertion, u, k, reading) {
      var insertion :| Kept(insertion, before, u, k, reading) && InsertsOld(insertion, u, k, reading);
      assert Kept(insertion, run, u, k, reading);
    } else {
      var mutation, version :| Kept(mutation, before, u, k, reading) && LeavesOld(mutation, version, k, reading);
      assert Kept(mutation, run, u, k, reading);
    }
  }

  /** A stored row is older than the last confirmed mutation of its key if and only if it was inserted older and kept, or
      kept under a mutation that could not be stored. */
  lemma {:induction false} RowIsOldExactlyWhen(run: Run, u: UserId)
    requires PossibleRun(run) && u in Now(run).bindings
    ensures var b := Now(run).bindings[u]; IsOld(Now(run).confirmed, b.key, b.reading) <==> OldFor(run, u, b.key, b.reading)
  {
    var k, reading := Now(run).bindings[u].key, Now(run).bindings[u].reading;
    if IsOld(Now(run).confirmed, k, reading) {
      OldRowsWereLeft(run, u);
    }
    forall insertion | Kept(insertion, run, u, k, reading) && InsertsOld(insertion, u, k, reading)
      ensures IsOld(Now(run).confirmed, k, reading)
    {
      KeptIsExtended(insertion, run, u, k, reading);
      ConfirmationsGrow(insertion, run, reading.origin, k);
    }
    forall mutation, version | Kept(mutation, run, u, k, reading) && LeavesOld(mutation, version, k, reading)
      ensures IsOld(Now(run).confirmed, k, reading)
    {
      KeptIsExtended(mutation, run, u, k, reading);
      ConfirmationsGrow(mutation, run, reading.origin, k);
      ConfirmedIsRecorded(mutation, reading.origin, k, version);
    }
  }

  // ----- corners

  lemma {:induction false} Proceed(run: Run, e: Event) returns (longer: Run)
    requires PossibleRun(run) && Possible(Now(run), e)
    ensures longer == Next(run, e) && PossibleRun(longer) && Now(longer) == Step(Now(run), e)
  {
    longer := Next(run, e);
  }

  /** A confirmed reset does not refresh the cache: binding the key anew afterwards stores the value from before. */
  lemma {:induction false} RebindInsertsAnOldValue(run: Run, user: UserId, k: Key, m: Id) returns (longer: Run)
    requires PossibleRun(run) && Now(run).settings.Some? && !Now(run).rotating && Now(run).bindingLock.Free?
    requires k in Now(run).cache && m !in Now(run).mutations && forall o :: o in Now(run).mutations ==> Now(run).mutations[o].key != k
    requires !TakenByOther(Now(run).bindings, user, k)
    ensures PossibleRun(longer) && user in Now(longer).bindings && Now(longer).bindings[user].key == k
    ensures Now(longer).bindings[user].reading == Now(run).cache[k]
    ensures IsOld(Now(longer).confirmed, k, Now(longer).bindings[user].reading)
  {
    CachedWasUpstream(run, k);
    ConnectionIsolation(run);
    longer := ConfirmedMutation(run, k, m);
    longer := Proceed(longer, OnAdmin(LockBindings));
    longer := Proceed(longer, OnAdmin(FindKey(k)));
    longer := Proceed(longer, OnAdmin(InsertBinding(user)));
  }

  /** A mutation from its start until it has taken effect upstream. */
  lemma {:induction false} MutationTakesEffect(run: Run, k: Key, m: Id) returns (longer: Run)
    requires PossibleRun(run) && Now(run).settings.Some? && !Now(run).rotating
    requires m !in Now(run).mutations && forall o :: o in Now(run).mutations ==> Now(run).mutations[o].key != k
    ensures PossibleRun(longer)
    ensures var s, n := Now(run), Now(longer);
            var version := Latest(s.upstream, s.settings.value, k) + 1;
            && n == s.(upstream := n.upstream, mutations := n.mutations)
            && n.upstream == s.upstream[(s.settings.value, k) := version]
            && m in n.mutations && n.mutations[m] == Mutation(k, Applied, s.connectionGeneration, s.settings.value, version)
  {
    longer := Proceed(run, OnMutation(m, StartMutation(k)));
    longer := Proceed(longer, OnMutation(m, ConnectMutation));
    longer := Proceed(longer, OnMutation(m, Mutate));
  }

  /** And then confirmed. */
  lemma {:induction false} ConfirmedMutation(run: Run, k: Key, m: Id) returns (longer: Run)
    requires PossibleRun(run) && Now(run).settings.Some? && !Now(run).rotating
    requires m !in Now(run).mutations && forall o :: o in Now(run).mutations ==> Now(run).mutations[o].key != k
    ensures PossibleRun(longer)
    ensures var s, n := Now(run), Now(longer);
            && n.settings == s.settings && !n.rotating && n.cache == s.cache && n.bindingLock == s.bindingLock
            && n.bindings.Keys == s.bindings.Keys && (forall u :: u in s.bindings ==> n.bindings[u].key == s.bindings[u].key)
            && Latest(s.upstream, s.settings.value, k) < Latest(n.confirmed, s.settings.value, k)
  {
    longer := MutationTakesEffect(run, k, m);
    longer := Proceed(longer, OnMutation(m, Persist(true)));
  }

  /** Nothing keeps this flight from publishing what it has read of the key. */
  ghost predicate MayPublish(s: State, f: Id, k: Key, version: Version) {
    && f in s.flights && s.flights[f].keys && s.flights[f].stage.Captured? && !s.rotating
    && s.flights[f].connection == s.connectionGeneration && s.flights[f].generation == s.keyGeneration
    && s.settings == Some(s.flights[f].identity) && k in s.flights[f].readings && s.flights[f].readings[k] == version
  }

  /** A confirmed mutation makes singleflight forget the running call. */
  lemma {:induction false} MutationForgets(run: Run, k: Key, m: Id) returns (longer: Run)
    requires PossibleRun(run) && Now(run).settings.Some? && !Now(run).rotating
    requires m !in Now(run).mutations && forall o :: o in Now(run).mutations ==> Now(run).mutations[o].key != k
    ensures PossibleRun(longer)
    ensures var s, n := Now(run), Now(longer);
            n.registered.None? && n.flights == s.flights && n.settings == s.settings && !n.rotating && n.connectionGeneration == s.connectionGeneration
  {
    longer := MutationTakesEffect(run, k, m);
    longer := Proceed(longer, OnMutation(m, Persist(true)));
  }

  /** The forgotten flight captures the new generation, and another may be started beside it. */
  lemma {:induction false} ForgottenFlightReads(run: Run, k: Key, first: Id, m: Id) returns (longer: Run)
    requires PossibleRun(run) && Now(run).settings.Some? && !Now(run).rotating && Now(run).registered.None?
    requires first !in Now(run).flights && m !in Now(run).mutations && forall o :: o in Now(run).mutations ==> Now(run).mutations[o].key != k
    ensures PossibleRun(longer) && Now(longer).registered.None?
    ensures Now(longer).flights.Keys == Now(run).flights.Keys + {first}
    ensures MayPublish(Now(longer), first, k, Latest(Now(longer).upstream, Now(longer).flights[first].identity, k))
  {
    var connected := FlightConnects(run, first);
    var forgotten := MutationForgets(connected, k, m);
    longer := ConnectedFlightReads(forgotten, first, k);
  }

  lemma {:induction false} FlightConnects(run: Run, f: Id) returns (longer: Run)
    requires PossibleRun(run) && Now(run).settings.Some? && !Now(run).rotating && Now(run).registered.None? && f !in Now(run).flights
    ensures PossibleRun(longer)
    ensures var s, n := Now(run), Now(longer);
            && n.settings == s.settings && !n.rotating && n.mutations == s.mutations && n.connectionGeneration == s.connectionGeneration
            && n.flights == s.flights[f := Flight(true, Connected, s.connectionGeneration, s.settings.value, 0, map[])]
  {
    longer := Proceed(run, OnFlight(f, StartFlight(true)));
    longer := Proceed(longer, OnFlight(f, Connect));
  }

  lemma {:induction false} ConnectedFlightReads(run: Run, f: Id, k: Key) returns (longer: Run)
    requires PossibleRun(run) && f in Now(run).flights && Now(run).settings.Some? && !Now(run).rotating
    requires Now(run).flights[f] == Flight(true, Connected, Now(run).connectionGeneration, Now(run).settings.value, 0, map[])
    ensures PossibleRun(longer) && Now(longer).registered == Now(run).registered && Now(longer).flights.Keys == Now(run).flights.Keys
    ensures MayPublish(Now(longer), f, k, Latest(Now(longer).upstream, Now(longer).flights[f].identity, k))
  {
    longer := Proceed(run, OnFlight(f, Capture));
    longer := Proceed(longer, OnFlight(f, ReadKeys({k})));
  }

  lemma {:induction false} SecondFlightReadsNewer(run: Run, k: Key, first: Id, second: Id, v: Version) returns (longer: Run)
    requires PossibleRun(run) && Now(run).registered.None? && second !in Now(run).flights && first != second
    requires MayPublish(Now(run), first, k, v) && v == Latest(Now(run).upstream, Now(run).flights[first].identity, k)
    ensures PossibleRun(longer) && MayPublish(Now(longer), first, k, v) && MayPublish(Now(longer), second, k, v + 1)
  {
    var i := Now(run).flights[first].identity;
    longer := Proceed(run, UpstreamMoves(i, k));
    longer := Proceed(longer, OnFlight(second, StartFlight(true)));
    longer := Proceed(longer, OnFlight(second, Connect));
    longer := Proceed(longer, OnFlight(second, Capture));
    longer := Proceed(longer, OnFlight(second, ReadKeys({k})));
  }

  lemma {:induction false} NewerPublishesFirst(run: Run, k: Key, first: Id, second: Id, v: Version) returns (newer: Run, older: Run, i: Identity)
    requires PossibleRun(run) && first != second && MayPublish(Now(run), first, k, v) && MayPublish(Now(run), second, k, v + 1)
    ensures PossibleRun(older) && older.Next? && older.before == newer
    ensures Publishes(newer, i, k, v + 1) && Publishes(older, i, k, v)
  {
    i := Now(run).flights[first].identity;
    newer := Proceed(run, OnFlight(second, PublishKeys(RowsAndCache)));
    older := Proceed(newer, OnFlight(first, PublishKeys(RowsAndCache)));
  }

  /** Two flights of one generation may publish out of read order: freshness holds against mutations, not between syncs. */
  lemma {:induction false} SyncsMayPublishOutOfOrder(run: Run, k: Key, first: Id, second: Id, m: Id) returns (newer: Run, older: Run, i: Identity, v: Version)
    requires PossibleRun(run) && Now(run).settings.Some? && !Now(run).rotating && Now(run).registered.None?
    requires first != second && first !in Now(run).flights && second !in Now(run).flights
    requires m !in Now(run).mutations && forall o :: o in Now(run).mutations ==> Now(run).mutations[o].key != k
    ensures PossibleRun(older) && older.Next? && older.before == newer
    ensures Publishes(newer, i, k, v + 1) && Publishes(older, i, k, v)
  {
    var forgotten := ForgottenFlightReads(run, k, first, m);
    v := Latest(Now(forgotten).upstream, Now(forgotten).flights[first].identity, k);
    var both := SecondFlightReadsNewer(forgotten, k, first, second, v);
    newer, older, i := NewerPublishesFirst(both, k, first, second, v);
  }
}
