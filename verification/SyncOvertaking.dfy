/**
 When the publications of two keys syncs may be out of read order: exactly when a sync that has read its keys can
 still be overtaken by another one of the same generations.
 */
module SyncOvertaking {
  import opened Options
  import opened SyncProtocol
  import opened SyncInvariant
  import opened SyncTheorems

  /** This keys flight has not captured its generation yet, over a connection that lasts, or is still current. */
  ghost predicate CanStillPublish(s: State, g: Id) {
    && g in s.flights
    && match s.flights[g].stage
       case Begun => s.flights[g].keys
       case Connected => s.flights[g].keys && s.flights[g].connection == s.connectionGeneration
       case Captured => Current(s, s.flights[g])
  }

  /** Singleflight has forgotten this flight, so that another may start, or another is still under way. */
  ghost predicate Overtakable(s: State, f: Id) {
    s.registered != Some(f) || exists g :: g != f && CanStillPublish(s, g)
  }

  /** `run` continues `earlier`, and the flight has been under way all the time. */
  ghost predicate Stays(earlier: Run, run: Run, f: Id) {
    f in Now(run).flights && (run == earlier || (run.Next? && Stays(earlier, run.before, f)))
  }

  ghost predicate PublishesBy(run: Run, f: Id, i: Identity, k: Key, version: Version) {
    Publishes(run, i, k, version) && run.event.f == f
  }

  /** After `run` another flight publishes a newer version of the key, and then this one what it has read. */
  ghost predicate Overtaken(run: Run, newer: Run, older: Run, f: Id, i: Identity, k: Key, v: Version, w: Version) {
    && PossibleRun(older) && older.Next? && newer.Next? && Extends(newer, older.before)
    && Stays(run, newer.before, f) && Stays(newer.before, older.before, f)
    && v < w && newer.event.OnFlight? && newer.event.f != f && Publishes(newer, i, k, w)
    && PublishesBy(older, f, i, k, v)
  }

  // ----- a flight that cannot be overtaken

  /** No flight has moved, and singleflight has forgotten a call only together with a generation. */
  ghost predicate MovesOn(s: State, n: State) {
    && n.flights == s.flights && s.connectionGeneration <= n.connectionGeneration && s.keyGeneration <= n.keyGeneration
    && (n.registered == s.registered ||
        (n.registered.None? && (s.connectionGeneration < n.connectionGeneration || s.keyGeneration < n.keyGeneration)))
  }

  lemma MutationMovesOn(s: State, m: Id, a: MutationAction)
    ensures MovesOn(s, MutationStep(s, m, a))
  {
  }

  lemma AdminMovesOn(s: State, a: AdminAction)
    ensures MovesOn(s, AdminStep(s, a))
  {
  }

  lemma PutMovesOn(s: State, a: PutAction)
    ensures MovesOn(s, PutStep(s, a))
  {
  }

  lemma OthersMoveOn(s: State, e: Event)
    requires !e.OnFlight? && !e.Restart?
    ensures MovesOn(s, Step(s, e))
  {
    match e
    case OnMutation(m, a) => MutationMovesOn(s, m, a);
    case OnAdmin(a) => AdminMovesOn(s, a);
    case OnPut(a) => PutMovesOn(s, a);
    case _ =>
  }

  /** A flight that has captured its generation keeps it. */
  lemma OwnStepKeepsCapture(s: State, a: FlightAction, f: Id)
    requires f in s.flights && s.flights[f].keys && s.flights[f].stage.Captured? && FlightPossible(s, a, s.flights[f])
    requires f in FlightStep(s, f, a).flights
    ensures var n := FlightStep(s, f, a).flights[f];
            n.keys && n.stage.Captured? && n.connection == s.flights[f].connection && n.generation == s.flights[f].generation
  {
  }

  lemma FlightsKeepGenerations(s: State, o: Id, a: FlightAction)
    ensures FlightStep(s, o, a).connectionGeneration == s.connectionGeneration && FlightStep(s, o, a).keyGeneration == s.keyGeneration
  {
  }

  lemma CapturedStaysCaptured(s: State, e: Event, f: Id)
    requires Possible(s, e) && f in s.flights && s.flights[f].keys && s.flights[f].stage.Captured? && f in Step(s, e).flights
    ensures var n := Step(s, e).flights[f];
            n.keys && n.stage.Captured? && n.connection == s.flights[f].connection && n.generation == s.flights[f].generation
    ensures s.connectionGeneration <= Step(s, e).connectionGeneration && s.keyGeneration <= Step(s, e).keyGeneration
  {
    if e.OnFlight? {
      FlightsKeepGenerations(s, e.f, e.flight);
      if e.f == f {
        OwnStepKeepsCapture(s, e.flight, f);
      } else {
        OtherFlightsStay(s, e.f, e.flight, f);
      }
    } else if !e.Restart? {
      OthersMoveOn(s, e);
    }
  }

  lemma {:induction false} CapturedThroughout(earlier: Run, run: Run, f: Id)
    requires PossibleRun(run) && Stays(earlier, run, f) && f in Now(earlier).flights
    requires Now(earlier).flights[f].keys && Now(earlier).flights[f].stage.Captured?
    ensures PossibleRun(earlier)
    ensures var p, q := Now(earlier).flights[f], Now(run).flights[f];
            q.keys && q.stage.Captured? && q.connection == p.connection && q.generation == p.generation
    ensures Now(earlier).connectionGeneration <= Now(run).connectionGeneration && Now(earlier).keyGeneration <= Now(run).keyGeneration
  {
    if run != earlier {
      CapturedThroughout(earlier, run.before, f);
      CapturedStaysCaptured(Now(run.before), run.event, f);
    }
  }

  /** A step of another flight does not bring it back into the race. */
  lemma OthersStayBehind(s: State, o: Id, a: FlightAction, f: Id, g: Id)
    requires Possible(s, OnFlight(o, a)) && f in s.flights && s.registered == Some(f) && g != f && !CanStillPublish(s, g)
    requires s.flights[f].stage.Captured?
    requires f in FlightStep(s, o, a).flights
    ensures FlightStep(s, o, a).registered == Some(f) && !CanStillPublish(FlightStep(s, o, a), g)
  {
  }

  /** Nor does any other step that leaves the flight current. */
  lemma MovingOnKeepsAhead(s: State, n: State, f: Id, g: Id)
    requires ConnectionsInv(s) && FlightsFresh(s.confirmed, s.keyGeneration, s.flights) && MovesOn(s, n)
    requires f in s.flights && s.flights[f].stage.Captured? && Current(n, s.flights[f])
    requires s.registered == Some(f) && g != f && !CanStillPublish(s, g)
    ensures n.registered == Some(f) && !CanStillPublish(n, g)
  {
    assert ConnectionFits(s.settings, s.connectionGeneration, s.rotating, s.flights[f].connection, s.flights[f].identity);
    assert FlightFresh(s.confirmed, s.keyGeneration, s.flights[f]);
  }

  lemma StepKeepsAhead(s: State, e: Event, f: Id, g: Id)
    requires ConnectionsInv(s) && FlightsFresh(s.confirmed, s.keyGeneration, s.flights) && Possible(s, e)
    requires f in s.flights && s.flights[f].keys && s.flights[f].stage.Captured? && f in Step(s, e).flights
    requires Current(Step(s, e), Step(s, e).flights[f]) && s.registered == Some(f) && g != f && !CanStillPublish(s, g)
    ensures Step(s, e).registered == Some(f) && !CanStillPublish(Step(s, e), g)
  {
    CapturedStaysCaptured(s, e, f);
    if e.OnFlight? {
      OthersStayBehind(s, e.f, e.flight, f, g);
    } else if !e.Restart? {
      OthersMoveOn(s, e);
      MovingOnKeepsAhead(s, Step(s, e), f, g);
    }
  }

  lemma {:induction false} StaysAhead(earlier: Run, run: Run, f: Id)
    requires PossibleRun(run) && Stays(earlier, run, f) && f in Now(earlier).flights
    requires Now(earlier).flights[f].keys && Now(earlier).flights[f].stage.Captured?
    requires Current(Now(earlier), Now(earlier).flights[f]) && Current(Now(run), Now(run).flights[f])
    requires !Overtakable(Now(earlier), f)
    ensures !Overtakable(Now(run), f)
  {
    if run != earlier {
      CapturedThroughout(earlier, run, f);
      CapturedThroughout(earlier, run.before, f);
      CapturedStaysCaptured(Now(run.before), run.event, f);
      StaysAhead(earlier, run.before, f);
      RunKeepsInv(run.before);
      forall g | g != f
        ensures Now(run).registered == Some(f) && !CanStillPublish(Now(run), g)
      {
        StepKeepsAhead(Now(run.before), run.event, f, g);
      }
      StepKeepsAhead(Now(run.before), run.event, f, f + 1);
    }
  }

  lemma {:induction false} ExtendedIsPossible(earlier: Run, run: Run)
    requires PossibleRun(run) && Extends(earlier, run)
    ensures PossibleRun(earlier)
  {
    if run != earlier {
      ExtendedIsPossible(earlier, run.before);
    }
  }

  lemma {:induction false} OvertakenWasOvertakable(run: Run, newer: Run, older: Run, f: Id, i: Identity, k: Key, v: Version, w: Version)
    requires PossibleRun(run) && MayPublish(Now(run), f, k, v) && Overtaken(run, newer, older, f, i, k, v, w)
    ensures Overtakable(Now(run), f)
  {
    ExtendedIsPossible(newer, older.before);
    CapturedThroughout(run, newer.before, f);
    CapturedThroughout(newer.before, older.before, f);
    if !Overtakable(Now(run), f) {
      StaysAhead(run, newer.before, f);
      assert CanStillPublish(Now(newer.before), newer.event.f);
    }
  }

  // ----- a flight that can

  lemma {:induction false} FreshId(ids: set<Id>) returns (unused: Id)
    ensures unused !in ids && forall i :: i in ids ==> i < unused
    decreases |ids|
  {
    if ids == {} {
      return 0;
    }
    var i :| i in ids;
    unused := FreshId(ids - {i});
    unused := if unused <= i then i + 1 else unused;
    assert ids == (ids - {i}) + {i};
  }

  /** The call singleflight remembers is under way. */
  lemma {:induction false} RegisteredIsThere(run: Run)
    requires PossibleRun(run) && Now(run).registered.Some?
    ensures Now(run).registered.value in Now(run).flights
  {
    if run.Next? {
      if Now(run.before).registered.Some? {
        RegisteredIsThere(run.before);
      }
      RegisteredStaysThere(Now(run.before), run.event);
    }
  }

  lemma FlightKeepsRegistered(s: State, f: Id, a: FlightAction)
    requires Possible(s, OnFlight(f, a)) && (s.registered.Some? ==> s.registered.value in s.flights)
    ensures var n := FlightStep(s, f, a); n.registered.Some? ==> n.registered.value in n.flights
  {
  }

  lemma RegisteredStaysThere(s: State, e: Event)
    requires Possible(s, e) && (s.registered.Some? ==> s.registered.value in s.flights)
    ensures Step(s, e).registered.Some? ==> Step(s, e).registered.value in Step(s, e).flights
  {
    if e.OnFlight? {
      FlightKeepsRegistered(s, e.f, e.flight);
    } else if !e.Restart? {
      OthersMoveOn(s, e);
    }
  }

  /** One more step, of a run in which the flight stays. */
  lemma {:induction false} Go(origin: Run, run: Run, e: Event, f: Id) returns (longer: Run)
    requires PossibleRun(run) && Stays(origin, run, f) && Possible(Now(run), e) && f in Step(Now(run), e).flights
    ensures longer == Next(run, e) && PossibleRun(longer) && Stays(origin, longer, f) && Now(longer) == Step(Now(run), e)
  {
    longer := Next(run, e);
  }

  /** Another flight is current and has captured its generation: it reads a newer value and publishes first. */
  lemma {:induction false} CapturedOvertakes(origin: Run, run: Run, f: Id, g: Id, k: Key, v: Version)
      returns (newer: Run, older: Run, i: Identity, w: Version)
    requires PossibleRun(run) && Stays(origin, run, f) && MayPublish(Now(run), f, k, v) && g != f
    requires g in Now(run).flights && Now(run).flights[g].stage.Captured? && Current(Now(run), Now(run).flights[g])
    ensures Overtaken(origin, newer, older, f, i, k, v, w)
  {
    RunKeepsInv(run);
    ReadingsAreOld(run, f);
    i := Now(run).flights[f].identity;
    assert ConnectionFits(Now(run).settings, Now(run).connectionGeneration, Now(run).rotating, Now(run).flights[g].connection, Now(run).flights[g].identity);
    assert Now(run).flights[g].identity == i;
    w := Latest(Now(run).upstream, i, k) + 1;
    var moved := Go(origin, run, UpstreamMoves(i, k), f);
    var read := Go(origin, moved, OnFlight(g, ReadKeys({k})), f);
    newer := Go(origin, read, OnFlight(g, PublishKeys(RowsAndCache)), f);
    older := Next(newer, OnFlight(f, PublishKeys(RowsAndCache)));
    assert Stays(read, newer, f);
    assert Extends(newer, older.before);
  }

  /** A flight that has not connected yet connects. */
  lemma {:induction false} BegunConnects(origin: Run, run: Run, f: Id, g: Id, k: Key, v: Version) returns (longer: Run)
    requires PossibleRun(run) && Stays(origin, run, f) && MayPublish(Now(run), f, k, v) && g != f && CanStillPublish(Now(run), g)
    requires Now(run).flights[g].stage.Begun?
    ensures PossibleRun(longer) && Stays(origin, longer, f) && MayPublish(Now(longer), f, k, v) && CanStillPublish(Now(longer), g)
    ensures Now(longer).flights[g].stage.Connected?
  {
    longer := Go(origin, run, OnFlight(g, Connect), f);
  }

  lemma {:induction false} ConnectedCaptures(origin: Run, run: Run, f: Id, g: Id, k: Key, v: Version) returns (longer: Run)
    requires PossibleRun(run) && Stays(origin, run, f) && MayPublish(Now(run), f, k, v) && g != f && CanStillPublish(Now(run), g)
    requires Now(run).flights[g].stage.Connected?
    ensures PossibleRun(longer) && Stays(origin, longer, f) && MayPublish(Now(longer), f, k, v) && CanStillPublish(Now(longer), g)
    ensures Now(longer).flights[g].stage.Captured?
  {
    longer := Go(origin, run, OnFlight(g, Capture), f);
  }

  lemma {:induction false} LiveFlightOvertakes(origin: Run, run: Run, f: Id, g: Id, k: Key, v: Version)
      returns (newer: Run, older: Run, i: Identity, w: Version)
    requires PossibleRun(run) && Stays(origin, run, f) && MayPublish(Now(run), f, k, v) && g != f && CanStillPublish(Now(run), g)
    ensures Overtaken(origin, newer, older, f, i, k, v, w)
  {
    var longer := run;
    if Now(longer).flights[g].stage.Begun? {
      longer := BegunConnects(origin, longer, f, g, k, v);
    }
    if Now(longer).flights[g].stage.Connected? {
      longer := ConnectedCaptures(origin, longer, f, g, k, v);
    }
    newer, older, i, w := CapturedOvertakes(origin, longer, f, g, k, v);
  }

  lemma {:induction false} OvertakableIsOvertaken(run: Run, f: Id, k: Key, v: Version)
      returns (newer: Run, older: Run, i: Identity, w: Version)
    requires PossibleRun(run) && MayPublish(Now(run), f, k, v) && Overtakable(Now(run), f)
    ensures Overtaken(run, newer, older, f, i, k, v, w)
  {
    if Now(run).registered == Some(f) {
      var g :| g != f && CanStillPublish(Now(run), g);
      newer, older, i, w := LiveFlightOvertakes(run, run, f, g, k, v);
      return;
    }
    var longer := run;
    if Now(run).registered.Some? {
      RegisteredIsThere(run);
      longer := Go(run, run, OnFlight(Now(run).registered.value, EndFlight), f);
    }
    var unused := FreshId(Now(longer).flights.Keys);
    longer := Go(run, longer, OnFlight(unused, StartFlight(true)), f);
    newer, older, i, w := LiveFlightOvertakes(run, longer, f, unused, k, v);
  }

  /** A keys sync that has read a key can be overtaken, and then publish what is older, if and only if singleflight no
      longer holds new syncs back for it or another one that can still publish is under way. */
  lemma {:induction false} OutOfOrderExactlyWhen(run: Run, f: Id, k: Key, v: Version)
    requires PossibleRun(run) && MayPublish(Now(run), f, k, v)
    ensures Overtakable(Now(run), f) <==> exists newer, older, i, w :: Overtaken(run, newer, older, f, i, k, v, w)
  {
    if Overtakable(Now(run), f) {
      var newer, older, i, w := OvertakableIsOvertaken(run, f, k, v);
    }
    forall newer, older, i, w | Overtaken(run, newer, older, f, i, k, v, w)
      ensures Overtakable(Now(run), f)
    {
      OvertakenWasOvertakable(run, newer, older, f, i, k, v, w);
    }
  }
}
