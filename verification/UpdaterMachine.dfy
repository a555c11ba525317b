/**
 The host the updater runs on: the disk, the portal service and whether the updater process is
 still alive.  Every operating-system call may fail before or after it took effect, the updater
 may be killed before or after any effect, and while the portal runs it works on its database.
 A killed process leaves `alive` false; its remaining calls return errors and change nothing.
 `mishaps` counts what went wrong and `failed` remembers the last of it, so a contract can also say what
 happens when nothing does, or only one thing.
 */
module UpdaterMachine {
  import opened Options
  import opened UpdateProtocol

  datatype ServiceState = StateActive | StateActivating | StateDeactivating | StateReloading | StateInactive | StateFailed

  /** What the portal may have done between two steps of the updater: nothing unless it runs. */
  ghost predicate PortalRan(before: World, after: World) {
    && (before.portal.Inactive? ==> after == before)
    && after.disk.backups == before.disk.backups
    && after.disk.journal == before.disk.journal
    && after.disk.status == before.disk.status
    && after.disk.files[PORTAL] == before.disk.files[PORTAL]
    && after.disk.files[UPDATER] == before.disk.files[UPDATER]
    && (before.disk.request.Some? ==> after.disk.request == before.disk.request)
    && (after.disk.request.Some? && before.disk.request.None? ==> after.disk.request.value.op !in before.history.issued)
    && after.history == before.history.(issued := after.history.issued)
    && before.history.issued <= after.history.issued
  }

  class Machine {
    var disk: Disk
    var portal: Service
    var sick: bool   // the portal was last started such that it never becomes ready
    var alive: bool
    var issued: set<OperationId>  // randomID never repeats an identifier
    ghost var history: History
    ghost var run: Run
    ghost var mishaps: nat  // failed calls, interruptions, kills, starts of a portal that never becomes ready, and exits of the portal by itself
    ghost var failed: Option<Event>  // the step that went wrong last, if it was one

    ghost function Now(): World
      reads this
    {
      World(disk, portal, history)
    }

    /** The present is where a legal run has led. */
    ghost predicate Valid()
      reads this
    {
      LegalRun(run) && Now() == End(run) && issued == history.issued
    }

    /** Nobody has come back to life, and nobody died without a mishap. */
    twostate predicate Aged()
      reads this
    {
      && old(mishaps) <= mishaps && (mishaps == old(mishaps) ==> failed == old(failed))
      && (alive ==> old(alive)) && (old(alive) && mishaps == old(mishaps) ==> alive)
    }

    /** The process was alive and nothing has gone wrong since. */
    twostate predicate Smooth()
      reads this
    {
      old(alive) && mishaps == old(mishaps)
    }

    /** The process is alive, and at most one thing has gone wrong since. */
    twostate predicate Once()
      reads this
    {
      alive && mishaps <= old(mishaps) + 1
    }

    /** No other portal process has been started meanwhile. */
    twostate predicate SamePortal()
      reads this
    {
      sick == old(sick) && (portal.Active? ==> old(portal).Active?)
    }

    /** A portal that runs is, or will be, ready. */
    ghost predicate Well()
      reads this
    {
      portal.Active? ==> !sick
    }

    lemma Sound()
      requires Valid()
      ensures Inv(Now())
    {
      RunKeepsInv(run);
    }

    constructor (files: FileMap, portal: Service, ghost reference: FileMap)
      requires files[PORTAL].Some? && files[UPDATER].Some?
      ensures Valid() && !alive && disk.files == files && this.portal == portal
    {
      disk := Disk(files, map[], None, None, None);
      this.portal := portal;
      alive, mishaps, failed := false, 0, None;
      sick := false;
      issued := {};
      var blank := Blob(0, None);
      history := History(reference, None, false, false, (blank, blank), Untouched, {}, {});
      run := Begin(World(Disk(files, map[], None, None, None), portal,
                         History(reference, None, false, false, (blank, blank), Untouched, {}, {})));
    }

    /** One legal step takes effect. */
    method Take(e: Event)
      requires Valid() && Legal(Now(), e)
      modifies `disk, `portal, `issued, `history, `run
      ensures Valid() && Now() == Step(old(Now()), e) && run == Then(old(run), e)
    {
      ghost var was := Now();
      history := StepHistory(was, e);
      disk := StepDisk(disk, e);
      portal := StepPortal(portal, e);
      issued := if e.PortalPublishes? then issued + {e.request.op} else issued;
      run := Then(run, e);
    }

    /** Something may go wrong that changes nothing on the host. */
    method Mishap() returns (happens: bool)
      modifies `mishaps, `failed
      ensures mishaps == old(mishaps) + if happens then 1 else 0
      ensures failed == if happens then None else old(failed)
    {
      happens := *;
      if happens {
        Unlucky();
      }
    }

    /** GET on the portal's readiness URL. */
    method Ready() returns (ready: bool)
      modifies `mishaps, `failed
      ensures Aged() && (ready ==> !sick) && (mishaps == old(mishaps) ==> (ready <==> !sick))
    {
      var unanswered := Mishap();
      ready := !sick && !unanswered;
    }

    /** The environment was not as the code needs it. */
    method Unlucky()
      modifies `mishaps, `failed
      ensures mishaps == old(mishaps) + 1 && failed == None
    {
      mishaps, failed := mishaps + 1, None;
    }

    /** The portal runs for a while: it writes its database, publishes a request or exits. */
    method LetPortalRun()
      requires Valid()
      modifies `disk, `portal, `issued, `history, `run, `mishaps, `failed
      ensures Valid() && PortalRan(old(Now()), Now())
      ensures Aged() && (mishaps == old(mishaps) ==> portal == old(portal))
    {
      var steps: nat := *;
      while steps > 0
        invariant Valid() && PortalRan(old(Now()), Now())
        invariant Aged() && (mishaps == old(mishaps) ==> portal == old(portal))
      {
        if portal.Active? {
          if * {
            var db: Option<Blob>, wal: Option<Blob>, shm: Option<Blob> := *, *, *;
            Take(PortalWrites(db, wal, shm));
          } else if * {
            Take(PortalExits);
            mishaps, failed := mishaps + 1, Some(PortalExits);
          } else {
            var request: Request := *;
            if disk.request.None? && request.target.Stable() && request.op !in issued {
              Take(PortalPublishes(request));
            }
          }
        }
        steps := steps - 1;
      }
    }

    /** The call takes effect; a portal it starts may never become ready. */
    method Perform(e: Event, unready: bool)
      requires Valid() && Legal(Now(), e)
      modifies `disk, `portal, `sick, `issued, `history, `run
      ensures Valid() && Now() == Step(old(Now()), e)
      ensures sick == if e.StartPortal? && old(portal).Inactive? then unready else old(sick)
    {
      if e.StartPortal? && portal.Inactive? {
        sick := unready;
      }
      Take(e);
    }

    /** The call itself: it takes effect or not, reports that or not, and may be the last of the process. */
    method Strike(e: Event) returns (ok: bool)
      requires Valid() && alive && Legal(Now(), e)
      modifies this
      ensures Valid() && (Now() == old(Now()) || Now() == Step(old(Now()), e))
      ensures ok ==> alive && Now() == Step(old(Now()), e)
      ensures if mishaps == old(mishaps) then ok && failed == old(failed) else mishaps == old(mishaps) + 1 && failed == Some(e)
      ensures !e.StartPortal? || old(portal).Active? ==> sick == old(sick)
      ensures mishaps == old(mishaps) && e.StartPortal? && old(portal).Inactive? ==> !sick
    {
      var effective: bool, killed: bool, reported: bool, unready: bool := *, *, *, *;
      if !effective || killed || reported || (e.StartPortal? && portal.Inactive? && unready) {
        mishaps, failed := mishaps + 1, Some(e);
      }
      if effective {
        Perform(e, unready);
      }
      alive := !killed;
      ok := effective && !reported && !killed;
    }

    /** One system call of the updater.  It may fail with or without its effect, and the updater may die with it. */
    method Attempt(e: Event) returns (ok: bool)
      requires Valid() && (alive ==> Legal(Now(), e))
      modifies this
      ensures Valid()
      ensures !old(alive) ==> !alive && Now() == old(Now())
      ensures ok ==> alive && PortalRan(Step(old(Now()), e), Now())
      ensures alive && !ok ==> PortalRan(old(Now()), Now()) || PortalRan(Step(old(Now()), e), Now())
      ensures Aged() && (Smooth() ==> ok && portal == StepPortal(old(portal), e))
      ensures !ok && Once() ==> failed == Some(e)
      // only a start brings about another portal process, which may never become ready
      ensures portal.Active? ==> old(portal).Active? || StepPortal(old(portal), e).Active?
      ensures !e.StartPortal? || old(portal).Active? ==> sick == old(sick)
      ensures Smooth() && e.StartPortal? && old(portal).Inactive? ==> !sick
    {
      ok := false;
      if !alive {
        return;
      }
      ok := Strike(e);
      if alive {
        LetPortalRun();
      }
    }

    /** systemctl is-active: what it prints, or None when it cannot be read. */
    method ServiceState() returns (state: Option<ServiceState>)
      requires Valid()
      modifies this
      ensures Valid() && alive == old(alive) && PortalRan(old(Now()), Now())
      ensures state.Some? ==> (state.value.StateInactive? || state.value.StateFailed? <==> old(portal).Inactive?)
      ensures Aged() && (Smooth() ==> portal == old(portal) && state.Some?)
      ensures sick == old(sick)
      ensures Smooth() && portal.Active? ==> state == Some(StateActive)
      ensures Smooth() && portal.Inactive? ==> state == Some(StateInactive) || state == Some(StateFailed)
    {
      state := None;
      if !alive {
        return;
      }
      var printed: Option<ServiceState> := *;
      if printed.Some? && (printed.value.StateInactive? || printed.value.StateFailed?) == portal.Inactive? {
        state := printed;
      }
      if state.None? || (portal.Active? && state != Some(StateActive)) {
        Unlucky();
      }
      LetPortalRun();
    }

    /** Between two processes the portal runs, exits, and is started again by anyone while no transaction is open. */
    method LetSystemRun()
      requires Valid()
      modifies `disk, `portal, `sick, `issued, `history, `run, `mishaps, `failed
      ensures Valid() && old(mishaps) <= mishaps
      ensures disk.backups == old(disk.backups) && disk.journal == old(disk.journal) && disk.status == old(disk.status)
      ensures disk.files[PORTAL] == old(disk.files[PORTAL]) && disk.files[UPDATER] == old(disk.files[UPDATER])
    {
      var starts: nat := *;
      LetPortalRun();
      while starts > 0
        invariant Valid() && old(mishaps) <= mishaps
        invariant disk.backups == old(disk.backups) && disk.journal == old(disk.journal) && disk.status == old(disk.status)
        invariant disk.files[PORTAL] == old(disk.files[PORTAL]) && disk.files[UPDATER] == old(disk.files[UPDATER])
      {
        if portal.Inactive? && disk.journal.None? {
          Take(PortalStarts);
          sick := *;
        }
        LetPortalRun();
        starts := starts - 1;
      }
    }

    /** The service manager or the operator starts an updater process. */
    method Launch()
      requires Valid()
      modifies this
      ensures Valid() && alive
    {
      LetSystemRun();
      alive := true;
    }
  }
}
