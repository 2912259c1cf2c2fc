/** `State` of internal/state/state.go: fields updated in place by methods that each run
    under the mutex, so each is one atomic step. Every method is proved to do to `View()`
    exactly what the ledger function of the same name does. */
module SchedulerState {
  import opened Ledger

  class Scheduler {
    var perRepo: map<Repo, Counters>
    var reservations: map<SpawnId, Spawn>
    var draining: bool
    var teardownBlocked: bool
    var assignments: nat
    var completed: nat
    var failures: nat
    var reconciled: nat

    ghost function View(): State
      reads this
    {
      State(perRepo, reservations, draining, teardownBlocked, assignments, completed, failures, reconciled)
    }

    /** The counters say what the reservation map says. */
    ghost predicate Exact(l: State) { PhaseExact(l) && InFlightExact(l) }

    constructor ()
      ensures View() == NEW
    {
      perRepo, reservations := map[], map[];
      draining, teardownBlocked := false, false;
      assignments, completed, failures, reconciled := 0, 0, 0, 0;
    }

    /** `ensure`: the counters of a repository, created at zero when it is new. */
    method Ensure(repo: Repo) returns (c: Counters)
      modifies this`perRepo
      ensures View() == Ledger.Ensure(old(View()), repo) && c == At(View(), repo)
    {
      if repo !in perRepo { perRepo := perRepo[repo := NO_COUNTERS]; }
      c := perRepo[repo];
      assert perRepo == old(perRepo)[repo := c];
    }

    method GlobalInFlight() returns (total: nat)
      ensures total == SumInFlight(perRepo)
    {
      var rest := perRepo;
      total := 0;
      while rest != map[]
        invariant total + SumInFlight(rest) == SumInFlight(perRepo)
        decreases |rest|
      {
        var repo :| repo in rest;
        SumRemove(rest, repo);
        total := total + rest[repo].inFlight;
        rest := rest - {repo};
      }
    }

    method TryReserve(id: SpawnId, repo: Repo, repoCap: int, globalCap: int) returns (ok: bool)
      modifies this
      ensures View() == Ledger.TryReserve(old(View()), id, repo, repoCap, globalCap)
      ensures ok == Reserves(old(View()), id, repo, repoCap, globalCap)
      ensures Exact(old(View())) && id !in old(reservations) ==> (ok <==> Room(old(View()), repo, repoCap, globalCap))
      ensures id in old(reservations) ==> (ok <==> !Blocked(old(View())) && old(reservations)[id].repo == repo)
      ensures ok && id !in old(reservations) ==> reservations == old(reservations)[id := Spawn(repo, Pending)]
      ensures !ok || id in old(reservations) ==> reservations == old(reservations)
    {
      if id !in reservations { ReservesExactly(View(), id, repo, repoCap, globalCap); }
      if draining || teardownBlocked { return false; }
      if id in reservations { return reservations[id].repo == repo; }
      var c := Ensure(repo);
      var total := GlobalInFlight();
      if c.inFlight >= repoCap || total >= globalCap { return false; }
      perRepo := perRepo[repo := c.Add(Pending).(inFlight := c.inFlight + 1)];
      reservations := reservations[id := Spawn(repo, Pending)];
      assert perRepo == old(perRepo)[repo := c.Add(Pending).(inFlight := c.inFlight + 1)];
      ok := true;
    }

    method MarkOnline(id: SpawnId) returns (moved: bool)
      modifies this
      ensures View() == Ledger.MarkOnline(old(View()), id) && moved == Onlines(old(View()), id)
      ensures moved <==> id in old(reservations) && old(reservations)[id].phase == Pending
      ensures moved ==> reservations == old(reservations)[id := Spawn(old(reservations)[id].repo, Online)]
      ensures !moved ==> View() == old(View())
    {
      if id !in reservations || reservations[id].phase != Pending { return false; }
      SetPhase(id, Online);
      moved := true;
    }

    method MarkAssigned(id: SpawnId) returns (moved: bool)
      modifies this
      ensures View() == Ledger.MarkAssigned(old(View()), id) && moved == Assigns(old(View()), id)
      ensures moved <==> id in old(reservations) && old(reservations)[id].phase in {Pending, Online}
      ensures moved ==> reservations == old(reservations)[id := Spawn(old(reservations)[id].repo, Assigned)]
      ensures assignments == old(assignments) + if moved then 1 else 0
      ensures !moved ==> View() == old(View())
    {
      if id !in reservations { return false; }
      if reservations[id].phase != Pending && reservations[id].phase != Online { return false; }
      SetPhase(id, Assigned);
      assignments := assignments + 1;
      moved := true;
    }

    /** The decrement of the old phase, clamped at zero, and the increment of the new one. */
    method SetPhase(id: SpawnId, p: Phase)
      requires id in reservations
      modifies this`perRepo, this`reservations
      ensures View() == Move(old(View()), id, p)
    {
      var spawn := reservations[id];
      var c := Ensure(spawn.repo);
      c := c.Drop(spawn.phase);
      c := c.Add(p);
      perRepo := perRepo[spawn.repo := c];
      reservations := reservations[id := spawn.(phase := p)];
      assert perRepo == old(perRepo)[spawn.repo := c];
    }

    method MarkTeardownBlocked(id: SpawnId, repo: Repo) returns (marked: bool)
      modifies this
      ensures View() == Ledger.MarkTeardownBlocked(old(View()), id, repo) && marked == Blocks(old(View()), id)
      ensures marked <==> !(id in old(reservations) && old(reservations)[id].phase == TeardownBlocked)
      ensures marked ==>
                var charged := if id in old(reservations) then old(reservations)[id].repo else repo;
                reservations == old(reservations)[id := Spawn(charged, TeardownBlocked)] && teardownBlocked
      ensures failures == old(failures) + if marked then 1 else 0
      ensures !marked ==> View() == old(View())
    {
      if id in reservations && reservations[id].phase == TeardownBlocked { return false; }
      if id in reservations {
        SetPhase(id, TeardownBlocked);
      } else {
        var c := Ensure(repo);
        c := c.Add(TeardownBlocked).(inFlight := c.inFlight + 1);
        perRepo := perRepo[repo := c];
        reservations := reservations[id := Spawn(repo, TeardownBlocked)];
        assert perRepo == old(perRepo)[repo := c];
      }
      teardownBlocked := true;
      failures := failures + 1;
      marked := true;
    }

    method ResolveTeardown(id: SpawnId) returns (resolved: bool)
      modifies this
      ensures View() == Ledger.ResolveTeardown(old(View()), id) && resolved == Resolves(old(View()), id)
      ensures resolved <==> id in old(reservations) && old(reservations)[id].phase == TeardownBlocked
      ensures resolved ==> reservations == old(reservations) - {id} && reconciled == old(reconciled) + 1
      ensures resolved ==>
                (teardownBlocked <==> exists d :: d in reservations && reservations[d].phase == TeardownBlocked)
      ensures !resolved ==> View() == old(View())
    {
      if id !in reservations || reservations[id].phase != TeardownBlocked { return false; }
      ReleaseLocked(id);
      reconciled := reconciled + 1;
      teardownBlocked := false;
      var rest := reservations;
      while rest != map[] && !teardownBlocked
        modifies this`teardownBlocked
        invariant rest.Keys <= reservations.Keys
        invariant teardownBlocked ==> AnyDebt(reservations)
        invariant !teardownBlocked ==> forall d :: d in reservations && d !in rest ==>
                  !reservations[d].phase.TeardownBlocked?
        decreases |rest|
      {
        var d :| d in rest;
        if reservations[d].phase == TeardownBlocked { teardownBlocked := true; }
        rest := rest - {d};
      }
      resolved := true;
    }

    method ReleaseReservation(id: SpawnId)
      modifies this
      ensures View() == Ledger.ReleaseReservation(old(View()), id)
      ensures reservations ==
              if id in old(reservations) && old(reservations)[id].phase != TeardownBlocked
              then old(reservations) - {id} else old(reservations)
      ensures id !in old(reservations) || old(reservations)[id].phase == TeardownBlocked ==> View() == old(View())
    {
      if id !in reservations || reservations[id].phase == TeardownBlocked { return; }
      ReleaseLocked(id);
    }

    /** `releaseReservationLocked` */
    method ReleaseLocked(id: SpawnId)
      requires id in reservations
      modifies this`perRepo, this`reservations
      ensures View() == Ledger.Drop(old(View()), id)
    {
      var spawn := reservations[id];
      var c := Ensure(spawn.repo);
      if c.inFlight > 0 { c := c.(inFlight := c.inFlight - 1); }
      c := c.Drop(spawn.phase);
      perRepo := perRepo[spawn.repo := c];
      reservations := reservations - {id};
      assert perRepo == old(perRepo)[spawn.repo := c];
    }

    /** After calls that kept the counters exact, the number of runners on the way. */
    method DemandCoverage(repo: Repo) returns (n: nat)
      ensures n == At(View(), repo).Coverage()
      ensures PhaseExact(View()) ==> n == |Undelivered(reservations, repo)|
    {
      CoverageCounts(View(), repo);
      n := if repo in perRepo then perRepo[repo].pending + perRepo[repo].online else 0;
    }

    /** After such calls, whether a drain has begun or any debt is owed. */
    method SchedulingBlocked() returns (b: bool)
      ensures b == Blocked(View())
      ensures PhaseExact(View()) ==>
                (b <==> draining || exists id :: id in reservations && reservations[id].phase.TeardownBlocked?)
    {
      assert forall id :: id in Debts(reservations) <==> id in reservations && reservations[id].phase.TeardownBlocked?;
      b := draining || teardownBlocked;
    }
  }
}
