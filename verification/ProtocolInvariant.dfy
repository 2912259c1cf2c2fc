/** The invariant of the running orchestrator and the proof that every event keeps it. */
module ProtocolInvariant {
  import opened Ledger
  import opened Worker
  import opened Protocol

  /** The ledger is exact and within every cap. */
  ghost predicate LedgerOk(c: Config, l: State) {
    && PhaseExact(l) && InFlightExact(l)
    && (forall r {:trigger CapOf(c, r)} :: |InRepo(l.reservations, r)| <= CapOf(c, r))
    && |l.reservations| <= c.globalMax
  }

  /** Intent `i` is held at `o` and nowhere else, and names its own repository. */
  predicate Holds(b: Book, i: Intent, o: Owner) {
    && i.id in b.issued && b.issued[i.id] == i.repo
    && i.id in b.owner && b.owner[i.id] == o
  }

  predicate QueueOk(s: Sys) {
    && (forall k :: 0 <= k < |s.queue| ==> Holds(s.book, s.queue[k], Channel))
    && (forall j, k :: 0 <= j < k < |s.queue| ==> s.queue[j].id != s.queue[k].id)
  }

  predicate SlotsOk(s: Sys) {
    forall w :: 0 <= w < |s.slots| && s.slots[w].Busy? ==> Holds(s.book, s.slots[w].intent, Worker(w))
  }

  predicate Queued(s: Sys, id: SpawnId) { exists k :: 0 <= k < |s.queue| && s.queue[k].id == id }

  /** Every issued spawn is exactly where the book says, and in the condition its owner expects. */
  predicate SpawnOk(s: Sys, id: SpawnId)
    requires id in s.book.owner
  {
    var v := Look(s, id);
    match s.book.owner[id]
    case PollerHand => s.poller.Hand? && s.poller.intent.id == id && Fresh(v)
    case Channel => Queued(s, id) && Fresh(v)
    case Worker(w) =>
      && w < |s.slots| && s.slots[w].Busy? && s.slots[w].intent.id == id
      && Fits(s.slots[w].pc, v, s.control.workersCancelled)
    case Nobody => Settled(v, s.control.workersCancelled)
  }

  predicate SpawnsOk(s: Sys) {
    && s.book.owner.Keys == s.book.issued.Keys
    && forall id :: id in s.book.owner ==> SpawnOk(s, id)
  }

  /** Nothing exists that was not issued, and reservations carry their spawn's repository. */
  predicate Known(s: Sys) {
    && (forall id :: id in s.ledger.reservations ==>
          id in s.book.issued && s.book.issued[id] == s.ledger.reservations[id].repo)
    && s.world.stacks <= s.book.issued.Keys && s.world.registrations <= s.book.issued.Keys
    && s.book.delivered <= s.book.issued.Keys && s.book.finished <= s.book.issued.Keys
  }

  predicate Totals(s: Sys) {
    s.ledger.assignments == |s.book.delivered| && s.ledger.completed == |s.book.finished|
  }

  predicate ControlOk(c: Config, s: Sys) {
    var k := s.control;
    && |s.slots| == c.globalMax
    && !k.misused
    && (k.closed ==> s.poller.Stopped?)
    && (k.closed <==> k.at.Draining? || k.at.Forcing? || k.at.ForcedDrain? || k.at.Done?)
    && (forall w :: 0 <= w < |s.slots| && s.slots[w].Exited? ==> k.closed && s.queue == [])
    && (k.at.Done? && k.at.workersStopped ==> AllExited(s))
  }

  ghost predicate FillOk(c: Config, s: Sys, f: Fill, extra: nat) {
    && f.repo in c.caps
    && f.queued <= Demand(s.book, f.repo)
    && f.made + extra <= f.toSpawn
    && f.toSpawn == Min(Max(f.queued - f.coverage, 0), f.avail)
    && At(s.ledger, f.repo).Coverage() <= f.coverage + f.made + extra
  }

  /** Pending plus online runners never exceed the longest queue the repository has shown. */
  ghost predicate Covered(s: Sys) { forall r :: CoveredAt(s.ledger, s.book, r) }

  predicate CoveredAt(l: State, b: Book, r: Repo) { At(l, r).Coverage() <= Demand(b, r) }

  ghost predicate PollerAt(c: Config, s: Sys) {
    match s.poller
    case Visit(repo, queued) => repo in c.caps && queued <= Demand(s.book, repo)
    case RepoRead(repo, queued, _) => repo in c.caps && queued <= Demand(s.book, repo)
    case GlobalRead(repo, queued, _) => repo in c.caps && queued <= Demand(s.book, repo)
    case Filling(f) => FillOk(c, s, f, 0)
    case Hand(i, f) => FillOk(c, s, f, 1) && i.repo == f.repo && Holds(s.book, i, PollerHand)
    case _ => true
  }

  ghost predicate PollerOk(c: Config, s: Sys) { Covered(s) && PollerAt(c, s) }

  ghost predicate Inv(c: Config, s: Sys) {
    && LedgerOk(c, s.ledger)
    && QueueOk(s) && SlotsOk(s) && SpawnsOk(s) && Known(s)
    && Totals(s) && ControlOk(c, s) && PollerOk(c, s)
  }

  lemma InitInv(c: Config)
    ensures Inv(c, Init(c))
  {
    NewIsExact();
    forall r ensures |InRepo(NEW.reservations, r)| <= CapOf(c, r) {
      assert InRepo(NEW.reservations, r) == {};
    }
  }

  // ------------------------------------------------ a call on one spawn is local

  /** A worker's call changes nothing of any other spawn. */
  lemma OwnCallIsLocal(c: Config, s: Sys, i: Intent, call: Call)
    requires OwnCall(i.id, Look(s, i.id), call)
    ensures var l' := Apply(s.ledger, call);
            && l'.reservations.Keys <= s.ledger.reservations.Keys
            && (forall id :: id in l'.reservations ==> l'.reservations[id].repo == s.ledger.reservations[id].repo)
            && (forall id :: id != i.id && id in s.ledger.reservations ==>
                  id in l'.reservations && l'.reservations[id] == s.ledger.reservations[id])
  {
  }

  /** Of its own spawn it changes what `AfterCall` says. */
  lemma OwnCallSeen(c: Config, s: Sys, i: Intent, call: Call)
    requires OwnCall(i.id, Look(s, i.id), call)
    ensures var l' := Apply(s.ledger, call);
            && var v' := AfterCall(Look(s, i.id), call, EnvOf(c, s, i));
               && v'.held == (i.id in l'.reservations)
               && v'.phase == (if i.id in l'.reservations then l'.reservations[i.id].phase else Pending)
               && v'.stack == (i.id in s.world.stacks) && v'.registered == (i.id in s.world.registrations)
  {
  }

  lemma OwnCallKeepsLedger(c: Config, l: State, l': State, call: Call)
    requires LedgerOk(c, l) && l' == Apply(l, call) && IsReservationCall(call)
    requires l'.reservations.Keys <= l.reservations.Keys
    requires forall id :: id in l'.reservations ==> l'.reservations[id].repo == l.reservations[id].repo
    ensures LedgerOk(c, l')
  {
    ApplyKeepsPhases(l, call);
    ApplyKeepsInFlight(l, call);
    forall r ensures |InRepo(l'.reservations, r)| <= CapOf(c, r) {
      SubsetSize(InRepo(l'.reservations, r), InRepo(l.reservations, r));
    }
    SubsetSize(l'.reservations.Keys, l.reservations.Keys);
  }

  lemma {:induction false} SubsetSize(a: set<SpawnId>, b: set<SpawnId>)
    requires a <= b
    ensures |a| <= |b|
  {
    if a != {} {
      var x :| x in a;
      SubsetSize(a - {x}, b - {x});
    }
  }

  // ------------------------------------------------------------- a worker's step

  /** A worker's step, as the facts about it that the rest of the proof needs. */
  ghost predicate WorkerMoves(c: Config, s: Sys, w: nat, i: Intent, a: Act, s': Sys) {
    && w < |s.slots| && s.slots[w].Busy? && s.slots[w].intent == i
    && s' == Commit(c, s, w, i, a)
    && Kept(i.id, Look(s, i.id), EnvOf(c, s, i), a)
  }

  lemma WorkerKeepsLedger(c: Config, s: Sys, w: nat, i: Intent, a: Act, s': Sys)
    requires LedgerOk(c, s.ledger) && WorkerMoves(c, s, w, i, a, s')
    ensures LedgerOk(c, s'.ledger)
  {
    if a.effect.Calls? {
      OwnCallIsLocal(c, s, i, a.effect.call);
      OwnCallKeepsLedger(c, s.ledger, s'.ledger, a.effect.call);
    }
  }

  lemma WorkerOwnView(c: Config, s: Sys, w: nat, i: Intent, a: Act, s': Sys)
    requires WorkerMoves(c, s, w, i, a, s')
    ensures Look(s', i.id) == ViewAfter(Look(s, i.id), a.effect, EnvOf(c, s, i))
  {
    if a.effect.Calls? { OwnCallSeen(c, s, i, a.effect.call); }
  }

  lemma WorkerOtherView(c: Config, s: Sys, w: nat, i: Intent, a: Act, s': Sys, id: SpawnId)
    requires WorkerMoves(c, s, w, i, a, s') && id != i.id
    ensures Look(s', id) == Look(s, id)
  {
    if a.effect.Calls? { OwnCallIsLocal(c, s, i, a.effect.call); }
  }

  lemma WorkerKeepsSpawns(c: Config, s: Sys, w: nat, i: Intent, a: Act, s': Sys)
    requires QueueOk(s) && SlotsOk(s) && SpawnsOk(s) && Known(s) && WorkerMoves(c, s, w, i, a, s')
    ensures QueueOk(s') && SlotsOk(s') && SpawnsOk(s')
  {
    assert Holds(s.book, i, Worker(w));
    forall id | id in s'.book.owner ensures SpawnOk(s', id) {
      assert SpawnOk(s, id);
      if id == i.id { WorkerOwnView(c, s, w, i, a, s'); }
      else { WorkerOtherView(c, s, w, i, a, s', id); }
    }
  }

  lemma WorkerKeepsKnown(c: Config, s: Sys, w: nat, i: Intent, a: Act, s': Sys)
    requires SlotsOk(s) && Known(s) && WorkerMoves(c, s, w, i, a, s')
    ensures Known(s')
  {
    assert Holds(s.book, i, Worker(w));
    if a.effect.Calls? { OwnCallIsLocal(c, s, i, a.effect.call); }
  }

  lemma WorkerKeepsTotals(c: Config, s: Sys, w: nat, i: Intent, a: Act, s': Sys)
    requires Totals(s) && WorkerMoves(c, s, w, i, a, s')
    ensures Totals(s')
  {
    if a.effect.Calls? {
      CallTotals(s.ledger, a.effect.call);
      NotYetCounted(s, i, a.effect.call);
    }
  }

  lemma NotYetCounted(s: Sys, i: Intent, call: Call)
    requires OwnCall(i.id, Look(s, i.id), call)
    ensures call.SetAssigned? ==> i.id !in s.book.delivered && call.id == i.id
    ensures call.Complete? ==> i.id !in s.book.finished
  {
  }

  lemma CallTotals(l: State, c: Call)
    ensures Apply(l, c).assignments == l.assignments + One(c.SetAssigned? && Assigns(l, c.id))
    ensures Apply(l, c).completed == l.completed + One(c.Complete?)
  {
  }

  lemma MoveCoverage(l: State, id: SpawnId, p: Phase, r: Repo)
    requires id in l.reservations && !EmptyPhase(l, id)
    requires Rank(l.reservations[id].phase) < Rank(p)
    ensures At(Move(l, id, p), r).Coverage() <= At(l, r).Coverage()
  {
  }

  lemma DropCoverage(l: State, id: SpawnId, r: Repo)
    requires id in l.reservations
    ensures At(Drop(l, id), r).Coverage() <= At(l, r).Coverage()
  {
  }

  /** No worker call ever raises a repository's coverage of queued demand. */
  lemma CallCoverage(l: State, id: SpawnId, v: View, c: Call, r: Repo)
    requires CountsMatch(l) && OwnCall(id, v, c) && v.held == (id in l.reservations)
    ensures At(Apply(l, c), r).Coverage() <= At(l, r).Coverage()
  {
    if id in l.reservations {
      HeldIsCounted(l, id);
      match c
      case SetOnline(_) => if Onlines(l, id) { MoveCoverage(l, id, Online, r); }
      case SetAssigned(_) => if Assigns(l, id) { MoveCoverage(l, id, Assigned, r); }
      case Block(_, _) => if Blocks(l, id) { MoveCoverage(l, id, TeardownBlocked, r); }
      case Resolve(_) => if Resolves(l, id) { DropCoverage(l, id, r); }
      case Release(_) => if Blocks(l, id) { DropCoverage(l, id, r); }
      case Complete =>
    }
  }

  /** The poller's knowledge survives any step that does not raise coverage. */
  lemma PollerFrame(c: Config, s: Sys, s': Sys)
    requires PollerOk(c, s) && s'.poller == s.poller && s'.book.demand == s.book.demand
    requires forall r {:trigger At(s'.ledger, r)} :: At(s'.ledger, r).Coverage() <= At(s.ledger, r).Coverage()
    requires s.poller.Hand? ==> Holds(s'.book, s.poller.intent, PollerHand)
    ensures PollerOk(c, s')
  {
    forall r ensures CoveredAt(s'.ledger, s'.book, r) {
      assert CoveredAt(s.ledger, s.book, r);
    }
  }

  lemma WorkerKeepsPoller(c: Config, s: Sys, w: nat, i: Intent, a: Act, s': Sys)
    requires PhaseExact(s.ledger) && PollerOk(c, s) && SlotsOk(s) && WorkerMoves(c, s, w, i, a, s')
    ensures PollerOk(c, s')
  {
    assert Holds(s.book, i, Worker(w));
    forall r ensures At(s'.ledger, r).Coverage() <= At(s.ledger, r).Coverage() {
      if a.effect.Calls? { CallCoverage(s.ledger, i.id, Look(s, i.id), a.effect.call, r); }
    }
    PollerFrame(c, s, s');
  }

  lemma WorkerKeepsControl(c: Config, s: Sys, w: nat, i: Intent, a: Act, s': Sys)
    requires ControlOk(c, s) && WorkerMoves(c, s, w, i, a, s')
    ensures ControlOk(c, s')
  {
    assert !AllExited(s);
  }

  lemma WorkerKeepsInv(c: Config, s: Sys, w: nat, i: Intent, a: Act, s': Sys)
    requires Inv(c, s) && WorkerMoves(c, s, w, i, a, s')
    ensures Inv(c, s')
  {
    WorkerKeepsLedger(c, s, w, i, a, s');
    WorkerKeepsSpawns(c, s, w, i, a, s');
    WorkerKeepsKnown(c, s, w, i, a, s');
    WorkerKeepsTotals(c, s, w, i, a, s');
    WorkerKeepsControl(c, s, w, i, a, s');
    WorkerKeepsPoller(c, s, w, i, a, s');
  }

  lemma BusyMoves(c: Config, s: Sys, w: nat, i: Intent, pc: Pc, x: Choice)
    requires SlotsOk(s) && SpawnsOk(s) && Known(s)
    requires w < |s.slots| && s.slots[w] == Busy(i, pc) && Possible(pc, Look(s, i.id), x)
    ensures var a := Advance(i, pc, EnvOf(c, s, i), x); WorkerMoves(c, s, w, i, a, Commit(c, s, w, i, a))
  {
    assert Holds(s.book, i, Worker(w)) && SpawnOk(s, i.id);
    AdvanceKeeps(i, pc, Look(s, i.id), EnvOf(c, s, i), x);
  }

  lemma BusyKeeps(c: Config, s: Sys, w: nat, i: Intent, pc: Pc, x: Choice)
    requires Inv(c, s) && w < |s.slots| && s.slots[w] == Busy(i, pc) && Possible(pc, Look(s, i.id), x)
    ensures Inv(c, Commit(c, s, w, i, Advance(i, pc, EnvOf(c, s, i), x)))
  {
    var a := Advance(i, pc, EnvOf(c, s, i), x);
    BusyMoves(c, s, w, i, pc, x);
    WorkerKeepsInv(c, s, w, i, a, Commit(c, s, w, i, a));
  }

  lemma ReceiveKeepsSpawns(s: Sys, w: nat)
    requires QueueOk(s) && SlotsOk(s) && SpawnsOk(s) && w < |s.slots| && s.slots[w].Waiting? && s.queue != []
    ensures var s' := Receive(s, w); QueueOk(s') && SlotsOk(s') && SpawnsOk(s')
  {
    var s' := Receive(s, w);
    var i := s.queue[0];
    assert Holds(s.book, i, Channel) && SpawnOk(s, i.id);
    forall k | 0 <= k < |s'.queue| ensures Holds(s'.book, s'.queue[k], Channel) {
      assert s'.queue[k] == s.queue[k + 1];
    }
    forall id | id in s'.book.owner ensures SpawnOk(s', id) {
      assert SpawnOk(s, id) && Look(s', id) == Look(s, id);
      if id != i.id && s.book.owner[id].Channel? {
        var k :| 0 <= k < |s.queue| && s.queue[k].id == id;
        assert s'.queue[k - 1].id == id;
      }
    }
  }

  lemma ReceiveKeeps(c: Config, s: Sys, w: nat)
    requires Inv(c, s) && w < |s.slots| && s.slots[w].Waiting? && s.queue != []
    ensures Inv(c, Receive(s, w))
  {
    assert Holds(s.book, s.queue[0], Channel);
    ReceiveKeepsSpawns(s, w);
    PollerFrame(c, s, Receive(s, w));
  }

  lemma LeaveKeeps(c: Config, s: Sys, w: nat)
    requires Inv(c, s) && w < |s.slots| && s.slots[w].Waiting? && s.queue == [] && s.control.closed
    ensures Inv(c, s.(slots := s.slots[w := Exited]))
  {
    var s' := s.(slots := s.slots[w := Exited]);
    SameSpawns(s, s');
    PollerFrame(c, s, s');
  }

  /** Spawns are unaffected by a step that only removes live resources, cancels, or lets an
      idle worker leave. */
  lemma SameSpawns(s: Sys, s': Sys)
    requires SpawnsOk(s) && s'.book == s.book && s'.poller == s.poller && s'.queue == s.queue
    requires s'.ledger.reservations == s.ledger.reservations
    requires |s'.slots| == |s.slots| && forall w :: 0 <= w < |s.slots| && s.slots[w].Busy? ==> s'.slots[w] == s.slots[w]
    requires s'.world.stacks <= s.world.stacks && s'.world.registrations <= s.world.registrations
    requires s.control.workersCancelled ==> s'.control.workersCancelled
    ensures SpawnsOk(s')
  {
    forall id | id in s'.book.owner ensures SpawnOk(s', id) {
      assert SpawnOk(s, id);
      LessIsFine(s, s', id);
    }
  }

  lemma LessIsFine(s: Sys, s': Sys, id: SpawnId)
    requires s'.book == s.book && s'.ledger.reservations == s.ledger.reservations
    requires s'.world.stacks <= s.world.stacks && s'.world.registrations <= s.world.registrations
    ensures Fresh(Look(s, id)) ==> Fresh(Look(s', id))
    ensures forall k, k' :: (k ==> k') && Settled(Look(s, id), k) ==> Settled(Look(s', id), k')
    ensures forall pc, k, k' :: (k ==> k') && Fits(pc, Look(s, id), k) ==> Fits(pc, Look(s', id), k')
  {
  }

  lemma WorkKeeps(c: Config, s: Sys, w: nat, x: Choice)
    requires Inv(c, s)
    ensures Inv(c, WorkStep(c, s, w, x))
  {
    if w < |s.slots| {
      match s.slots[w]
      case Busy(i, pc) => if Possible(pc, Look(s, i.id), x) { BusyKeeps(c, s, w, i, pc, x); }
      case Waiting =>
        if s.queue != [] { ReceiveKeeps(c, s, w); }
        else if s.control.closed { LeaveKeeps(c, s, w); }
      case Exited =>
    }
  }

  // ------------------------------------------------- shutdown and the outside world

  lemma QuietKeeps(c: Config, s: Sys, s': Sys)
    requires Inv(c, s) && ControlOk(c, s')
    requires s' == s.(world := s'.world, control := s'.control, ledger := s.ledger.(draining := s'.ledger.draining))
    requires s'.world.stacks <= s.world.stacks && s'.world.registrations <= s.world.registrations
    requires s.control.workersCancelled ==> s'.control.workersCancelled
    ensures Inv(c, s')
  {
    SameSpawns(s, s');
    DrainingKeepsLedger(c, s.ledger, s'.ledger.draining);
    QuietKeepsPoller(c, s, s');
  }

  lemma DrainingKeepsLedger(c: Config, l: State, on: bool)
    requires LedgerOk(c, l)
    ensures LedgerOk(c, l.(draining := on))
  {
    OwnCallKeepsLedger(c, l, l.(draining := on), SetDraining(on));
  }

  lemma QuietKeepsPoller(c: Config, s: Sys, s': Sys)
    requires PollerOk(c, s) && s'.poller == s.poller && s'.book == s.book && s'.ledger.perRepo == s.ledger.perRepo
    ensures PollerOk(c, s')
  {
    PollerFrame(c, s, s');
  }

  lemma ShutKeepsControl(c: Config, s: Sys, timeout: bool)
    requires ControlOk(c, s)
    ensures ControlOk(c, ShutStep(s, timeout))
  {
  }

  // -------------------------------------------------------------------- the poller

  /** Poller moves that touch nothing shared. */
  lemma PollerMovesQuietly(c: Config, s: Sys, s': Sys)
    requires Inv(c, s) && !s.poller.Hand? && !s'.poller.Hand? && !s.control.closed
    requires s' == s.(poller := s'.poller, book := s.book.(demand := s'.book.demand))
    requires PollerOk(c, s')
    ensures Inv(c, s')
  {
    forall id | id in s'.book.owner ensures SpawnOk(s', id) {
      assert SpawnOk(s, id) && Look(s', id) == Look(s, id);
    }
  }

  lemma ReserveWithinCaps(c: Config, l: State, id: SpawnId, repo: Repo)
    requires LedgerOk(c, l) && id !in l.reservations
    ensures LedgerOk(c, TryReserve(l, id, repo, CapOf(c, repo), c.globalMax))
  {
    ReserveKeeps(l, id, repo, CapOf(c, repo), c.globalMax);
    if Reserves(l, id, repo, CapOf(c, repo), c.globalMax) {
      EnsuredIsReservations(l, repo);
      assert At(l, repo).inFlight == |InRepo(l.reservations, repo)|;
      AddedWithinCaps(c, l.reservations, id, repo);
    }
  }

  lemma AddedWithinCaps(c: Config, res: map<SpawnId, Spawn>, id: SpawnId, repo: Repo)
    requires id !in res && |res| < c.globalMax && |InRepo(res, repo)| < CapOf(c, repo)
    requires forall r {:trigger CapOf(c, r)} :: |InRepo(res, r)| <= CapOf(c, r)
    ensures var res' := res[id := Spawn(repo, Pending)];
            |res'| <= c.globalMax && forall r {:trigger CapOf(c, r)} :: |InRepo(res', r)| <= CapOf(c, r)
  {
    var res' := res[id := Spawn(repo, Pending)];
    assert res'.Keys == res.Keys + {id};
    forall r ensures |InRepo(res', r)| <= CapOf(c, r) {
      InRepoAdds(res, id, repo, r);
    }
  }

  lemma InRepoAdds(res: map<SpawnId, Spawn>, id: SpawnId, repo: Repo, r: Repo)
    requires id !in res
    ensures |InRepo(res[id := Spawn(repo, Pending)], r)| == if r == repo then |InRepo(res, r)| + 1 else |InRepo(res, r)|
  {
    var res' := res[id := Spawn(repo, Pending)];
    if r == repo { assert InRepo(res', r) == InRepo(res, r) + {id}; }
    else { assert InRepo(res', r) == InRepo(res, r); }
  }

  lemma TakeKeepsSpawns(c: Config, s: Sys, f: Fill, id: SpawnId)
    requires QueueOk(s) && SlotsOk(s) && SpawnsOk(s) && Known(s) && s.poller == Filling(f) && id !in s.book.issued
    ensures var s' := TakeId(c, s, f, id); QueueOk(s') && SlotsOk(s') && SpawnsOk(s') && Known(s')
  {
    var s' := TakeId(c, s, f, id);
    forall d | d in s'.book.owner ensures SpawnOk(s', d) {
      if d != id { assert SpawnOk(s, d) && Look(s', d) == Look(s, d); }
    }
  }

  lemma TakeCoverage(l: State, id: SpawnId, repo: Repo, repoCap: int, globalCap: int, r: Repo)
    requires id !in l.reservations
    ensures var l' := TryReserve(l, id, repo, repoCap, globalCap);
            if r == repo && Reserves(l, id, repo, repoCap, globalCap)
            then At(l', r) == At(l, r).(inFlight := At(l, r).inFlight + 1, pending := At(l, r).pending + 1)
            else At(l', r) == At(l, r)
  {
  }

  lemma TakeRoom(c: Config, s: Sys, f: Fill)
    requires FillOk(c, s, f, 0) && f.made < f.toSpawn
    ensures At(s.ledger, f.repo).Coverage() + 1 <= Demand(s.book, f.repo)
  {
  }

  lemma TakeFill(c: Config, s: Sys, f: Fill, id: SpawnId)
    requires FillOk(c, s, f, 0) && f.made < f.toSpawn && id !in s.ledger.reservations
    ensures FillOk(c, TakeId(c, s, f, id), f, 1)
  {
    TakeCoverage(s.ledger, id, f.repo, CapOf(c, f.repo), c.globalMax, f.repo);
  }

  lemma TakeKeepsCovered(c: Config, s: Sys, f: Fill, id: SpawnId, s': Sys)
    requires Covered(s) && At(s.ledger, f.repo).Coverage() + 1 <= Demand(s.book, f.repo) && id !in s.ledger.reservations
    requires s'.ledger == TryReserve(s.ledger, id, f.repo, CapOf(c, f.repo), c.globalMax)
    requires s'.book.demand == s.book.demand
    ensures Covered(s')
  {
    forall r ensures CoveredAt(s'.ledger, s'.book, r) {
      assert CoveredAt(s.ledger, s.book, r);
      TakeCoveredAt(s.ledger, id, f.repo, CapOf(c, f.repo), c.globalMax, r, s.book, s'.book);
    }
  }

  lemma TakeCoveredAt(l: State, id: SpawnId, repo: Repo, repoCap: int, globalCap: int, r: Repo, b: Book, b': Book)
    requires id !in l.reservations && CoveredAt(l, b, r) && b'.demand == b.demand
    requires r == repo ==> At(l, r).Coverage() + 1 <= Demand(b, r)
    ensures CoveredAt(TryReserve(l, id, repo, repoCap, globalCap), b', r)
  {
    TakeCoverage(l, id, repo, repoCap, globalCap, r);
  }

  lemma TakeKeepsPoller(c: Config, s: Sys, f: Fill, id: SpawnId)
    requires PollerOk(c, s) && Known(s) && s.poller == Filling(f) && f.made < f.toSpawn && id !in s.book.issued
    ensures PollerOk(c, TakeId(c, s, f, id))
  {
    TakeRoom(c, s, f);
    TakeKeepsCovered(c, s, f, id, TakeId(c, s, f, id));
    TakeFill(c, s, f, id);
    TakeHolds(c, s, f, id);
  }

  lemma TakeHolds(c: Config, s: Sys, f: Fill, id: SpawnId)
    requires FillOk(c, TakeId(c, s, f, id), f, 1)
    ensures PollerAt(c, TakeId(c, s, f, id))
  {
  }

  lemma TakeKeeps(c: Config, s: Sys, f: Fill, id: SpawnId)
    requires Inv(c, s) && s.poller == Filling(f) && f.made < f.toSpawn && id !in s.book.issued
    ensures Inv(c, TakeId(c, s, f, id))
  {
    ReserveWithinCaps(c, s.ledger, id, f.repo);
    TakeKeepsSpawns(c, s, f, id);
    TakeKeepsPoller(c, s, f, id);
  }

  lemma SendKeepsSpawns(s: Sys, i: Intent, f: Fill)
    requires QueueOk(s) && SlotsOk(s) && SpawnsOk(s) && s.poller == Hand(i, f) && Holds(s.book, i, PollerHand)
    requires !s.control.closed && |s.queue| < CHANNEL_SIZE
    ensures var s' := SendIntent(s, i, f); QueueOk(s') && SlotsOk(s') && SpawnsOk(s')
  {
    var s' := SendIntent(s, i, f);
    assert s'.queue[|s.queue|] == i;
    forall id | id in s'.book.owner ensures SpawnOk(s', id) {
      assert SpawnOk(s, id) && Look(s', id) == Look(s, id);
      if id != i.id && s.book.owner[id].Channel? {
        var k :| 0 <= k < |s.queue| && s.queue[k].id == id;
        assert s'.queue[k].id == id;
      }
    }
  }

  lemma SendKeepsPoller(c: Config, s: Sys, i: Intent, f: Fill)
    requires PollerOk(c, s) && s.poller == Hand(i, f) && !s.control.closed && |s.queue| < CHANNEL_SIZE
    ensures PollerOk(c, SendIntent(s, i, f))
  {
    var s' := SendIntent(s, i, f);
    SameCovered(s, s');
    SentFill(c, s, f, s');
  }

  lemma SameCovered(s: Sys, s': Sys)
    requires Covered(s) && s'.ledger == s.ledger && s'.book.demand == s.book.demand
    ensures Covered(s')
  {
    forall r ensures CoveredAt(s'.ledger, s'.book, r) {
      assert CoveredAt(s.ledger, s.book, r);
    }
  }

  lemma SentFill(c: Config, s: Sys, f: Fill, s': Sys)
    requires FillOk(c, s, f, 1) && s'.ledger == s.ledger && s'.book.demand == s.book.demand
    ensures FillOk(c, s', f.(made := f.made + 1), 0)
  {
  }

  lemma SendKeepsControl(c: Config, s: Sys, i: Intent, f: Fill)
    requires ControlOk(c, s) && s.poller == Hand(i, f)
    ensures ControlOk(c, SendIntent(s, i, f)) && !s.control.closed
  {
  }

  lemma SendKeeps(c: Config, s: Sys, i: Intent, f: Fill)
    requires Inv(c, s) && s.poller == Hand(i, f)
    ensures Inv(c, SendIntent(s, i, f))
  {
    SendKeepsControl(c, s, i, f);
    if |s.queue| < CHANNEL_SIZE {
      SendKeepsSpawns(s, i, f);
      SendKeepsPoller(c, s, i, f);
    }
  }

  lemma AbortKeepsSpawns(s: Sys, i: Intent, f: Fill)
    requires QueueOk(s) && SlotsOk(s) && SpawnsOk(s) && Known(s) && s.poller == Hand(i, f)
    requires Holds(s.book, i, PollerHand)
    ensures var s' := AbortHand(s, i); QueueOk(s') && SlotsOk(s') && SpawnsOk(s') && Known(s')
  {
    var s' := AbortHand(s, i);
    assert SpawnOk(s, i.id);
    forall id | id in s'.book.owner ensures SpawnOk(s', id) {
      assert SpawnOk(s, id);
      assert id != i.id ==> Look(s', id) == Look(s, id);
    }
  }

  lemma AbortKeepsPoller(c: Config, s: Sys, i: Intent)
    requires PollerOk(c, s)
    ensures PollerOk(c, AbortHand(s, i))
  {
    var s' := AbortHand(s, i);
    forall r ensures CoveredAt(s'.ledger, s'.book, r) {
      assert CoveredAt(s.ledger, s.book, r);
      if i.id in s.ledger.reservations { DropCoverage(s.ledger, i.id, r); }
    }
  }

  lemma AbortKeepsLedger(c: Config, l: State, id: SpawnId)
    requires LedgerOk(c, l)
    ensures LedgerOk(c, ReleaseReservation(l, id))
  {
    OwnCallKeepsLedger(c, l, ReleaseReservation(l, id), Release(id));
  }

  lemma AbortKeeps(c: Config, s: Sys, i: Intent, f: Fill)
    requires Inv(c, s) && s.poller == Hand(i, f)
    ensures Inv(c, AbortHand(s, i))
  {
    AbortKeepsSpawns(s, i, f);
    AbortKeepsLedger(c, s.ledger, i.id);
    AbortKeepsPoller(c, s, i);
  }

  lemma PollKeeps(c: Config, s: Sys, p: PollEvent)
    requires Inv(c, s)
    ensures Inv(c, PollStep(c, s, p))
  {
    match s.poller
    case Filling(f) =>
      if f.made < f.toSpawn { if p.Take? && p.id !in s.book.issued { TakeKeeps(c, s, f, p.id); } }
      else if p.Leave? { PollerMovesQuietly(c, s, s.(poller := Idle)); }
    case Hand(i, f) =>
      if p.Send? { SendKeeps(c, s, i, f); }
      else if p.Abort? && s.control.pollCancelled { AbortKeeps(c, s, i, f); }
    case Stopped =>
    case _ => ReadKeeps(c, s, p);
  }

  lemma ReadKeepsPoller(c: Config, s: Sys, p: PollEvent)
    requires PollerOk(c, s) && !s.poller.Idle? && !s.poller.Filling? && !s.poller.Hand? && !s.poller.Stopped?
    ensures PollerOk(c, PollStep(c, s, p))
    ensures PollStep(c, s, p) == s.(poller := PollStep(c, s, p).poller) && !PollStep(c, s, p).poller.Hand?
  {
    if s.poller.GlobalRead? { CoverageReadKeepsPoller(c, s, p); } else { CapacityReadKeepsPoller(c, s, p); }
  }

  lemma CapacityReadKeepsPoller(c: Config, s: Sys, p: PollEvent)
    requires PollerOk(c, s) && (s.poller.Visit? || s.poller.RepoRead?)
    ensures PollerOk(c, PollStep(c, s, p))
    ensures PollStep(c, s, p) == s.(poller := PollStep(c, s, p).poller) && !PollStep(c, s, p).poller.Hand?
  {
    SameCovered(s, PollStep(c, s, p));
  }

  lemma CoverageReadKeepsPoller(c: Config, s: Sys, p: PollEvent)
    requires PollerOk(c, s) && s.poller.GlobalRead?
    ensures PollerOk(c, PollStep(c, s, p))
    ensures PollStep(c, s, p) == s.(poller := PollStep(c, s, p).poller) && !PollStep(c, s, p).poller.Hand?
  {
    SameCovered(s, PollStep(c, s, p));
    StartFill(c, PollStep(c, s, p), s.poller.repo, s.poller.queued, s.poller.avail);
  }

  /** A fill begins within what the queue leaves uncovered. */
  lemma StartFill(c: Config, s: Sys, repo: Repo, queued: nat, avail: nat)
    requires repo in c.caps && queued <= Demand(s.book, repo)
    ensures FillOk(c, s, FillFor(repo, queued, At(s.ledger, repo).Coverage(), avail), 0)
  {
  }

  lemma BeginKeepsPoller(c: Config, s: Sys, p: PollEvent)
    requires PollerOk(c, s) && s.poller.Idle?
    ensures var s' := PollStep(c, s, p);
            && PollerOk(c, s') && !s'.poller.Hand?
            && s' == s.(poller := s'.poller, book := s.book.(demand := s'.book.demand))
  {
    MoreDemand(s, PollStep(c, s, p));
  }

  /** Coverage stays within a demand that only grows. */
  lemma MoreDemand(s: Sys, s': Sys)
    requires Covered(s) && s'.ledger == s.ledger && forall r :: Demand(s.book, r) <= Demand(s'.book, r)
    ensures Covered(s')
  {
    forall r ensures CoveredAt(s'.ledger, s'.book, r) {
      assert CoveredAt(s.ledger, s.book, r);
    }
  }

  lemma ReadKeeps(c: Config, s: Sys, p: PollEvent)
    requires Inv(c, s) && !s.poller.Filling? && !s.poller.Hand? && !s.poller.Stopped?
    ensures Inv(c, PollStep(c, s, p))
  {
    if s.poller.Idle? { BeginKeepsPoller(c, s, p); } else { ReadKeepsPoller(c, s, p); }
    PollerMovesQuietly(c, s, PollStep(c, s, p));
  }

  lemma ShutIsQuiet(s: Sys, timeout: bool)
    ensures var s' := ShutStep(s, timeout);
            && s' == s.(world := s'.world, control := s'.control, ledger := s.ledger.(draining := s'.ledger.draining))
            && s'.world == s.world && (s.control.workersCancelled ==> s'.control.workersCancelled)
  {
  }

  lemma ShutKeeps(c: Config, s: Sys, timeout: bool)
    requires Inv(c, s)
    ensures Inv(c, ShutStep(s, timeout))
  {
    ShutKeepsControl(c, s, timeout);
    ShutIsQuiet(s, timeout);
    QuietKeeps(c, s, ShutStep(s, timeout));
  }

  /** Every event keeps the invariant. */
  lemma StepKeeps(c: Config, s: Sys, e: Event)
    requires Inv(c, s)
    ensures Inv(c, Step(c, s, e))
  {
    match e
    case Poll(p) => PollKeeps(c, s, p);
    case Work(w, x) => WorkKeeps(c, s, w, x);
    case Shutdown(timeout) => ShutKeeps(c, s, timeout);
    case _ => QuietKeeps(c, s, Step(c, s, e));
  }

  lemma {:induction false} RunKeeps(c: Config, s: Sys, es: seq<Event>)
    requires Inv(c, s)
    ensures Inv(c, Protocol.Run(c, s, es))
    decreases |es|
  {
    if es != [] {
      StepKeeps(c, s, es[0]);
      RunKeeps(c, Step(c, s, es[0]), es[1..]);
    }
  }
}
