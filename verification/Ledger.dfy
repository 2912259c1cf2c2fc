/** The scheduler's capacity ledger (internal/state/state.go) as a value: what each
    mutex-protected method of `State` does to the reservation map, the per-repository
    counters and the totals, and what every sequence of such calls keeps. */
module Ledger {

  type Repo = string
  type SpawnId = string

  datatype Phase = Pending | Online | Assigned | TeardownBlocked

  datatype Spawn = Spawn(repo: Repo, phase: Phase)

  /** The capacity part of `RepoState`. */
  datatype Counters = Counters(inFlight: nat, pending: nat, online: nat, busy: nat, blocked: nat)
  {
    function Of(p: Phase): nat {
      match p
      case Pending => pending
      case Online => online
      case Assigned => busy
      case TeardownBlocked => blocked
    }

    function Set(p: Phase, n: nat): Counters {
      match p
      case Pending => this.(pending := n)
      case Online => this.(online := n)
      case Assigned => this.(busy := n)
      case TeardownBlocked => this.(blocked := n)
    }

    function Add(p: Phase): Counters { Set(p, Of(p) + 1) }

    /** `decrementPhaseLocked`, with its clamp at zero. */
    function Drop(p: Phase): Counters { Set(p, Decrement(Of(p))) }

    function Coverage(): nat { pending + online }

    predicate Balanced() { inFlight == pending + online + busy + blocked }
  }

  const NO_COUNTERS := Counters(0, 0, 0, 0, 0)

  function Decrement(n: nat): nat { if n > 0 then n - 1 else 0 }

  datatype State = State(
    perRepo: map<Repo, Counters>,
    reservations: map<SpawnId, Spawn>,
    draining: bool,
    teardownBlocked: bool,
    assignments: nat,
    completed: nat,
    failures: nat,
    reconciled: nat)

  const NEW := State(map[], map[], false, false, 0, 0, 0, 0)

  // ------------------------------------------------------------------ the calls

  function At(l: State, repo: Repo): Counters {
    if repo in l.perRepo then l.perRepo[repo] else NO_COUNTERS
  }

  function Put(l: State, repo: Repo, c: Counters): State {
    l.(perRepo := l.perRepo[repo := c])
  }

  function Ensure(l: State, repo: Repo): State { Put(l, repo, At(l, repo)) }

  /** The sum that `globalInFlightLocked` computes, in whatever order it visits the map. */
  ghost function SumInFlight(m: map<Repo, Counters>): nat {
    if m == map[] then 0 else
      var r :| r in m;
      m[r].inFlight + SumInFlight(m - {r})
  }

  predicate Blocked(l: State) { l.draining || l.teardownBlocked }

  predicate HasReservation(l: State, id: SpawnId, repo: Repo) {
    id in l.reservations && l.reservations[id].repo == repo
  }

  predicate AnyDebt(res: map<SpawnId, Spawn>) {
    exists id :: id in res && res[id].phase.TeardownBlocked?
  }

  ghost predicate Reserves(l: State, id: SpawnId, repo: Repo, repoCap: int, globalCap: int) {
    && !Blocked(l)
    && if id in l.reservations then l.reservations[id].repo == repo
       else At(l, repo).inFlight < repoCap && SumInFlight(Ensure(l, repo).perRepo) < globalCap
  }

  ghost function TryReserve(l: State, id: SpawnId, repo: Repo, repoCap: int, globalCap: int): State {
    if Blocked(l) || id in l.reservations then l
    else if !Reserves(l, id, repo, repoCap, globalCap) then Ensure(l, repo)
    else
      var c := At(l, repo);
      Put(l, repo, c.Add(Pending).(inFlight := c.inFlight + 1))
      .(reservations := l.reservations[id := Spawn(repo, Pending)])
  }

  /** Moves an existing reservation to another phase, keeping its charge. */
  function Move(l: State, id: SpawnId, p: Phase): State
    requires id in l.reservations
  {
    var s := l.reservations[id];
    Put(l, s.repo, At(l, s.repo).Drop(s.phase).Add(p))
    .(reservations := l.reservations[id := s.(phase := p)])
  }

  predicate Onlines(l: State, id: SpawnId) { id in l.reservations && l.reservations[id].phase.Pending? }

  function MarkOnline(l: State, id: SpawnId): State {
    if Onlines(l, id) then Move(l, id, Online) else l
  }

  predicate Assigns(l: State, id: SpawnId) {
    id in l.reservations && (l.reservations[id].phase.Pending? || l.reservations[id].phase.Online?)
  }

  function MarkAssigned(l: State, id: SpawnId): State {
    if Assigns(l, id) then Move(l, id, Assigned).(assignments := l.assignments + 1) else l
  }

  predicate Blocks(l: State, id: SpawnId) {
    id in l.reservations ==> !l.reservations[id].phase.TeardownBlocked?
  }

  function MarkTeardownBlocked(l: State, id: SpawnId, repo: Repo): State {
    if !Blocks(l, id) then l
    else
      var l' :=
        if id in l.reservations then Move(l, id, TeardownBlocked)
        else
          var c := At(l, repo);
          Put(l, repo, c.Add(TeardownBlocked).(inFlight := c.inFlight + 1))
          .(reservations := l.reservations[id := Spawn(repo, TeardownBlocked)]);
      l'.(teardownBlocked := true, failures := l.failures + 1)
  }

  /** `releaseReservationLocked` */
  function Drop(l: State, id: SpawnId): State
    requires id in l.reservations
  {
    var s := l.reservations[id];
    var c := At(l, s.repo);
    Put(l, s.repo, c.Drop(s.phase).(inFlight := Decrement(c.inFlight)))
    .(reservations := l.reservations - {id})
  }

  predicate Resolves(l: State, id: SpawnId) {
    id in l.reservations && l.reservations[id].phase.TeardownBlocked?
  }

  function ResolveTeardown(l: State, id: SpawnId): State {
    if !Resolves(l, id) then l
    else
      var l' := Drop(l, id);
      l'.(reconciled := l.reconciled + 1, teardownBlocked := AnyDebt(l'.reservations))
  }

  function ReleaseReservation(l: State, id: SpawnId): State {
    if id !in l.reservations || l.reservations[id].phase.TeardownBlocked? then l else Drop(l, id)
  }

  /** Every call that changes the ledger. The last three are the compatibility counters,
      which charge capacity without a reservation. */
  datatype Call =
    | Reserve(id: SpawnId, repo: Repo, repoCap: int, globalCap: int)
    | SetOnline(id: SpawnId)
    | SetAssigned(id: SpawnId)
    | Block(id: SpawnId, repo: Repo)
    | Resolve(id: SpawnId)
    | Release(id: SpawnId)
    | Complete
    | SetDraining(on: bool)
    | Acquire(repo: Repo, repoCap: int, globalCap: int)
    | Increment(repo: Repo)
    | DecrementInFlight(repo: Repo)

  ghost function Apply(l: State, c: Call): State {
    match c
    case Reserve(id, repo, rc, gc) => TryReserve(l, id, repo, rc, gc)
    case SetOnline(id) => MarkOnline(l, id)
    case SetAssigned(id) => MarkAssigned(l, id)
    case Block(id, repo) => MarkTeardownBlocked(l, id, repo)
    case Resolve(id) => ResolveTeardown(l, id)
    case Release(id) => ReleaseReservation(l, id)
    case Complete => l.(completed := l.completed + 1)
    case SetDraining(on) => l.(draining := on)
    case Acquire(repo, rc, gc) => Acquire(l, repo, rc, gc)
    case Increment(repo) => Charge(l, repo)
    case DecrementInFlight(repo) =>
      var c := At(l, repo);
      Put(l, repo, c.(inFlight := Decrement(c.inFlight)))
  }

  function Charge(l: State, repo: Repo): State {
    var c := At(l, repo);
    Put(l, repo, c.(inFlight := c.inFlight + 1))
  }

  ghost function Acquire(l: State, repo: Repo, repoCap: int, globalCap: int): State {
    if Blocked(l) then l
    else if At(l, repo).inFlight >= repoCap || SumInFlight(Ensure(l, repo).perRepo) >= globalCap then Ensure(l, repo)
    else Charge(l, repo)
  }

  predicate IsReservationCall(c: Call) { !c.Acquire? && !c.Increment? && !c.DecrementInFlight? }

  ghost function Run(l: State, calls: seq<Call>): State
    decreases |calls|
  {
    if calls == [] then l else Run(Apply(l, calls[0]), calls[1..])
  }

  // ------------------------------------------------------- what the counters mean

  ghost function Ids(res: map<SpawnId, Spawn>, repo: Repo, p: Phase): set<SpawnId> {
    set id | id in res && res[id] == Spawn(repo, p)
  }

  ghost function InRepo(res: map<SpawnId, Spawn>, repo: Repo): set<SpawnId> {
    set id | id in res && res[id].repo == repo
  }

  ghost function Debts(res: map<SpawnId, Spawn>): set<SpawnId> {
    set id | id in res && res[id].phase.TeardownBlocked?
  }

  ghost function NonDebts(res: map<SpawnId, Spawn>): set<SpawnId> { res.Keys - Debts(res) }

  ghost predicate CountsMatch(l: State) {
    forall r, p {:trigger At(l, r).Of(p)} :: At(l, r).Of(p) == |Ids(l.reservations, r, p)|
  }

  /** The phase counters are the counts of the reservation map, the flag is the existence
      of debt, and every failure is either reconciled or still owed. */
  ghost predicate PhaseExact(l: State) {
    && CountsMatch(l)
    && (l.teardownBlocked <==> Debts(l.reservations) != {})
    && l.failures == l.reconciled + |Debts(l.reservations)|
  }

  ghost predicate InFlightExact(l: State) {
    forall r {:trigger At(l, r)} :: At(l, r).inFlight == |InRepo(l.reservations, r)|
  }

  /** A decrement in this call would be taken from a counter that is already zero. */
  ghost predicate ClampFires(l: State, c: Call) {
    match c
    case SetOnline(id) => Onlines(l, id) && EmptyPhase(l, id)
    case SetAssigned(id) => Assigns(l, id) && EmptyPhase(l, id)
    case Block(id, _) => id in l.reservations && Blocks(l, id) && EmptyPhase(l, id)
    case Resolve(id) => Resolves(l, id) && (EmptyPhase(l, id) || At(l, l.reservations[id].repo).inFlight == 0)
    case Release(id) =>
      && id in l.reservations && !l.reservations[id].phase.TeardownBlocked?
      && (EmptyPhase(l, id) || At(l, l.reservations[id].repo).inFlight == 0)
    case DecrementInFlight(repo) => At(l, repo).inFlight == 0
    case _ => false
  }

  ghost predicate EmptyPhase(l: State, id: SpawnId)
    requires id in l.reservations
  {
    At(l, l.reservations[id].repo).Of(l.reservations[id].phase) == 0
  }

  // ------------------------------------------------------------ counting lemmas

  function One(b: bool): int { if b then 1 else 0 }

  lemma CountPut(res: map<SpawnId, Spawn>, id: SpawnId, s: Spawn, r: Repo, p: Phase)
    ensures |Ids(res[id := s], r, p)| ==
            |Ids(res, r, p)| - One(id in res && res[id] == Spawn(r, p)) + One(s == Spawn(r, p))
  {
    var rest := Ids(res, r, p) - {id};
    assert Ids(res[id := s], r, p) == if s == Spawn(r, p) then rest + {id} else rest;
  }

  lemma CountRemove(res: map<SpawnId, Spawn>, id: SpawnId, r: Repo, p: Phase)
    requires id in res
    ensures |Ids(res - {id}, r, p)| == |Ids(res, r, p)| - One(res[id] == Spawn(r, p))
  {
    assert Ids(res - {id}, r, p) == Ids(res, r, p) - {id};
  }

  lemma DebtsPut(res: map<SpawnId, Spawn>, id: SpawnId, s: Spawn)
    ensures Debts(res[id := s]) == if s.phase.TeardownBlocked? then Debts(res) + {id} else Debts(res) - {id}
  {
  }

  lemma HeldIsCounted(l: State, id: SpawnId)
    requires CountsMatch(l) && id in l.reservations
    ensures !EmptyPhase(l, id)
  {
    var s := l.reservations[id];
    assert id in Ids(l.reservations, s.repo, s.phase);
  }

  /** The counter of one repository and phase after a counter update. */
  lemma CounterAt(l: State, repo: Repo, c: Counters, r: Repo, q: Phase)
    ensures At(Put(l, repo, c), r).Of(q) == if r == repo then c.Of(q) else At(l, r).Of(q)
  {
  }

  lemma AddOf(c: Counters, p: Phase, q: Phase)
    ensures c.Add(p).Of(q) == c.Of(q) + One(p == q)
    ensures c.Add(p).inFlight == c.inFlight
  {
  }

  lemma DropOf(c: Counters, p: Phase, q: Phase)
    requires c.Of(p) > 0
    ensures c.Drop(p).Of(q) == c.Of(q) - One(p == q)
    ensures c.Drop(p).inFlight == c.inFlight
  {
  }

  lemma MoveCount(l: State, id: SpawnId, p: Phase, r: Repo, q: Phase)
    requires id in l.reservations && !EmptyPhase(l, id)
    ensures var s := l.reservations[id];
            At(Move(l, id, p), r).Of(q) ==
            At(l, r).Of(q) - One(s == Spawn(r, q)) + One(s.(phase := p) == Spawn(r, q))
  {
    var s := l.reservations[id];
    var c := At(l, s.repo);
    DropOf(c, s.phase, q);
    AddOf(c.Drop(s.phase), p, q);
    CounterAt(l, s.repo, c.Drop(s.phase).Add(p), r, q);
  }

  lemma MoveKeeps(l: State, id: SpawnId, p: Phase)
    requires CountsMatch(l) && id in l.reservations
    ensures CountsMatch(Move(l, id, p))
    ensures InFlightExact(l) ==> InFlightExact(Move(l, id, p))
  {
    var s := l.reservations[id];
    HeldIsCounted(l, id);
    var m := Move(l, id, p);
    forall r, q ensures At(m, r).Of(q) == |Ids(m.reservations, r, q)| {
      CountPut(l.reservations, id, s.(phase := p), r, q);
      MoveCount(l, id, p, r, q);
    }
    if InFlightExact(l) {
      forall r ensures At(m, r).inFlight == |InRepo(m.reservations, r)| {
        assert At(m, r).inFlight == At(l, r).inFlight;
        assert InRepo(m.reservations, r) == InRepo(l.reservations, r);
      }
    }
  }

  function Reserved(l: State, id: SpawnId, s: Spawn): State {
    var c := At(l, s.repo);
    Put(l, s.repo, c.Add(s.phase).(inFlight := c.inFlight + 1)).(reservations := l.reservations[id := s])
  }

  lemma NewKeeps(l: State, id: SpawnId, s: Spawn)
    requires CountsMatch(l) && id !in l.reservations
    ensures CountsMatch(Reserved(l, id, s))
    ensures InFlightExact(l) ==> InFlightExact(Reserved(l, id, s))
  {
    var m := Reserved(l, id, s);
    var c := At(l, s.repo);
    forall r, q ensures At(m, r).Of(q) == |Ids(m.reservations, r, q)| {
      CountPut(l.reservations, id, s, r, q);
      AddOf(c, s.phase, q);
      CounterAt(l, s.repo, c.Add(s.phase).(inFlight := c.inFlight + 1), r, q);
    }
    if InFlightExact(l) {
      forall r ensures At(m, r).inFlight == |InRepo(m.reservations, r)| {
        assert At(l, r).inFlight == |InRepo(l.reservations, r)|;
        assert InRepo(m.reservations, r) == InRepo(l.reservations, r) + if r == s.repo then {id} else {};
      }
    }
  }

  lemma DropKeeps(l: State, id: SpawnId)
    requires CountsMatch(l) && id in l.reservations
    ensures CountsMatch(Drop(l, id))
    ensures InFlightExact(l) ==> InFlightExact(Drop(l, id)) && At(l, l.reservations[id].repo).inFlight > 0
  {
    HeldIsCounted(l, id);
    var s := l.reservations[id];
    var m := Drop(l, id);
    var c := At(l, s.repo);
    forall r, q ensures At(m, r).Of(q) == |Ids(m.reservations, r, q)| {
      CountRemove(l.reservations, id, r, q);
      DropOf(c, s.phase, q);
      CounterAt(l, s.repo, c.Drop(s.phase).(inFlight := Decrement(c.inFlight)), r, q);
    }
    if InFlightExact(l) {
      assert id in InRepo(l.reservations, s.repo);
      forall r ensures At(m, r).inFlight == |InRepo(m.reservations, r)| {
        assert At(l, r).inFlight == |InRepo(l.reservations, r)|;
        assert InRepo(m.reservations, r) == InRepo(l.reservations, r) - if r == s.repo then {id} else {};
      }
    }
  }

  /** Calls that leave the reservation map alone. */
  lemma SameReservationsKeeps(l: State, m: State)
    requires CountsMatch(l) && m.reservations == l.reservations
    requires forall r {:trigger At(m, r)} :: At(m, r) == At(l, r).(inFlight := At(m, r).inFlight)
    ensures CountsMatch(m)
  {
    forall r, p ensures At(m, r).Of(p) == |Ids(m.reservations, r, p)| {
      assert At(l, r).Of(p) == |Ids(l.reservations, r, p)|;
    }
  }

  lemma SameCountersKeeps(l: State, m: State)
    requires forall r {:trigger At(m, r)} :: At(m, r) == At(l, r)
    requires m.reservations == l.reservations
    ensures InFlightExact(l) ==> InFlightExact(m)
  {
    if InFlightExact(l) {
      forall r ensures At(m, r).inFlight == |InRepo(m.reservations, r)| {
        assert At(l, r).inFlight == |InRepo(l.reservations, r)|;
      }
    }
  }

  // ------------------------------------------------------------ what a call keeps

  lemma BlockKeeps(l: State, id: SpawnId, repo: Repo)
    requires PhaseExact(l)
    ensures PhaseExact(MarkTeardownBlocked(l, id, repo))
    ensures InFlightExact(l) ==> InFlightExact(MarkTeardownBlocked(l, id, repo))
  {
    if Blocks(l, id) {
      var m := MarkTeardownBlocked(l, id, repo);
      var s := if id in l.reservations then l.reservations[id].(phase := TeardownBlocked)
               else Spawn(repo, TeardownBlocked);
      var n := if id in l.reservations then Move(l, id, TeardownBlocked) else Reserved(l, id, s);
      if id in l.reservations { MoveKeeps(l, id, TeardownBlocked); } else { NewKeeps(l, id, s); }
      assert m == n.(teardownBlocked := true, failures := l.failures + 1);
      Flagged(l, n, m, id, s);
    }
  }

  lemma Flagged(l: State, n: State, m: State, id: SpawnId, s: Spawn)
    requires PhaseExact(l) && CountsMatch(n) && n.reservations == l.reservations[id := s]
    requires n.reconciled == l.reconciled
    requires Blocks(l, id) && s.phase.TeardownBlocked? && m == n.(teardownBlocked := true, failures := l.failures + 1)
    ensures PhaseExact(m) && (InFlightExact(n) ==> InFlightExact(m))
  {
    SameReservationsKeeps(n, m);
    SameCountersKeeps(n, m);
    DebtsPut(l.reservations, id, s);
  }

  lemma ResolveKeeps(l: State, id: SpawnId)
    requires PhaseExact(l)
    ensures PhaseExact(ResolveTeardown(l, id))
    ensures InFlightExact(l) ==> InFlightExact(ResolveTeardown(l, id))
  {
    if Resolves(l, id) {
      var m, n := ResolveTeardown(l, id), Drop(l, id);
      DropKeeps(l, id);
      SameReservationsKeeps(n, m);
      SameCountersKeeps(n, m);
      assert Debts(m.reservations) == Debts(l.reservations) - {id};
      if m.teardownBlocked {
        var d :| d in m.reservations && m.reservations[d].phase.TeardownBlocked?;
        assert d in Debts(m.reservations);
      }
    }
  }

  lemma ReleaseKeeps(l: State, id: SpawnId)
    requires PhaseExact(l)
    ensures PhaseExact(ReleaseReservation(l, id))
    ensures InFlightExact(l) ==> InFlightExact(ReleaseReservation(l, id))
  {
    if id in l.reservations && !l.reservations[id].phase.TeardownBlocked? {
      DropKeeps(l, id);
      assert Debts(l.reservations - {id}) == Debts(l.reservations);
    }
  }

  lemma MarkKeeps(l: State, id: SpawnId, p: Phase)
    requires PhaseExact(l) && id in l.reservations && !l.reservations[id].phase.TeardownBlocked?
    requires p != l.reservations[id].phase && !p.TeardownBlocked?
    ensures PhaseExact(Move(l, id, p)) && (InFlightExact(l) ==> InFlightExact(Move(l, id, p)))
  {
    MoveKeeps(l, id, p);
    DebtsPut(l.reservations, id, l.reservations[id].(phase := p));
    assert id !in Debts(l.reservations);
  }

  lemma ReserveKeeps(l: State, id: SpawnId, repo: Repo, repoCap: int, globalCap: int)
    requires PhaseExact(l)
    ensures var m := TryReserve(l, id, repo, repoCap, globalCap);
            PhaseExact(m) && (InFlightExact(l) ==> InFlightExact(m))
  {
    var m := TryReserve(l, id, repo, repoCap, globalCap);
    if !Blocked(l) && id !in l.reservations {
      if Reserves(l, id, repo, repoCap, globalCap) {
        NewKeeps(l, id, Spawn(repo, Pending));
        assert m == Reserved(l, id, Spawn(repo, Pending));
        DebtsPut(l.reservations, id, Spawn(repo, Pending));
        assert id !in Debts(l.reservations);
      } else {
        SameReservationsKeeps(l, m);
        SameCountersKeeps(l, m);
      }
    }
  }

  /** Every call keeps the phase counters, the blocked flag and the failure totals exact. */
  lemma ApplyKeepsPhases(l: State, c: Call)
    requires PhaseExact(l)
    ensures PhaseExact(Apply(l, c))
  {
    match c
    case Reserve(id, repo, rc, gc) => ReserveKeeps(l, id, repo, rc, gc);
    case SetOnline(id) => if Onlines(l, id) { MarkKeeps(l, id, Online); }
    case SetAssigned(id) =>
      if Assigns(l, id) {
        MarkKeeps(l, id, Assigned);
        SameReservationsKeeps(Move(l, id, Assigned), Apply(l, c));
      }
    case Block(id, repo) => BlockKeeps(l, id, repo);
    case Resolve(id) => ResolveKeeps(l, id);
    case Release(id) => ReleaseKeeps(l, id);
    case _ => SameReservationsKeeps(l, Apply(l, c));
  }

  /** The reservation API keeps InFlight the sum of the four phases and never clamps. */
  lemma ApplyKeepsInFlight(l: State, c: Call)
    requires PhaseExact(l) && InFlightExact(l) && IsReservationCall(c)
    ensures InFlightExact(Apply(l, c))
    ensures !ClampFires(l, c)
  {
    if c.SetOnline? || c.SetAssigned? || c.Block? || c.Resolve? || c.Release? {
      if c.id in l.reservations { DropKeeps(l, c.id); HeldIsCounted(l, c.id); }
    }
    match c
    case Reserve(id, repo, rc, gc) => ReserveKeeps(l, id, repo, rc, gc);
    case SetOnline(id) => if Onlines(l, id) { MarkKeeps(l, id, Online); }
    case SetAssigned(id) =>
      if Assigns(l, id) {
        MarkKeeps(l, id, Assigned);
        SameCountersKeeps(Move(l, id, Assigned), Apply(l, c));
      }
    case Block(id, repo) => BlockKeeps(l, id, repo);
    case Resolve(id) => ResolveKeeps(l, id);
    case Release(id) => ReleaseKeeps(l, id);
    case _ => SameCountersKeeps(l, Apply(l, c));
  }

  // -------------------------------------------------------------- runs of calls

  lemma NewIsExact()
    ensures PhaseExact(NEW) && InFlightExact(NEW)
  {
    forall r, p ensures At(NEW, r).Of(p) == |Ids(NEW.reservations, r, p)| {
      assert Ids(NEW.reservations, r, p) == {};
    }
    assert Debts(NEW.reservations) == {};
  }

  /** After any sequence of calls, compatibility counters included, the phase counters,
      the blocked flag and the failure totals are exact. */
  lemma {:induction false} RunPhaseExact(l: State, calls: seq<Call>)
    requires PhaseExact(l)
    ensures PhaseExact(Run(l, calls))
    decreases |calls|
  {
    if calls != [] {
      ApplyKeepsPhases(l, calls[0]);
      RunPhaseExact(Apply(l, calls[0]), calls[1..]);
    }
  }

  /** With only the reservation API, InFlight is the sum of the four phases after any
      sequence of calls and no decrement is ever clamped. */
  lemma {:induction false} RunInFlightExact(l: State, calls: seq<Call>)
    requires PhaseExact(l) && InFlightExact(l)
    requires forall c :: c in calls ==> IsReservationCall(c)
    ensures PhaseExact(Run(l, calls)) && InFlightExact(Run(l, calls))
    ensures forall r {:trigger At(Run(l, calls), r)} :: At(Run(l, calls), r).Balanced()
    ensures forall i :: 0 <= i < |calls| ==> !ClampFires(Run(l, calls[..i]), calls[i])
    decreases |calls|
  {
    if calls == [] {
      forall r ensures At(l, r).Balanced() { InFlightIsSum(l, r); }
    } else {
      var l' := Apply(l, calls[0]);
      ApplyKeepsPhases(l, calls[0]);
      ApplyKeepsInFlight(l, calls[0]);
      RunInFlightExact(l', calls[1..]);
      forall i | 0 <= i < |calls| ensures !ClampFires(Run(l, calls[..i]), calls[i]) {
        if i > 0 {
          assert calls[..i][0] == calls[0] && calls[..i][1..] == calls[1..][..i - 1];
          assert !ClampFires(Run(l', calls[1..][..i - 1]), calls[1..][i - 1]);
        }
      }
    }
  }

  /** One call never adds an ordinary reservation while debt is owed; the ordinary
      release and the marks never remove or change a debt; only resolving it does. */
  lemma DebtBarrierStep(l: State, c: Call)
    requires PhaseExact(l) && l.teardownBlocked
    ensures NonDebts(Apply(l, c).reservations) <= NonDebts(l.reservations)
    ensures Debts(l.reservations) - (if c.Resolve? then {c.id} else {}) <= Debts(Apply(l, c).reservations)
  {
  }

  /** From the moment debt is owed until the last debt is resolved, the set of ordinary
      reservations never grows, whatever calls arrive. */
  lemma {:induction false} DebtBarrier(l: State, calls: seq<Call>)
    requires PhaseExact(l)
    requires forall i :: 0 <= i < |calls| ==> Run(l, calls[..i]).teardownBlocked
    ensures NonDebts(Run(l, calls).reservations) <= NonDebts(l.reservations)
    ensures forall id :: id in Debts(l.reservations) && Resolve(id) !in calls ==>
              id in Debts(Run(l, calls).reservations)
    decreases |calls|
  {
    if calls != [] {
      assert calls[..0] == [];
      var l' := Apply(l, calls[0]);
      DebtBarrierStep(l, calls[0]);
      ApplyKeepsPhases(l, calls[0]);
      forall i | 0 <= i < |calls[1..]| ensures Run(l', calls[1..][..i]).teardownBlocked {
        assert calls[..i + 1][0] == calls[0] && calls[..i + 1][1..] == calls[1..][..i];
        assert Run(l, calls[..i + 1]).teardownBlocked;
      }
      DebtBarrier(l', calls[1..]);
    }
  }

  // ------------------------------------------------------ counters as set sizes

  lemma InRepoSplits(res: map<SpawnId, Spawn>, repo: Repo)
    ensures |InRepo(res, repo)| ==
            |Ids(res, repo, Pending)| + |Ids(res, repo, Online)|
            + |Ids(res, repo, Assigned)| + |Ids(res, repo, TeardownBlocked)|
  {
    var p, o := Ids(res, repo, Pending), Ids(res, repo, Online);
    var a, b := Ids(res, repo, Assigned), Ids(res, repo, TeardownBlocked);
    forall id | id in InRepo(res, repo) ensures id in (p + o) + (a + b) {
      match res[id].phase { case Pending => case Online => case Assigned => case TeardownBlocked => }
    }
    assert InRepo(res, repo) == (p + o) + (a + b);
    assert |p + o| == |p| + |o| && |a + b| == |a| + |b|;
    assert (p + o) !! (a + b);
  }

  /** The repository's reservations whose job GitHub has not yet assigned. */
  ghost function Undelivered(res: map<SpawnId, Spawn>, repo: Repo): set<SpawnId> {
    set id | id in res && res[id].repo == repo && (res[id].phase.Pending? || res[id].phase.Online?)
  }

  /** Coverage is the number of runners on the way that no job has taken yet. */
  lemma CoverageCounts(l: State, repo: Repo)
    ensures PhaseExact(l) ==> At(l, repo).Coverage() == |Undelivered(l.reservations, repo)|
  {
    var p, o := Ids(l.reservations, repo, Pending), Ids(l.reservations, repo, Online);
    assert PhaseExact(l) ==> At(l, repo).Of(Pending) == |p| && At(l, repo).Of(Online) == |o|;
    assert Undelivered(l.reservations, repo) == p + o && p !! o;
  }

  /** With only the reservation API, InFlight is the sum of the four phase counters. */
  lemma InFlightIsSum(l: State, repo: Repo)
    requires PhaseExact(l) && InFlightExact(l)
    ensures At(l, repo).Balanced()
  {
    InRepoSplits(l.reservations, repo);
    assert At(l, repo).Of(Pending) == |Ids(l.reservations, repo, Pending)|;
    assert At(l, repo).Of(Online) == |Ids(l.reservations, repo, Online)|;
    assert At(l, repo).Of(Assigned) == |Ids(l.reservations, repo, Assigned)|;
    assert At(l, repo).Of(TeardownBlocked) == |Ids(l.reservations, repo, TeardownBlocked)|;
  }

  lemma {:induction false} SumRemove(m: map<Repo, Counters>, r: Repo)
    requires r in m
    ensures SumInFlight(m) == m[r].inFlight + SumInFlight(m - {r})
  {
    var k :| k in m && SumInFlight(m) == m[k].inFlight + SumInFlight(m - {k});
    if k != r {
      SumRemove(m - {k}, r);
      SumRemove(m - {r}, k);
      assert m - {k} - {r} == m - {r} - {k};
    }
  }

  lemma {:induction false} SumOver(m: map<Repo, Counters>, res: map<SpawnId, Spawn>)
    requires forall r :: r in m ==> m[r].inFlight == |InRepo(res, r)|
    ensures SumInFlight(m) == |set id | id in res && res[id].repo in m|
  {
    if m != map[] {
      var r :| r in m;
      SumRemove(m, r);
      SumOver(m - {r}, res);
      WithoutRepo(m, res, r);
    }
  }

  lemma WithoutRepo(m: map<Repo, Counters>, res: map<SpawnId, Spawn>, r: Repo)
    requires r in m
    ensures |set id | id in res && res[id].repo in m|
            == |InRepo(res, r)| + |set id | id in res && res[id].repo in m - {r}|
  {
    var rest := set id | id in res && res[id].repo in m - {r};
    assert (set id | id in res && res[id].repo in m) == InRepo(res, r) + rest;
    assert InRepo(res, r) !! rest;
  }

  /** Charged capacity over all repositories is exactly the number of reservations. */
  lemma GlobalIsReservations(l: State)
    requires PhaseExact(l) && InFlightExact(l)
    ensures SumInFlight(l.perRepo) == |l.reservations|
  {
    forall r | r in l.perRepo ensures l.perRepo[r].inFlight == |InRepo(l.reservations, r)| {
      assert At(l, r).inFlight == |InRepo(l.reservations, r)|;
    }
    SumOver(l.perRepo, l.reservations);
    forall id | id in l.reservations ensures l.reservations[id].repo in l.perRepo {
      HeldIsCounted(l, id);
    }
    assert (set id | id in l.reservations && l.reservations[id].repo in l.perRepo) == l.reservations.Keys;
  }

  /** The sum TryReserve compares with the global cap. */
  lemma EnsuredIsReservations(l: State, repo: Repo)
    requires PhaseExact(l) && InFlightExact(l)
    ensures SumInFlight(Ensure(l, repo).perRepo) == |l.reservations|
  {
    var m := Ensure(l, repo);
    SameReservationsKeeps(l, m);
    SameCountersKeeps(l, m);
    GlobalIsReservations(m);
  }

  /** There is room for one more spawn of the repository: nothing drains, nothing is owed, and
      both caps have space for another reservation. */
  ghost predicate Room(l: State, repo: Repo, repoCap: int, globalCap: int) {
    && !l.draining && (forall id :: id in l.reservations ==> !l.reservations[id].phase.TeardownBlocked?)
    && |InRepo(l.reservations, repo)| < repoCap && |l.reservations| < globalCap
  }

  /** A new spawn is admitted exactly when there is room for it. */
  lemma ReservesExactly(l: State, id: SpawnId, repo: Repo, repoCap: int, globalCap: int)
    requires id !in l.reservations
    ensures PhaseExact(l) && InFlightExact(l) ==>
              (Reserves(l, id, repo, repoCap, globalCap) <==> Room(l, repo, repoCap, globalCap))
  {
    if PhaseExact(l) && InFlightExact(l) {
      EnsuredIsReservations(l, repo);
      assert At(l, repo).inFlight == |InRepo(l.reservations, repo)|;
      assert forall d :: d in Debts(l.reservations) <==>
                         d in l.reservations && l.reservations[d].phase.TeardownBlocked?;
    }
  }
}
