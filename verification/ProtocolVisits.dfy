/** What a poll visit does for the queue it saw (internal/orchestrator/poll.go), read from the
    reservation map and not from the counters, and the order in which intents are served. */
module ProtocolVisits {
  import opened Ledger
  import opened Worker
  import opened Protocol
  import opened ProtocolInvariant
  import opened ProtocolTheorems

  // -------------------------------------------------------------------- the reads

  /** The counters that a visit reads are what the reservation map says. */
  ghost predicate Exact(res: map<SpawnId, Spawn>, repo: Repo, n: Counters, total: nat) {
    n.inFlight == |InRepo(res, repo)| && n.Coverage() == |Undelivered(res, repo)| && total == |res|
  }

  lemma ExactReads(l: State, repo: Repo)
    requires PhaseExact(l) && InFlightExact(l)
    ensures Exact(l.reservations, repo, At(l, repo), SumInFlight(l.perRepo))
  {
    CoverageCounts(l, repo);
    GlobalIsReservations(l);
  }

  /** So it is in every run. */
  lemma ReadsAreReal(c: Config, es: seq<Event>, repo: Repo)
    ensures var l := After(c, es).ledger; Exact(l.reservations, repo, At(l, repo), SumInFlight(l.perRepo))
  {
    Reachable(c, es);
    ExactReads(After(c, es).ledger, repo);
  }

  // --------------------------------------------------------------- how visits end

  /** Jobs the visit found uncovered, as far as there were places for them. */
  function Wanted(f: Fill): nat { Min(Max(f.queued - f.coverage, 0), f.avail) }

  /** In every run a visit that ends has queued exactly the wanted number of spawns, or was
      refused a reservation because there was no room, or polling was cancelled under it. */
  lemma VisitServesDemand(c: Config, es: seq<Event>, p: PollEvent)
    requires After(c, es).poller.Filling? || After(c, es).poller.Hand?
    requires PollStep(c, After(c, es), p).poller.Idle?
    ensures var s := After(c, es);
            var f := s.poller.fill;
            || (s.poller.Filling? && f.made == Wanted(f))
            || (s.poller.Filling? && p.Take? && !Room(s.ledger, f.repo, CapOf(c, f.repo), c.globalMax))
            || (s.poller.Hand? && s.control.pollCancelled)
  {
    Reachable(c, es);
    var s := After(c, es);
    if s.poller.Filling? && p.Take? && p.id !in s.book.issued {
      assert p.id !in s.ledger.reservations;
      ReservesExactly(s.ledger, p.id, s.poller.fill.repo, CapOf(c, s.poller.fill.repo), c.globalMax);
    }
  }

  // --------------------------------------------------------- an undisturbed visit

  function Intents(ids: seq<SpawnId>, repo: Repo): seq<Intent> {
    if ids == [] then [] else [Intent(ids[0], repo)] + Intents(ids[1..], repo)
  }

  function Grants(ids: seq<SpawnId>, repo: Repo): map<SpawnId, Spawn> { map id | id in ids :: Spawn(repo, Pending) }

  /** Take and send each spawn, then leave. */
  function FillEvents(ids: seq<SpawnId>): seq<Event> {
    if ids == [] then [Poll(Leave)] else [Poll(Take(ids[0])), Poll(Send)] + FillEvents(ids[1..])
  }

  predicate Distinct(ids: seq<SpawnId>) { forall j, k :: 0 <= j < k < |ids| ==> ids[j] != ids[k] }

  /** There is room for `n` more spawns of a repository, in the ledger and in the channel. */
  ghost predicate RoomFor(c: Config, s: Sys, repo: Repo, n: nat) {
    && !s.ledger.draining && !AnyDebt(s.ledger.reservations)
    && |InRepo(s.ledger.reservations, repo)| + n <= CapOf(c, repo) && |s.ledger.reservations| + n <= c.globalMax
    && !s.control.closed && |s.queue| + n <= CHANNEL_SIZE
  }

  ghost predicate Ready(c: Config, s: Sys, f: Fill, ids: seq<SpawnId>) {
    && s.poller == Filling(f) && f.made + |ids| == f.toSpawn
    && Distinct(ids) && (forall id :: id in ids ==> id !in s.book.issued)
    && RoomFor(c, s, f.repo, |ids|)
  }

  /** The fill loop's one round. */
  ghost function Sent(c: Config, s: Sys, id: SpawnId): Sys { PollStep(c, PollStep(c, s, Take(id)), Send) }

  lemma OneSent(c: Config, s: Sys, f: Fill, id: SpawnId)
    requires LedgerOk(c, s.ledger) && s.poller == Filling(f) && f.made < f.toSpawn
    requires id !in s.book.issued && id !in s.ledger.reservations && RoomFor(c, s, f.repo, 1)
    ensures var s' := Sent(c, s, id);
            && s'.poller == Filling(f.(made := f.made + 1)) && s'.queue == s.queue + [Intent(id, f.repo)]
            && s'.ledger.reservations == s.ledger.reservations[id := Spawn(f.repo, Pending)]
            && s'.ledger.draining == s.ledger.draining && s'.control == s.control
            && s'.book.issued == s.book.issued[id := f.repo]
  {
    ReservesExactly(s.ledger, id, f.repo, CapOf(c, f.repo), c.globalMax);
    assert Reserves(s.ledger, id, f.repo, CapOf(c, f.repo), c.globalMax);
  }

  lemma StillReady(c: Config, s: Sys, f: Fill, ids: seq<SpawnId>, s': Sys)
    requires Ready(c, s, f, ids) && ids != [] && ids[0] !in s.ledger.reservations
    requires s'.poller == Filling(f.(made := f.made + 1)) && s'.queue == s.queue + [Intent(ids[0], f.repo)]
    requires s'.ledger.reservations == s.ledger.reservations[ids[0] := Spawn(f.repo, Pending)]
    requires s'.ledger.draining == s.ledger.draining && s'.control == s.control
    requires s'.book.issued == s.book.issued[ids[0] := f.repo]
    ensures Ready(c, s', f.(made := f.made + 1), ids[1..])
  {
    InRepoAdds(s.ledger.reservations, ids[0], f.repo, f.repo);
    assert s'.ledger.reservations.Keys == s.ledger.reservations.Keys + {ids[0]};
    forall id | id in ids[1..] ensures id !in s'.book.issued {
      var k :| 0 <= k < |ids[1..]| && ids[1..][k] == id;
      assert ids[k + 1] == id;
    }
  }

  lemma RunTwo(c: Config, s: Sys, a: Event, b: Event, es: seq<Event>)
    ensures Protocol.Run(c, s, [a, b] + es) == Protocol.Run(c, Step(c, Step(c, s, a), b), es)
  {
    assert ([a, b] + es)[1..] == [b] + es;
    assert ([b] + es)[1..] == es;
  }

  /** The spawns were reserved, and queued in order. */
  ghost predicate Filled(s: Sys, s': Sys, ids: seq<SpawnId>, repo: Repo) {
    && s'.poller.Idle? && s'.queue == s.queue + Intents(ids, repo)
    && s'.ledger.reservations == s.ledger.reservations + Grants(ids, repo)
  }

  /** All rounds of the fill loop. */
  ghost function SentAll(c: Config, s: Sys, ids: seq<SpawnId>): Sys
    decreases |ids|
  {
    if ids == [] then PollStep(c, s, Leave) else SentAll(c, Sent(c, s, ids[0]), ids[1..])
  }

  lemma {:induction false} FillRuns(c: Config, s: Sys, ids: seq<SpawnId>)
    ensures Protocol.Run(c, s, FillEvents(ids)) == SentAll(c, s, ids)
    decreases |ids|
  {
    if ids == [] { RunOne(c, s, Poll(Leave)); }
    else {
      RunTwo(c, s, Poll(Take(ids[0])), Poll(Send), FillEvents(ids[1..]));
      FillRuns(c, Sent(c, s, ids[0]), ids[1..]);
    }
  }

  lemma RunOne(c: Config, s: Sys, e: Event)
    ensures Protocol.Run(c, s, [e]) == Step(c, s, e)
  {
    assert [e][1..] == [];
  }

  lemma {:induction false} FillFills(c: Config, s: Sys, f: Fill, ids: seq<SpawnId>)
    requires Inv(c, s) && Ready(c, s, f, ids)
    ensures Filled(s, SentAll(c, s, ids), ids, f.repo)
    decreases |ids|
  {
    if ids == [] { LeaveFills(c, s, f); }
    else {
      var s1 := Sent(c, s, ids[0]);
      OneRound(c, s, f, ids);
      FillFills(c, s1, f.(made := f.made + 1), ids[1..]);
      FilledJoins(s, s1, SentAll(c, s1, ids[1..]), ids, f.repo);
    }
  }

  lemma OneRound(c: Config, s: Sys, f: Fill, ids: seq<SpawnId>)
    requires Inv(c, s) && Ready(c, s, f, ids) && ids != []
    ensures var s1 := Sent(c, s, ids[0]);
            && Inv(c, s1) && Ready(c, s1, f.(made := f.made + 1), ids[1..])
            && s1.queue == s.queue + [Intent(ids[0], f.repo)]
            && s1.ledger.reservations == s.ledger.reservations[ids[0] := Spawn(f.repo, Pending)]
  {
    assert ids[0] in ids && ids[0] !in s.ledger.reservations;
    OneSent(c, s, f, ids[0]);
    StillReady(c, s, f, ids, Sent(c, s, ids[0]));
    PollKeeps(c, s, Take(ids[0]));
    PollKeeps(c, PollStep(c, s, Take(ids[0])), Send);
  }

  lemma FilledJoins(s: Sys, s1: Sys, s': Sys, ids: seq<SpawnId>, repo: Repo)
    requires ids != [] && Filled(s1, s', ids[1..], repo)
    requires s1.queue == s.queue + [Intent(ids[0], repo)]
    requires s1.ledger.reservations == s.ledger.reservations[ids[0] := Spawn(repo, Pending)]
    ensures Filled(s, s', ids, repo)
  {
    GrantsJoin(s.ledger.reservations, ids, repo);
  }

  lemma LeaveFills(c: Config, s: Sys, f: Fill)
    requires s.poller == Filling(f) && f.made >= f.toSpawn
    ensures Filled(s, PollStep(c, s, Leave), [], f.repo)
  {
  }

  lemma GrantsJoin(res: map<SpawnId, Spawn>, ids: seq<SpawnId>, repo: Repo)
    requires ids != []
    ensures res[ids[0] := Spawn(repo, Pending)] + Grants(ids[1..], repo) == res + Grants(ids, repo)
  {
    assert ids == [ids[0]] + ids[1..];
  }

  /** One spawn for each queued job that is not covered, within the free places. */
  function Share(queued: nat, covered: nat, repoFree: int, allFree: int): nat {
    Min(Max(queued - covered, 0), Max(Min(repoFree, allFree), 0))
  }

  /** How many spawns a repository with `queued` jobs should get now: the jobs no runner on
      the way covers, within the places the reservations leave. */
  ghost function Due(c: Config, res: map<SpawnId, Spawn>, repo: Repo, queued: nat): nat {
    Share(queued, |Undelivered(res, repo)|, CapOf(c, repo) - |InRepo(res, repo)|, c.globalMax - |res|)
  }

  function VisitEvents(repo: Repo, queued: nat, ids: seq<SpawnId>): seq<Event> {
    [Poll(Begin(repo, queued)), Poll(Read)] + ([Poll(Read), Poll(Read)] + FillEvents(ids))
  }

  ghost function Looked(c: Config, s: Sys, repo: Repo, queued: nat): Sys {
    PollStep(c, PollStep(c, PollStep(c, PollStep(c, s, Begin(repo, queued)), Read), Read), Read)
  }

  function ReadAll(c: Config, repo: Repo, queued: nat, n: Counters, total: nat): Poller {
    NextRead(c, NextRead(c, NextRead(c, Visit(repo, queued), n, total), n, total), n, total)
  }

  lemma ThreeReads(c: Config, repo: Repo, queued: nat, n: Counters, total: nat)
    ensures var p := ReadAll(c, repo, queued, n, total);
            && p.Filling? && p.fill.repo == repo && p.fill.made == 0
            && p.fill.toSpawn == Share(queued, n.Coverage(), CapOf(c, repo) - n.inFlight, c.globalMax - total)
  {
  }

  lemma ReadsAreDue(c: Config, res: map<SpawnId, Spawn>, repo: Repo, queued: nat, n: Counters, total: nat)
    requires Exact(res, repo, n, total)
    ensures var p := ReadAll(c, repo, queued, n, total);
            && p.Filling? && p.fill.repo == repo && p.fill.made == 0 && p.fill.toSpawn == Due(c, res, repo, queued)
  {
    ThreeReads(c, repo, queued, n, total);
  }

  lemma LookedFill(c: Config, s: Sys, repo: Repo, queued: nat)
    requires s.poller.Idle? && repo in c.caps
    ensures var s' := Looked(c, s, repo, queued);
            && s'.poller == ReadAll(c, repo, queued, At(s.ledger, repo), SumInFlight(s.ledger.perRepo))
            && s' == s.(poller := s'.poller, book := s.book.(demand := s'.book.demand))
  {
  }

  /** From any reachable state in which the poller is idle and scheduling is not blocked, an
      undisturbed visit reserves and queues exactly the spawns that are due: their number is
      the uncovered demand within the free places, each becomes a pending reservation of the
      visited repository, and they enter the channel behind what is there, in order. */
  lemma VisitFills(c: Config, es: seq<Event>, repo: Repo, queued: nat, ids: seq<SpawnId>)
    requires CanVisit(c, After(c, es), repo, queued, ids)
    ensures Filled(After(c, es), After(c, es + VisitEvents(repo, queued, ids)), ids, repo)
  {
    Reachable(c, es);
    VisitRuns(c, After(c, es), repo, queued, ids);
    RunJoins(c, Init(c), es, VisitEvents(repo, queued, ids));
  }

  /** An idle poller, nothing blocked, and fresh spawn IDs for what is due. */
  ghost predicate CanVisit(c: Config, s: Sys, repo: Repo, queued: nat, ids: seq<SpawnId>) {
    && s.poller.Idle? && repo in c.caps && !s.ledger.draining && !AnyDebt(s.ledger.reservations)
    && |ids| == Due(c, s.ledger.reservations, repo, queued) && |s.queue| + |ids| <= 32
    && Distinct(ids) && forall id :: id in ids ==> id !in s.book.issued
  }

  lemma VisitRuns(c: Config, s: Sys, repo: Repo, queued: nat, ids: seq<SpawnId>)
    requires Inv(c, s) && CanVisit(c, s, repo, queued, ids)
    ensures Filled(s, Protocol.Run(c, s, VisitEvents(repo, queued, ids)), ids, repo)
  {
    var s' := Looked(c, s, repo, queued);
    ExactReads(s.ledger, repo);
    assert |InRepo(s.ledger.reservations, repo)| <= CapOf(c, repo);
    LookedIsReady(c, s, repo, queued, ids);
    LookKeeps(c, s, repo, queued);
    FillFills(c, s', s'.poller.fill, ids);
    VisitIsLookAndFill(c, s, repo, queued, ids);
  }

  lemma LookedIsReady(c: Config, s: Sys, repo: Repo, queued: nat, ids: seq<SpawnId>)
    requires CanVisit(c, s, repo, queued, ids) && !s.control.closed
    requires Exact(s.ledger.reservations, repo, At(s.ledger, repo), SumInFlight(s.ledger.perRepo))
    requires |InRepo(s.ledger.reservations, repo)| <= CapOf(c, repo) && |s.ledger.reservations| <= c.globalMax
    ensures var s' := Looked(c, s, repo, queued);
            && s'.poller.Filling? && s'.poller.fill.repo == repo && Ready(c, s', s'.poller.fill, ids)
            && s'.queue == s.queue && s'.ledger == s.ledger
  {
    DueFits(c, s.ledger.reservations, repo, queued);
    ReadsAreDue(c, s.ledger.reservations, repo, queued, At(s.ledger, repo), SumInFlight(s.ledger.perRepo));
    LookedFill(c, s, repo, queued);
  }

  lemma DueFits(c: Config, res: map<SpawnId, Spawn>, repo: Repo, queued: nat)
    requires |InRepo(res, repo)| <= CapOf(c, repo) && |res| <= c.globalMax
    ensures |InRepo(res, repo)| + Due(c, res, repo, queued) <= CapOf(c, repo)
    ensures |res| + Due(c, res, repo, queued) <= c.globalMax
  {
  }

  lemma VisitIsLookAndFill(c: Config, s: Sys, repo: Repo, queued: nat, ids: seq<SpawnId>)
    ensures Protocol.Run(c, s, VisitEvents(repo, queued, ids)) == SentAll(c, Looked(c, s, repo, queued), ids)
  {
    var s' := PollStep(c, PollStep(c, s, Begin(repo, queued)), Read);
    RunTwo(c, s, Poll(Begin(repo, queued)), Poll(Read), [Poll(Read), Poll(Read)] + FillEvents(ids));
    RunTwo(c, s', Poll(Read), Poll(Read), FillEvents(ids));
    FillRuns(c, Looked(c, s, repo, queued), ids);
  }

  lemma LookKeeps(c: Config, s: Sys, repo: Repo, queued: nat)
    requires Inv(c, s)
    ensures Inv(c, Looked(c, s, repo, queued))
  {
    var a := PollStep(c, s, Begin(repo, queued));
    PollKeeps(c, s, Begin(repo, queued));
    PollKeeps(c, a, Read);
    PollKeeps(c, PollStep(c, a, Read), Read);
    PollKeeps(c, PollStep(c, PollStep(c, a, Read), Read), Read);
  }

  // ------------------------------------------------------------- first come, first served

  ghost predicate Before(q: seq<Intent>, a: SpawnId, b: SpawnId) {
    exists j, k :: 0 <= j < k < |q| && q[j].id == a && q[k].id == b
  }

  /** The first is ahead of the second in the channel, or has left it for good. */
  ghost predicate Served(s: Sys, a: SpawnId, b: SpawnId) {
    && a in s.book.owner && !s.book.owner[a].PollerHand?
    && (s.book.owner[a].Channel? ==> Before(s.queue, a, b))
  }

  lemma ServedReceive(s: Sys, w: nat, a: SpawnId, b: SpawnId)
    requires QueueOk(s) && Served(s, a, b) && w < |s.slots| && s.queue != []
    ensures Served(Receive(s, w), a, b)
  {
    assert Holds(s.book, s.queue[0], Channel);
    if s.book.owner[a].Channel? && s.queue[0].id != a {
      var j, k :| 0 <= j < k < |s.queue| && s.queue[j].id == a && s.queue[k].id == b;
      assert s.queue[1..][j - 1].id == a && s.queue[1..][k - 1].id == b;
    }
  }

  lemma ServedWork(c: Config, s: Sys, w: nat, x: Choice, a: SpawnId, b: SpawnId)
    requires QueueOk(s) && SlotsOk(s) && Served(s, a, b)
    ensures Served(WorkStep(c, s, w, x), a, b)
  {
    if w < |s.slots| && s.slots[w].Waiting? && s.queue != [] { ServedReceive(s, w, a, b); }
    if w < |s.slots| && s.slots[w].Busy? { assert Holds(s.book, s.slots[w].intent, Worker(w)); }
  }

  lemma ServedPoll(c: Config, s: Sys, p: PollEvent, a: SpawnId, b: SpawnId)
    requires PollerAt(c, s) && s.book.owner.Keys == s.book.issued.Keys && Served(s, a, b)
    ensures Served(PollStep(c, s, p), a, b)
  {
    if s.poller.Hand? && s.book.owner[a].Channel? { BeforeGrows(s.queue, s.poller.intent, a, b); }
  }

  lemma BeforeGrows(q: seq<Intent>, i: Intent, a: SpawnId, b: SpawnId)
    requires Before(q, a, b)
    ensures Before(q + [i], a, b)
  {
    var j, k :| 0 <= j < k < |q| && q[j].id == a && q[k].id == b;
    assert (q + [i])[j].id == a && (q + [i])[k].id == b;
  }

  lemma ServedStep(c: Config, s: Sys, e: Event, a: SpawnId, b: SpawnId)
    requires QueueOk(s) && SlotsOk(s) && PollerAt(c, s) && s.book.owner.Keys == s.book.issued.Keys && Served(s, a, b)
    ensures Served(Step(c, s, e), a, b)
  {
    match e
    case Poll(p) => ServedPoll(c, s, p, a, b);
    case Work(w, x) => ServedWork(c, s, w, x, a, b);
    case _ =>
  }

  lemma {:induction false} ServedForever(c: Config, s: Sys, es: seq<Event>, a: SpawnId, b: SpawnId)
    requires Inv(c, s) && Served(s, a, b)
    ensures Inv(c, Protocol.Run(c, s, es)) && Served(Protocol.Run(c, s, es), a, b)
    decreases |es|
  {
    if es != [] {
      StepKeeps(c, s, es[0]);
      ServedStep(c, s, es[0], a, b);
      ServedForever(c, Step(c, s, es[0]), es[1..], a, b);
    }
  }

  /** Whoever is ahead in the channel is received first: while it still waits there, so does
      everything that was behind it, still behind it. */
  lemma ChannelIsFair(c: Config, es: seq<Event>, later: seq<Event>, a: SpawnId, b: SpawnId)
    requires Before(After(c, es).queue, a, b)
    ensures var s' := Protocol.Run(c, After(c, es), later); Queued(s', a) ==> Before(s'.queue, a, b)
  {
    Reachable(c, es);
    var s := After(c, es);
    BeforeIsServed(s, a, b);
    ServedForever(c, s, later, a, b);
    QueuedIsOwned(Protocol.Run(c, s, later), a);
  }

  lemma BeforeIsServed(s: Sys, a: SpawnId, b: SpawnId)
    requires QueueOk(s) && Before(s.queue, a, b)
    ensures Served(s, a, b)
  {
    var j, k :| 0 <= j < k < |s.queue| && s.queue[j].id == a && s.queue[k].id == b;
    assert Holds(s.book, s.queue[j], Channel);
  }

  lemma QueuedIsOwned(s: Sys, a: SpawnId)
    requires QueueOk(s)
    ensures Queued(s, a) ==> a in s.book.owner && s.book.owner[a].Channel?
  {
    if !Queued(s, a) { return; }
    var k :| 0 <= k < |s.queue| && s.queue[k].id == a;
    assert Holds(s.book, s.queue[k], Channel);
  }
}
