/** What holds in every run of the orchestrator: after any sequence of poll, worker,
    environment and shutdown events, in any order. */
module ProtocolTheorems {
  import opened Ledger
  import opened Worker
  import opened Protocol
  import opened ProtocolInvariant

  lemma Reachable(c: Config, es: seq<Event>)
    ensures Inv(c, After(c, es))
  {
    InitInv(c);
    RunKeeps(c, Init(c), es);
  }

  lemma {:induction false} RunJoins(c: Config, s: Sys, es: seq<Event>, more: seq<Event>)
    ensures Protocol.Run(c, s, es + more) == Protocol.Run(c, Protocol.Run(c, s, es), more)
    decreases |es|
  {
    if es == [] { assert es + more == more; }
    else {
      RunJoins(c, Step(c, s, es[0]), es[1..], more);
      assert (es + more)[1..] == es[1..] + more;
    }
  }

  // -------------------------------------------------------------------- capacity

  lemma LiveIsReserved(c: Config, s: Sys, id: SpawnId)
    requires Inv(c, s) && id in Live(s)
    ensures id in s.book.issued && id in s.ledger.reservations && s.ledger.reservations[id].repo == s.book.issued[id]
  {
    assert SpawnOk(s, id);
  }

  /** The spawns of a repository with a live stack or registration never number more than
      its charged capacity, nor that more than its cap; and likewise over all repositories. */
  lemma CapacityHolds(c: Config, es: seq<Event>, repo: Repo)
    ensures var s := After(c, es);
            && |LiveIn(s, repo)| <= At(s.ledger, repo).inFlight <= CapOf(c, repo)
            && |Live(s)| <= SumInFlight(s.ledger.perRepo) <= c.globalMax
  {
    Reachable(c, es);
    var s := After(c, es);
    LiveWithinCharge(c, s, repo);
    GlobalIsReservations(s.ledger);
  }

  lemma LiveWithinCharge(c: Config, s: Sys, repo: Repo)
    requires Inv(c, s)
    ensures |LiveIn(s, repo)| <= At(s.ledger, repo).inFlight <= CapOf(c, repo)
    ensures |Live(s)| <= |s.ledger.reservations|
  {
    forall id | id in Live(s)
      ensures id in s.ledger.reservations && (id in LiveIn(s, repo) ==> id in InRepo(s.ledger.reservations, repo))
    {
      LiveIsReserved(c, s, id);
    }
    SubsetSize(LiveIn(s, repo), InRepo(s.ledger.reservations, repo));
    SubsetSize(Live(s), s.ledger.reservations.Keys);
    assert At(s.ledger, repo).inFlight == |InRepo(s.ledger.reservations, repo)| <= CapOf(c, repo);
  }

  // ------------------------------------------------------------------- settling

  /** Gone without a trace, or debt that blocks admission, kept only under cancellation. */
  ghost predicate Resolved(s: Sys, id: SpawnId) {
    || (id !in s.ledger.reservations && id !in Live(s))
    || (s.control.workersCancelled && id in Debts(s.ledger.reservations) && Blocked(s.ledger))
  }

  lemma {:induction false} NobodyStays(c: Config, s: Sys, es: seq<Event>, id: SpawnId)
    requires Inv(c, s) && id in s.book.owner && s.book.owner[id].Nobody?
    ensures var s' := Protocol.Run(c, s, es); Inv(c, s') && id in s'.book.owner && s'.book.owner[id].Nobody?
    decreases |es|
  {
    if es != [] {
      StepKeeps(c, s, es[0]);
      NobodyStaysStep(c, s, es[0], id);
      NobodyStays(c, Step(c, s, es[0]), es[1..], id);
    }
  }

  lemma NobodyStaysStep(c: Config, s: Sys, e: Event, id: SpawnId)
    requires PollerOk(c, s) && SlotsOk(s) && QueueOk(s) && s.book.owner.Keys == s.book.issued.Keys && id in s.book.owner
    requires s.book.owner[id].Nobody?
    ensures var s' := Step(c, s, e); id in s'.book.owner && s'.book.owner[id].Nobody?
  {
    match e
    case Poll(p) => NobodyStaysPoll(c, s, p, id);
    case Work(w, x) => NobodyStaysWork(c, s, w, x, id);
    case _ =>
  }

  lemma NobodyStaysPoll(c: Config, s: Sys, p: PollEvent, id: SpawnId)
    requires s.poller.Hand? ==> Holds(s.book, s.poller.intent, PollerHand)
    requires s.book.owner.Keys == s.book.issued.Keys && id in s.book.owner && s.book.owner[id].Nobody?
    ensures var s' := PollStep(c, s, p); id in s'.book.owner && s'.book.owner[id].Nobody?
  {
  }

  lemma NobodyStaysWork(c: Config, s: Sys, w: nat, x: Choice, id: SpawnId)
    requires SlotsOk(s) && QueueOk(s) && id in s.book.owner && s.book.owner[id].Nobody?
    ensures var s' := WorkStep(c, s, w, x); id in s'.book.owner && s'.book.owner[id].Nobody?
  {
    if w < |s.slots| && s.slots[w].Busy? { assert Holds(s.book, s.slots[w].intent, Worker(w)); }
    if s.queue != [] { assert Holds(s.book, s.queue[0], Channel); }
  }

  lemma NobodyIsResolved(c: Config, s: Sys, id: SpawnId)
    requires Inv(c, s) && id in s.book.owner && s.book.owner[id].Nobody?
    ensures Resolved(s, id)
  {
    assert SpawnOk(s, id);
  }

  lemma FinishingLetsGo(c: Config, s: Sys, w: nat, x: Choice)
    requires w < |s.slots| && s.slots[w].Busy? && WorkStep(c, s, w, x).slots[w].Waiting?
    ensures var s' := WorkStep(c, s, w, x);
            s.slots[w].intent.id in s'.book.owner && s'.book.owner[s.slots[w].intent.id].Nobody?
  {
  }

  lemma FinishedStaysResolved(c: Config, s: Sys, w: nat, x: Choice, later: seq<Event>)
    requires Inv(c, s) && w < |s.slots| && s.slots[w].Busy? && WorkStep(c, s, w, x).slots[w].Waiting?
    ensures Resolved(Protocol.Run(c, WorkStep(c, s, w, x), later), s.slots[w].intent.id)
  {
    FinishingLetsGo(c, s, w, x);
    WorkKeeps(c, s, w, x);
    NobodyStays(c, WorkStep(c, s, w, x), later, s.slots[w].intent.id);
    NobodyIsResolved(c, Protocol.Run(c, WorkStep(c, s, w, x), later), s.slots[w].intent.id);
  }

  /** Whenever a worker is done with a spawn, the spawn is resolved then and ever after. */
  lemma ExecuteSettles(c: Config, es: seq<Event>, w: nat, x: Choice, later: seq<Event>)
    requires w < |After(c, es).slots| && After(c, es).slots[w].Busy?
    requires WorkStep(c, After(c, es), w, x).slots[w].Waiting?
    ensures Resolved(Protocol.Run(c, WorkStep(c, After(c, es), w, x), later), After(c, es).slots[w].intent.id)
  {
    Reachable(c, es);
    FinishedStaysResolved(c, After(c, es), w, x, later);
  }

  // ------------------------------------------------------------------ ownership

  /** The place is the one the book names. */
  predicate Named(s: Sys, id: SpawnId, p: Place) {
    && id in s.book.owner
    && match s.book.owner[id]
       case PollerHand => p.InHand?
       case Channel => p.InChannel? && p.i < |s.queue| && s.queue[p.i].id == id
       case Worker(w) => p == AtWorker(w)
       case Nobody => false
  }

  lemma PlaceIsOwner(c: Config, s: Sys, id: SpawnId, p: Place)
    requires QueueOk(s) && SlotsOk(s) && PollerAt(c, s) && p in Places(s, id)
    ensures Named(s, id, p)
  {
    match p
    case InHand =>
    case InChannel(i) => assert Holds(s.book, s.queue[i], Channel);
    case AtWorker(w) => assert Holds(s.book, s.slots[w].intent, Worker(w));
  }

  lemma OnePlace(s: Sys, id: SpawnId, p: Place, q: Place)
    requires QueueOk(s) && Named(s, id, p) && Named(s, id, q)
    ensures p == q
  {
  }

  /** Every ordinary reservation is held in exactly one place, no spawn is ever held in two,
      and nothing is ever sent on the closed channel. */
  lemma OneOwner(c: Config, es: seq<Event>, id: SpawnId)
    ensures var s := After(c, es);
            && (forall p, q :: p in Places(s, id) && q in Places(s, id) ==> p == q)
            && (id in NonDebts(s.ledger.reservations) ==> Places(s, id) != {})
            && !s.control.misused
  {
    Reachable(c, es);
    var s := After(c, es);
    forall p, q | p in Places(s, id) && q in Places(s, id) ensures p == q {
      PlaceIsOwner(c, s, id, p);
      PlaceIsOwner(c, s, id, q);
      OnePlace(s, id, p, q);
    }
    if id in NonDebts(s.ledger.reservations) { ReservedIsHeld(c, s, id); }
  }

  lemma ReservedIsHeld(c: Config, s: Sys, id: SpawnId)
    requires Inv(c, s) && id in NonDebts(s.ledger.reservations)
    ensures Places(s, id) != {}
  {
    assert SpawnOk(s, id);
    match s.book.owner[id]
    case PollerHand => assert InHand in Places(s, id);
    case Channel =>
      var k :| 0 <= k < |s.queue| && s.queue[k].id == id;
      assert InChannel(k) in Places(s, id);
    case Worker(w) => assert AtWorker(w) in Places(s, id);
    case Nobody => assert false;
  }

  /** When the drain reports that the workers stopped, the channel is empty, the poller has
      been joined, only teardown debt is still charged and covers everything left alive; and
      without cancellation nothing at all is left. */
  lemma DrainLeavesOnlyDebt(c: Config, es: seq<Event>)
    requires After(c, es).control.at.Done? && After(c, es).control.at.workersStopped
    ensures var s := After(c, es);
            && s.queue == [] && s.poller.Stopped?
            && s.ledger.reservations.Keys == Debts(s.ledger.reservations)
            && Live(s) <= Debts(s.ledger.reservations)
            && (!s.control.workersCancelled ==> s.ledger.reservations == map[] && Live(s) == {})
  {
    Reachable(c, es);
    var s := After(c, es);
    DrainedQueue(c, s);
    forall id | id in s.ledger.reservations ensures id in Debts(s.ledger.reservations) && s.control.workersCancelled {
      assert SpawnOk(s, id);
    }
    forall id | id in Live(s) ensures id in Debts(s.ledger.reservations) {
      LiveIsReserved(c, s, id);
    }
  }

  lemma QueueNeedsWorkers(c: Config, s: Sys)
    requires Inv(c, s) && s.queue != []
    ensures |s.slots| > 0
  {
    assert Holds(s.book, s.queue[0], Channel) && SpawnOk(s, s.queue[0].id);
    assert s.queue[0].id in s.ledger.reservations.Keys;
  }

  lemma DrainedQueue(c: Config, s: Sys)
    requires Inv(c, s) && s.control.at.Done? && s.control.at.workersStopped
    ensures s.queue == []
  {
    if |s.slots| > 0 { assert s.slots[0].Exited?; }
    else if s.queue != [] { QueueNeedsWorkers(c, s); }
  }

  // --------------------------------------------------------------------- demand

  /** Pending and online runners of the repository being visited are within the queue the
      visit saw or the coverage it read, whichever is larger. */
  ghost predicate NotOverfilled(l: State, f: Fill) { At(l, f.repo).Coverage() <= Max(f.queued, f.coverage) }

  /** A visit never leaves a repository with more pending and online runners than that. */
  lemma VisitNeverOverfills(c: Config, es: seq<Event>)
    ensures var s := After(c, es); s.poller.Filling? || s.poller.Hand? ==> NotOverfilled(s.ledger, s.poller.fill)
  {
    Reachable(c, es);
    PollerWithinDemand(c, After(c, es));
  }

  lemma PollerWithinDemand(c: Config, s: Sys)
    requires PollerAt(c, s)
    ensures s.poller.Filling? || s.poller.Hand? ==> NotOverfilled(s.ledger, s.poller.fill)
  {
    if s.poller.Filling? { FillBound(c, s, s.poller.fill, 0); }
    if s.poller.Hand? { FillBound(c, s, s.poller.fill, 1); }
  }

  lemma FillBound(c: Config, s: Sys, f: Fill, extra: nat)
    requires FillOk(c, s, f, extra)
    ensures NotOverfilled(s.ledger, f)
  {
  }

  predicate Sees(e: Event, repo: Repo, most: nat) {
    e.Poll? && e.p.Begin? && e.p.repo == repo ==> e.p.queued <= most
  }

  lemma {:induction false} DemandIsSeen(c: Config, s: Sys, es: seq<Event>, repo: Repo, most: nat)
    requires Demand(s.book, repo) <= most && forall e :: e in es ==> Sees(e, repo, most)
    ensures Demand(Protocol.Run(c, s, es).book, repo) <= most
    decreases |es|
  {
    if es != [] {
      assert Sees(es[0], repo, most);
      DemandStep(c, s, es[0], repo, most);
      DemandIsSeen(c, Step(c, s, es[0]), es[1..], repo, most);
    }
  }

  lemma DemandStep(c: Config, s: Sys, e: Event, repo: Repo, most: nat)
    requires Demand(s.book, repo) <= most && Sees(e, repo, most)
    ensures Demand(Step(c, s, e).book, repo) <= most
  {
  }

  /** If no poll ever saw more than `most` queued jobs in a repository, its pending and
      online runners never exceed `most`, over any number of ticks: one queued job cannot
      accumulate runners. */
  lemma CoverageFollowsDemand(c: Config, es: seq<Event>, repo: Repo, most: nat)
    requires forall e :: e in es ==> Sees(e, repo, most)
    ensures At(After(c, es).ledger, repo).Coverage() <= most
  {
    Reachable(c, es);
    DemandIsSeen(c, Init(c), es, repo, most);
    assert CoveredAt(After(c, es).ledger, After(c, es).book, repo);
  }

  // --------------------------------------------------------------------- phases

  lemma StepForward(c: Config, s: Sys, e: Event, id: SpawnId)
    requires Inv(c, s) && id in s.book.issued
    ensures id in Step(c, s, e).book.issued && Later(Look(s, id), Look(Step(c, s, e), id))
  {
    match e
    case Poll(p) => PollForward(c, s, p, id);
    case Work(w, x) => WorkForward(c, s, w, x, id);
    case _ => OtherForward(c, s, e, id);
  }

  lemma OtherForward(c: Config, s: Sys, e: Event, id: SpawnId)
    requires !e.Poll? && !e.Work? && id in s.book.issued
    ensures id in Step(c, s, e).book.issued && Later(Look(s, id), Look(Step(c, s, e), id))
  {
  }

  lemma PollForward(c: Config, s: Sys, p: PollEvent, id: SpawnId)
    requires id in s.book.issued
    ensures id in PollStep(c, s, p).book.issued && Later(Look(s, id), Look(PollStep(c, s, p), id))
  {
  }

  lemma WorkForward(c: Config, s: Sys, w: nat, x: Choice, id: SpawnId)
    requires Inv(c, s) && id in s.book.issued
    ensures id in WorkStep(c, s, w, x).book.issued && Later(Look(s, id), Look(WorkStep(c, s, w, x), id))
  {
    if w < |s.slots| && s.slots[w].Busy? {
      var i, pc := s.slots[w].intent, s.slots[w].pc;
      if Possible(pc, Look(s, i.id), x) { BusyForward(c, s, w, i, pc, x, id); }
    }
  }

  lemma BusyForward(c: Config, s: Sys, w: nat, i: Intent, pc: Pc, x: Choice, id: SpawnId)
    requires Inv(c, s) && w < |s.slots| && s.slots[w] == Busy(i, pc) && Possible(pc, Look(s, i.id), x)
    ensures Later(Look(s, id), Look(Commit(c, s, w, i, Advance(i, pc, EnvOf(c, s, i), x)), id))
  {
    var a := Advance(i, pc, EnvOf(c, s, i), x);
    BusyMoves(c, s, w, i, pc, x);
    if id == i.id { WorkerOwnView(c, s, w, i, a, Commit(c, s, w, i, a)); }
    else { WorkerOtherView(c, s, w, i, a, Commit(c, s, w, i, a), id); }
  }

  lemma LaterTransitive(a: View, b: View, d: View)
    requires Later(a, b) && Later(b, d)
    ensures Later(a, d)
  {
  }

  lemma {:induction false} RunForward(c: Config, s: Sys, es: seq<Event>, id: SpawnId)
    requires Inv(c, s) && id in s.book.issued
    ensures Later(Look(s, id), Look(Protocol.Run(c, s, es), id))
    decreases |es|
  {
    if es != [] {
      var s' := Step(c, s, es[0]);
      StepKeeps(c, s, es[0]);
      StepForward(c, s, es[0], id);
      RunForward(c, s', es[1..], id);
      LaterTransitive(Look(s, id), Look(s', id), Look(Protocol.Run(c, s, es), id));
    }
  }

  /** Between any two moments of a run a spawn's phase never moves backwards, a released
      spawn is never reserved again, and what was counted stays counted. */
  lemma PhasesNeverGoBack(c: Config, es: seq<Event>, later: seq<Event>, id: SpawnId)
    requires id in After(c, es).book.issued
    ensures Later(Look(After(c, es), id), Look(Protocol.Run(c, After(c, es), later), id))
  {
    Reachable(c, es);
    RunForward(c, After(c, es), later, id);
  }

  /** Assignments and completions are counted once per spawn, a spawn is completed only
      after it was assigned, and a worker about to count a completion has been counted as
      assigned and its stored phase says so. */
  lemma DeliveryIsCountedOnce(c: Config, es: seq<Event>)
    ensures var s := After(c, es);
            && s.ledger.assignments == |s.book.delivered| && s.ledger.completed == |s.book.finished|
            && s.book.finished <= s.book.delivered
            && s.ledger.completed <= s.ledger.assignments
            && (forall w :: 0 <= w < |s.slots| && s.slots[w].Busy? && s.slots[w].pc == Watching(Completing) ==>
                  s.slots[w].intent.id in s.book.delivered - s.book.finished)
  {
    Reachable(c, es);
    var s := After(c, es);
    forall id | id in s.book.finished ensures id in s.book.delivered {
      assert SpawnOk(s, id);
    }
    SubsetSize(s.book.finished, s.book.delivered);
    forall w | 0 <= w < |s.slots| && s.slots[w].Busy? && s.slots[w].pc == Watching(Completing)
      ensures s.slots[w].intent.id in s.book.delivered - s.book.finished
    {
      assert Holds(s.book, s.slots[w].intent, Worker(w)) && SpawnOk(s, s.slots[w].intent.id);
    }
  }
}
