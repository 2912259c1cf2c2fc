/** What runs of the orchestrator must do, beside what they must not: a spawn met by a drain
    or by debt is never created, a visit serves the queue it saw, shutdown goes through its
    stages in order, and from every reachable state a drain can still finish. */
module ProtocolProgress {
  import opened Ledger
  import opened Worker
  import opened WorkerScript
  import opened Protocol
  import opened ProtocolInvariant
  import opened ProtocolTheorems

  // ----------------------------------------------------------------- turned away

  /** The spawn is on its way out with nothing made, or already out. */
  predicate OnItsWayOut(s: Sys, id: SpawnId) {
    && id in s.book.owner && !Debt(Look(s, id))
    && match s.book.owner[id]
       case Worker(w) =>
         && w < |s.slots| && s.slots[w].Busy?
         && (s.slots[w].pc == Cleaning(Unwind) || s.slots[w].pc == Starting(Discard))
       case Nobody => true
       case _ => false
  }

  lemma OutIsNotLive(c: Config, s: Sys, id: SpawnId)
    requires Inv(c, s) && OnItsWayOut(s, id)
    ensures id !in Live(s)
  {
    assert SpawnOk(s, id);
  }

  lemma OutPoll(c: Config, s: Sys, p: PollEvent, id: SpawnId)
    requires PollerAt(c, s) && s.book.owner.Keys == s.book.issued.Keys && OnItsWayOut(s, id)
    ensures OnItsWayOut(PollStep(c, s, p), id)
  {
  }

  lemma OutOwn(c: Config, s: Sys, w: nat, i: Intent)
    requires w < |s.slots| && OnItsWayOut(s, i.id)
    ensures OnItsWayOut(Commit(c, s, w, i, Act(Finished, Calls(Release(i.id)))), i.id)
  {
  }

  lemma OutMustRelease(s: Sys, w: nat, i: Intent, pc: Pc, e: Env, x: Choice)
    requires SlotsOk(s) && w < |s.slots| && s.slots[w] == Busy(i, pc) && OnItsWayOut(s, i.id)
    ensures Advance(i, pc, e, x) == Act(Finished, Calls(Release(i.id)))
  {
    assert Holds(s.book, i, Worker(w));
  }

  lemma OutOther(c: Config, s: Sys, w: nat, i: Intent, pc: Pc, x: Choice, id: SpawnId)
    requires SlotsOk(s) && SpawnsOk(s) && Known(s) && w < |s.slots| && s.slots[w] == Busy(i, pc)
    requires Possible(pc, Look(s, i.id), x) && OnItsWayOut(s, id) && id != i.id
    ensures OnItsWayOut(Commit(c, s, w, i, Advance(i, pc, EnvOf(c, s, i), x)), id)
  {
    var a := Advance(i, pc, EnvOf(c, s, i), x);
    assert Holds(s.book, i, Worker(w)) && SpawnOk(s, id);
    BusyMoves(c, s, w, i, pc, x);
    WorkerOtherView(c, s, w, i, a, Commit(c, s, w, i, a), id);
  }

  lemma OutReceive(s: Sys, w: nat, id: SpawnId)
    requires QueueOk(s) && OnItsWayOut(s, id) && w < |s.slots| && s.slots[w].Waiting? && s.queue != []
    ensures OnItsWayOut(Receive(s, w), id)
  {
    assert Holds(s.book, s.queue[0], Channel);
  }

  lemma OutWork(c: Config, s: Sys, w: nat, x: Choice, id: SpawnId)
    requires Inv(c, s) && OnItsWayOut(s, id)
    ensures OnItsWayOut(WorkStep(c, s, w, x), id)
  {
    if w < |s.slots| {
      match s.slots[w]
      case Exited =>
      case Waiting => if s.queue != [] { OutReceive(s, w, id); }
      case Busy(i, pc) =>
        if Possible(pc, Look(s, i.id), x) {
          if id == i.id { OutMustRelease(s, w, i, pc, EnvOf(c, s, i), x); OutOwn(c, s, w, i); }
          else { OutOther(c, s, w, i, pc, x, id); }
        }
    }
  }

  lemma OutStep(c: Config, s: Sys, e: Event, id: SpawnId)
    requires Inv(c, s) && OnItsWayOut(s, id)
    ensures OnItsWayOut(Step(c, s, e), id)
  {
    match e
    case Poll(p) => OutPoll(c, s, p, id);
    case Work(w, x) => OutWork(c, s, w, x, id);
    case _ => OutElsewhere(c, s, e, id);
  }

  lemma OutElsewhere(c: Config, s: Sys, e: Event, id: SpawnId)
    requires OnItsWayOut(s, id) && !e.Poll? && !e.Work?
    ensures OnItsWayOut(Step(c, s, e), id)
  {
  }

  lemma {:induction false} OutForever(c: Config, s: Sys, es: seq<Event>, id: SpawnId)
    requires Inv(c, s) && OnItsWayOut(s, id)
    ensures Inv(c, Protocol.Run(c, s, es)) && OnItsWayOut(Protocol.Run(c, s, es), id)
    decreases |es|
  {
    if es != [] {
      StepKeeps(c, s, es[0]);
      OutStep(c, s, es[0], id);
      OutForever(c, Step(c, s, es[0]), es[1..], id);
    }
  }

  /** A worker that has just received a spawn while the orchestrator drains, stands at the
      gate while debt or a drain blocks scheduling, or gets no rate token or runner.yml. */
  predicate MetAClosedDoor(s: Sys, w: nat, x: Choice) {
    && w < |s.slots| && s.slots[w].Busy?
    && match s.slots[w].pc
       case Starting(Received) => s.control.draining
       case Starting(Gate) => s.ledger.draining || AnyDebt(s.ledger.reservations)
       case Starting(Prepare) => !x.Succeed?
       case _ => false
  }

  lemma DoorStep(c: Config, s: Sys, w: nat, x: Choice)
    requires SlotsOk(s) && SpawnsOk(s) && PhaseExact(s.ledger) && MetAClosedDoor(s, w, x)
    ensures OnItsWayOut(WorkStep(c, s, w, x), s.slots[w].intent.id)
  {
    var i := s.slots[w].intent;
    StartingOwesNothing(s, w);
    DebtRaisesFlag(s.ledger);
    var out := DoorTurns(i, s.slots[w].pc, EnvOf(c, s, i), x);
    SidewaysOut(c, s, w, x, out);
  }

  lemma StartingOwesNothing(s: Sys, w: nat)
    requires SlotsOk(s) && SpawnsOk(s) && w < |s.slots| && s.slots[w].Busy? && s.slots[w].pc.Starting?
    ensures Holds(s.book, s.slots[w].intent, Worker(w)) && !Debt(Look(s, s.slots[w].intent.id))
  {
    assert Holds(s.book, s.slots[w].intent, Worker(w)) && SpawnOk(s, s.slots[w].intent.id);
  }

  /** At a closed door the program only turns to its release. */
  lemma DoorTurns(i: Intent, pc: Pc, e: Env, x: Choice) returns (out: Pc)
    requires pc == Starting(Received) ==> e.draining
    requires pc == Starting(Gate) ==> e.blocked
    requires pc == Starting(Prepare) ==> !x.Succeed?
    requires pc in {Starting(Received), Starting(Gate), Starting(Prepare)}
    ensures Advance(i, pc, e, x) == Act(Continue(out), Quiet)
    ensures out == Cleaning(Unwind) || out == Starting(Discard)
  {
    out := Advance(i, pc, e, x).next.pc;
  }

  lemma SidewaysOut(c: Config, s: Sys, w: nat, x: Choice, out: Pc)
    requires w < |s.slots| && s.slots[w].Busy? && s.slots[w].pc.Starting?
    requires var i := s.slots[w].intent;
             && Holds(s.book, i, Worker(w)) && !Debt(Look(s, i.id))
             && Advance(i, s.slots[w].pc, EnvOf(c, s, i), x) == Act(Continue(out), Quiet)
    requires out == Cleaning(Unwind) || out == Starting(Discard)
    ensures OnItsWayOut(WorkStep(c, s, w, x), s.slots[w].intent.id)
  {
  }

  lemma DebtRaisesFlag(l: State)
    requires PhaseExact(l)
    ensures AnyDebt(l.reservations) ==> Blocked(l)
  {
    if AnyDebt(l.reservations) {
      var id :| id in l.reservations && l.reservations[id].phase.TeardownBlocked?;
      assert id in Debts(l.reservations);
    }
  }

  /** A spawn that met a closed door has no stack and no registration from then on, whatever
      its worker is answered and whatever happens later. */
  lemma TurnedAway(c: Config, es: seq<Event>, w: nat, x: Choice, later: seq<Event>)
    requires MetAClosedDoor(After(c, es), w, x)
    ensures After(c, es).slots[w].intent.id !in Live(Protocol.Run(c, WorkStep(c, After(c, es), w, x), later))
  {
    Reachable(c, es);
    var s := After(c, es);
    DoorStep(c, s, w, x);
    WorkKeeps(c, s, w, x);
    OutForever(c, WorkStep(c, s, w, x), later, s.slots[w].intent.id);
    OutIsNotLive(c, Protocol.Run(c, WorkStep(c, s, w, x), later), s.slots[w].intent.id);
  }

  // ---------------------------------------------------------- the stages of a stop

  function StageOf(at: ShutPc): nat {
    match at
    case Running => 0
    case Flagging => 1
    case Cancelling => 2
    case Joining => 3
    case Draining => 4
    case Forcing => 5
    case ForcedDrain => 6
    case Done(_, _) => 7
  }

  /** What each stage has behind it. */
  predicate Staged(s: Sys) {
    var k := s.control;
    && (s.ledger.draining <==> StageOf(k.at) >= 1)
    && (k.draining <==> StageOf(k.at) >= 2)
    && (StageOf(k.at) >= 3 ==> k.pollCancelled)
    && (k.at.ForcedDrain? || (k.at.Done? && k.at.forced) ==> k.workersCancelled)
  }

  /** No worker's call and no reservation touches the draining flag. */
  lemma FlagStays(c: Config, s: Sys, e: Event)
    requires e.Poll? || e.Work?
    ensures Step(c, s, e).ledger.draining == s.ledger.draining && Step(c, s, e).control.at == s.control.at
    ensures var k, k' := s.control, Step(c, s, e).control; k' == k.(misused := k'.misused)
  {
    if e.Poll? { PollFlagStays(c, s, e.p); } else { WorkFlagStays(c, s, e.w, e.x); }
  }

  lemma PollFlagStays(c: Config, s: Sys, p: PollEvent)
    ensures PollStep(c, s, p).ledger.draining == s.ledger.draining
    ensures var k, k' := s.control, PollStep(c, s, p).control; k' == k.(misused := k'.misused)
  {
  }

  lemma NeverSetsDraining(i: Intent, pc: Pc, e: Env, x: Choice)
    ensures var f := Advance(i, pc, e, x).effect; f.Calls? ==> !f.call.SetDraining?
  {
  }

  lemma CallFlagStays(l: State, call: Call)
    requires !call.SetDraining?
    ensures Apply(l, call).draining == l.draining
  {
  }

  lemma WorkFlagStays(c: Config, s: Sys, w: nat, x: Choice)
    ensures WorkStep(c, s, w, x).ledger.draining == s.ledger.draining && WorkStep(c, s, w, x).control == s.control
  {
    if w < |s.slots| && s.slots[w].Busy? {
      var i, pc := s.slots[w].intent, s.slots[w].pc;
      NeverSetsDraining(i, pc, EnvOf(c, s, i), x);
      var f := Advance(i, pc, EnvOf(c, s, i), x).effect;
      if f.Calls? { CallFlagStays(s.ledger, f.call); }
    }
  }

  lemma StagedStep(c: Config, s: Sys, e: Event)
    requires Staged(s)
    ensures Staged(Step(c, s, e)) && StageOf(s.control.at) <= StageOf(Step(c, s, e).control.at)
    ensures Step(c, s, e).control.workersCancelled ==>
              s.control.workersCancelled || e.CancelAll? || s.control.at.Forcing?
    ensures Step(c, s, e).control.at.Forcing? ==> s.control.at.Forcing? || e == Shutdown(true)
  {
    if e.Poll? || e.Work? { FlagStays(c, s, e); }
  }

  /** Someone cancelled everything, or the drain deadline has passed. */
  predicate Pressed(es: seq<Event>) { CancelAll in es || Shutdown(true) in es }

  lemma {:induction false} StagedRun(c: Config, s: Sys, es: seq<Event>)
    requires Staged(s)
    ensures var s' := Protocol.Run(c, s, es);
            && Staged(s') && StageOf(s.control.at) <= StageOf(s'.control.at)
            && (s'.control.workersCancelled || s'.control.at.Forcing? ==>
                  s.control.workersCancelled || s.control.at.Forcing? || Pressed(es))
    decreases |es|
  {
    if es != [] {
      StagedStep(c, s, es[0]);
      StagedRun(c, Step(c, s, es[0]), es[1..]);
      assert es == [es[0]] + es[1..];
    }
  }

  /** Over every run the stages of a stop follow one another: the scheduler's flag, the
      workers' flag, the end of polling, the closed channel; a stop reported as forced has
      cancelled the workers, and they are cancelled only after the deadline or with
      everything else. */
  lemma ShutdownInOrder(c: Config, es: seq<Event>, later: seq<Event>)
    ensures var s, s' := After(c, es), Protocol.Run(c, After(c, es), later);
            && Staged(s) && Staged(s') && StageOf(s.control.at) <= StageOf(s'.control.at)
            && (s.control.workersCancelled ==> Pressed(es))
  {
    StagedRun(c, Init(c), es);
    StagedRun(c, After(c, es), later);
  }

  // ------------------------------------------------------- a drain can always finish

  function SlotLoad(x: Slot): nat {
    match x
    case Exited => 0
    case Waiting => 1
    case Busy(_, pc) => 1 + Ahead(pc)
  }

  function SlotsLoad(xs: seq<Slot>): nat {
    if xs == [] then 0 else SlotsLoad(xs[..|xs| - 1]) + SlotLoad(xs[|xs| - 1])
  }

  lemma {:induction false} LoadOfUpdate(xs: seq<Slot>, w: nat, x: Slot)
    requires w < |xs|
    ensures SlotsLoad(xs[w := x]) == SlotsLoad(xs) - SlotLoad(xs[w]) + SlotLoad(x)
  {
    if w == |xs| - 1 { assert xs[w := x][..w] == xs[..w]; }
    else {
      LoadOfUpdate(xs[..|xs| - 1], w, x);
      assert xs[w := x][..|xs| - 1] == xs[..|xs| - 1][w := x];
    }
  }

  /** What the workers still have before them. */
  function Load(s: Sys): nat { 26 * |s.queue| + SlotsLoad(s.slots) }

  function PollLeft(p: Poller): nat {
    match p
    case Stopped => 0
    case Idle => 1
    case Filling(_) => 2
    case Hand(_, _) => 2
    case GlobalRead(_, _, _) => 3
    case RepoRead(_, _, _) => 4
    case Visit(_, _) => 5
  }

  function WorldSize(w: World): nat { |w.stacks| + |w.registrations| }

  /** Nearer to a finished drain: a later stage, or a poller nearer its end, or less left
      alive, or less work left. */
  predicate Nearer(s: Sys, s': Sys) {
    var a, a' := StageOf(s.control.at), StageOf(s'.control.at);
    var p, p' := PollLeft(s.poller), PollLeft(s'.poller);
    var w, w' := WorldSize(s.world), WorldSize(s'.world);
    a < a' || (a == a' && (p' < p || (p == p' && (w' < w || (w == w' && Load(s') < Load(s))))))
  }

  /** The answer that gives up creating and watching, and succeeds at cleaning. */
  function Decline(pc: Pc): Choice { if pc.Creating? || pc.Watching? then FailClean else Succeed }

  lemma DeclineAdvances(i: Intent, pc: Pc, v: View, e: Env)
    requires Clear(v)
    ensures Possible(pc, v, Decline(pc))
    ensures var a := Advance(i, pc, e, Decline(pc));
            && (a.next.Finished? || Ahead(a.next.pc) < Ahead(pc)) && Ahead(pc) > 0
            && !a.effect.NewStack? && !a.effect.NewRegistration?
  {
    DecisiveAdvances(i, pc, Moment(e, Decline(pc)));
  }

  lemma BusyNearer(c: Config, s: Sys, w: nat)
    requires s.world == World({}, {}) && w < |s.slots| && s.slots[w].Busy?
    ensures Nearer(s, WorkStep(c, s, w, Decline(s.slots[w].pc)))
  {
    var i, pc := s.slots[w].intent, s.slots[w].pc;
    DeclineAdvances(i, pc, Look(s, i.id), EnvOf(c, s, i));
    var a := Advance(i, pc, EnvOf(c, s, i), Decline(pc));
    LoadOfUpdate(s.slots, w, if a.next.Finished? then Waiting else Busy(i, a.next.pc));
  }

  lemma WaitingNearer(c: Config, s: Sys, w: nat, x: Choice)
    requires w < |s.slots| && s.slots[w].Waiting? && s.control.closed
    ensures Nearer(s, WorkStep(c, s, w, x))
  {
    if s.queue != [] { LoadOfUpdate(s.slots, w, Busy(s.queue[0], Starting(Received))); }
    else { LoadOfUpdate(s.slots, w, Exited); }
  }

  /** Anything left alive may go away, and until all workers have left one of them can act. */
  lemma WorkersNearer(c: Config, s: Sys) returns (e: Event)
    requires s.control.closed && !AllExited(s)
    ensures Nearer(s, Step(c, s, e)) && !e.CancelAll? && !e.Shutdown?
  {
    if id :| id in s.world.stacks { e := StackGone(id); }
    else if id :| id in s.world.registrations { e := RegistrationGone(id); }
    else {
      var w: nat :| w < |s.slots| && !s.slots[w].Exited?;
      if s.slots[w].Busy? {
        e := Work(w, Decline(s.slots[w].pc));
        BusyNearer(c, s, w);
      } else {
        e := Work(w, Succeed);
        WaitingNearer(c, s, w, Succeed);
      }
    }
  }

  lemma {:induction false} LongerThanAll(ids: set<SpawnId>) returns (n: nat)
    ensures forall id :: id in ids ==> |id| < n
  {
    n := 0;
    if ids != {} {
      var id :| id in ids;
      n := LongerThanAll(ids - {id});
      n := n + |id| + 1;
    }
  }

  /** A spawn ID that was never issued. */
  lemma FreshId(ids: set<SpawnId>) returns (id: SpawnId)
    ensures id !in ids
  {
    var n := LongerThanAll(ids);
    id := seq(n, _ => 'a');
  }

  /** A cancelled poller facing a draining scheduler comes to its end. */
  lemma PollerNearer(c: Config, s: Sys) returns (e: Event)
    requires s.ledger.draining && s.control.pollCancelled && !s.poller.Stopped?
    ensures Nearer(s, Step(c, s, e)) && !e.CancelAll? && !e.Shutdown?
  {
    match s.poller
    case Idle => e := Poll(Stop);
    case Filling(f) =>
      var id := FreshId(s.book.issued.Keys);
      e := Poll(if f.made >= f.toSpawn then Leave else Take(id));
    case Hand(_, _) => e := Poll(Abort);
    case _ => e := Poll(Read);
  }

  lemma DrainStep(c: Config, s: Sys) returns (e: Event)
    requires ControlOk(c, s) && Staged(s) && !s.control.at.Done?
    ensures Nearer(s, Step(c, s, e)) && e != CancelAll && e != Shutdown(true)
  {
    if s.control.at.Joining? && !s.poller.Stopped? { e := PollerNearer(c, s); }
    else if (s.control.at.Draining? || s.control.at.ForcedDrain?) && !AllExited(s) { e := WorkersNearer(c, s); }
    else { e := Shutdown(false); }
  }

  /** Shutdown ends well: stopped workers, and cancelled ones only if they were, or were
      about to be, at the start. */
  predicate EndsWell(s: Sys, s': Sys) {
    && s'.control.at.Done? && s'.control.at.workersStopped
    && (s'.control.workersCancelled ==> s.control.workersCancelled || s.control.at.Forcing?)
  }

  lemma {:induction false} DrainFrom(c: Config, s: Sys) returns (es: seq<Event>)
    requires Inv(c, s) && Staged(s)
    requires s.control.at.Done? ==> s.control.at.workersStopped
    ensures EndsWell(s, Protocol.Run(c, s, es)) && !Pressed(es)
    decreases 7 - StageOf(s.control.at), PollLeft(s.poller), WorldSize(s.world), Load(s)
  {
    if s.control.at.Done? { return []; }
    var e := DrainStep(c, s);
    StepKeeps(c, s, e);
    StagedStep(c, s, e);
    StopsWell(c, s, e);
    var rest := DrainFrom(c, Step(c, s, e));
    es := [e] + rest;
    assert es[1..] == rest;
  }

  lemma StopsWell(c: Config, s: Sys, e: Event)
    requires !s.control.at.Done? && e != Shutdown(true)
    ensures Step(c, s, e).control.at.Done? ==> Step(c, s, e).control.at.workersStopped
  {
    if e.Poll? || e.Work? { FlagStays(c, s, e); }
  }

  /** No deadlock: unless the stop was already given up, every reachable state has a
      continuation, without any deadline passing and without cancelling anything, that ends
      with the workers reported stopped; and if none had been cancelled, with nothing
      reserved and nothing alive. */
  lemma DrainCanFinish(c: Config, es: seq<Event>) returns (more: seq<Event>)
    requires After(c, es).control.at.Done? ==> After(c, es).control.at.workersStopped
    ensures !Pressed(more)
    ensures var s' := After(c, es + more);
            && s'.control.at.Done? && s'.control.at.workersStopped
            && (!Pressed(es) ==> s'.ledger.reservations == map[] && Live(s') == {})
  {
    Reachable(c, es);
    StagedRun(c, Init(c), es);
    more := DrainFrom(c, After(c, es));
    RunJoins(c, Init(c), es, more);
    DrainLeavesOnlyDebt(c, es + more);
  }
}
