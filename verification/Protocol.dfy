/** The running orchestrator: one poller (internal/orchestrator/poll.go), a bounded intent
    channel, a pool of workers running `Execute`, and the shutdown sequence
    (cmd/orchestrator/shutdown.go, run.go), interleaved in any order. A run is any sequence
    of events; an event that is not enabled changes nothing. */
module Protocol {
  import opened Ledger
  import opened Worker

  datatype Config = Config(caps: map<Repo, nat>, globalMax: nat)

  /** Capacity of the intent channel. */
  const CHANNEL_SIZE := 32

  /** A visit's fill loop: the queue length, coverage and free capacity it read, how many
      spawns it will make and how many it has sent. */
  datatype Fill = Fill(repo: Repo, queued: nat, coverage: nat, avail: nat, toSpawn: nat, made: nat)

  datatype Poller =
    | Idle
    | Visit(repo: Repo, queued: nat)
    | RepoRead(repo: Repo, queued: nat, repoAvail: int)
    | GlobalRead(repo: Repo, queued: nat, avail: nat)
    | Filling(fill: Fill)
    | Hand(intent: Intent, fill: Fill)   // reserved, not yet sent
    | Stopped

  datatype Slot = Waiting | Busy(intent: Intent, pc: Pc) | Exited

  datatype ShutPc =
    | Running
    | Flagging
    | Cancelling
    | Joining
    | Draining
    | Forcing
    | ForcedDrain
    | Done(forced: bool, workersStopped: bool)

  /** Shutdown control. `misused` records a send on the closed channel, which would panic. */
  datatype Control = Control(
    at: ShutPc,
    draining: bool,
    pollCancelled: bool,
    workersCancelled: bool,
    closed: bool,
    misused: bool)

  /** The outside world. */
  datatype World = World(stacks: set<SpawnId>, registrations: set<SpawnId>)

  datatype Owner = PollerHand | Channel | Worker(w: nat) | Nobody

  /** History: every spawn ID ever issued and its repository, who holds it, which spawns were
      counted as assigned and completed, and the longest queue each repository has shown. */
  datatype Book = Book(
    issued: map<SpawnId, Repo>,
    owner: map<SpawnId, Owner>,
    delivered: set<SpawnId>,
    finished: set<SpawnId>,
    demand: map<Repo, nat>)

  datatype Sys = Sys(
    ledger: State,
    world: World,
    poller: Poller,
    queue: seq<Intent>,
    slots: seq<Slot>,
    control: Control,
    book: Book)

  datatype PollEvent =
    | Begin(repo: Repo, queued: nat)
    | Read
    | Take(id: SpawnId)
    | Send
    | Abort
    | Leave
    | Stop

  datatype Event =
    | CancelAll
    | StackGone(id: SpawnId)
    | RegistrationGone(id: SpawnId)
    | Poll(p: PollEvent)
    | Work(w: nat, x: Choice)
    | Shutdown(timeout: bool)

  function Init(c: Config): Sys {
    Sys(NEW, World({}, {}), Idle, [], seq(c.globalMax, _ => Waiting),
        Control(Running, false, false, false, false, false), Book(map[], map[], {}, {}, map[]))
  }

  function CapOf(c: Config, repo: Repo): nat { if repo in c.caps then c.caps[repo] else 0 }

  function Demand(b: Book, repo: Repo): nat { if repo in b.demand then b.demand[repo] else 0 }

  function Max(a: int, b: int): int { if a < b then b else a }
  function Min(a: int, b: int): int { if a < b then a else b }

  // --------------------------------------------------------------------- poller

  ghost function PollStep(c: Config, s: Sys, p: PollEvent): Sys {
    match s.poller
    case Idle =>
      if p.Begin? && p.repo in c.caps then
        s.(poller := Visit(p.repo, p.queued),
           book := s.book.(demand := s.book.demand[p.repo := Max(Demand(s.book, p.repo), p.queued)]))
      else if p.Stop? && s.control.pollCancelled then s.(poller := Stopped)
      else s
    case Visit(_, _) => if p.Read? then ReadOn(c, s, s.poller.repo) else s
    case RepoRead(_, _, _) => if p.Read? then ReadOn(c, s, s.poller.repo) else s
    case GlobalRead(_, _, _) => if p.Read? then ReadOn(c, s, s.poller.repo) else s
    case Filling(f) =>
      if f.made >= f.toSpawn then (if p.Leave? then s.(poller := Idle) else s)
      else if p.Take? && p.id !in s.book.issued then TakeId(c, s, f, p.id)
      else s
    case Hand(i, f) =>
      if p.Send? then SendIntent(s, i, f)
      else if p.Abort? && s.control.pollCancelled then AbortHand(s, i)
      else s
    case Stopped => s
  }

  ghost function ReadOn(c: Config, s: Sys, repo: Repo): Sys {
    s.(poller := NextRead(c, s.poller, At(s.ledger, repo), SumInFlight(s.ledger.perRepo)))
  }

  /** A visit reads the free capacity of its repository, the free capacity of all, and how
      much of the queue is covered already, each under its own lock: `n` are the counters of
      its repository then, and `total` the sum over all. */
  function NextRead(c: Config, p: Poller, n: Counters, total: nat): Poller {
    match p
    case Visit(repo, queued) => RepoRead(repo, queued, CapOf(c, repo) - n.inFlight)
    case RepoRead(repo, queued, repoAvail) =>
      GlobalRead(repo, queued, Max(Min(repoAvail, c.globalMax - total), 0))
    case GlobalRead(repo, queued, avail) => Filling(FillFor(repo, queued, n.Coverage(), avail))
    case _ => p
  }

  /** Uncovered demand within the free capacity. */
  function FillFor(repo: Repo, queued: nat, coverage: nat, avail: nat): Fill {
    Fill(repo, queued, coverage, avail, Min(Max(queued - coverage, 0), avail), 0)
  }

  /** NewSpawnID, TryReserve, and the break out of the loop when it is refused. */
  ghost function TakeId(c: Config, s: Sys, f: Fill, id: SpawnId): Sys {
    var ok := Reserves(s.ledger, id, f.repo, CapOf(c, f.repo), c.globalMax);
    s.(ledger := TryReserve(s.ledger, id, f.repo, CapOf(c, f.repo), c.globalMax),
       poller := if ok then Hand(Intent(id, f.repo), f) else Idle,
       book := GiveTo(s.book, id, if ok then PollerHand else Nobody).(issued := s.book.issued[id := f.repo]))
  }

  function SendIntent(s: Sys, i: Intent, f: Fill): Sys {
    if s.control.closed then s.(control := s.control.(misused := true))
    else if |s.queue| >= CHANNEL_SIZE then s
    else s.(queue := s.queue + [i], poller := Filling(f.(made := f.made + 1)), book := GiveTo(s.book, i.id, Channel))
  }

  /** The poller gives its reservation back when polling is cancelled under it. */
  function AbortHand(s: Sys, i: Intent): Sys {
    s.(poller := Idle, ledger := ReleaseReservation(s.ledger, i.id), book := GiveTo(s.book, i.id, Nobody))
  }

  function GiveTo(b: Book, id: SpawnId, o: Owner): Book { b.(owner := b.owner[id := o]) }

  // -------------------------------------------------------------------- workers

  function Look(s: Sys, id: SpawnId): View {
    View(id in s.ledger.reservations,
         if id in s.ledger.reservations then s.ledger.reservations[id].phase else Pending,
         id in s.world.stacks, id in s.world.registrations, id in s.book.delivered, id in s.book.finished)
  }

  ghost function EnvOf(c: Config, s: Sys, i: Intent): Env {
    Env(s.control.draining, HasReservation(s.ledger, i.id, i.repo), Blocked(s.ledger),
        Reserves(s.ledger, i.id, i.repo, CapOf(c, i.repo), c.globalMax),
        s.control.workersCancelled, CapOf(c, i.repo), c.globalMax)
  }

  /** One step of worker `w`: it waits on the channel, leaves when the channel is closed and
      empty, or advances the spawn it holds. */
  ghost function WorkStep(c: Config, s: Sys, w: nat, x: Choice): Sys {
    if w >= |s.slots| then s
    else match s.slots[w]
      case Exited => s
      case Waiting =>
        if s.queue != [] then Receive(s, w)
        else if s.control.closed then s.(slots := s.slots[w := Exited])
        else s
      case Busy(i, pc) =>
        if !Possible(pc, Look(s, i.id), x) then s
        else Commit(c, s, w, i, Advance(i, pc, EnvOf(c, s, i), x))
  }

  /** Taking the first intent from the channel. */
  function Receive(s: Sys, w: nat): Sys
    requires w < |s.slots| && s.queue != []
  {
    s.(queue := s.queue[1..], slots := s.slots[w := Busy(s.queue[0], Starting(Received))],
       book := GiveTo(s.book, s.queue[0].id, Worker(w)))
  }

  /** The shared state after a worker's step. */
  ghost function Commit(c: Config, s: Sys, w: nat, i: Intent, a: Act): Sys
    requires w < |s.slots|
  {
    var b := if a.next.Finished? then GiveTo(s.book, i.id, Nobody) else s.book;
    s.(ledger := if a.effect.Calls? then Apply(s.ledger, a.effect.call) else s.ledger,
       world := World(s.world.stacks + (if a.effect.NewStack? then {i.id} else {}),
                      s.world.registrations + (if a.effect.NewRegistration? then {i.id} else {})),
       slots := s.slots[w := if a.next.Finished? then Waiting else Busy(i, a.next.pc)],
       book := b.(delivered := if Delivers(s, a) then b.delivered + {i.id} else b.delivered,
                  finished := if a.effect == Calls(Complete) then b.finished + {i.id} else b.finished))
  }

  predicate Delivers(s: Sys, a: Act) {
    a.effect.Calls? && a.effect.call.SetAssigned? && Assigns(s.ledger, a.effect.call.id)
  }

  // ------------------------------------------------------------------- shutdown

  predicate AllExited(s: Sys) { forall w :: 0 <= w < |s.slots| ==> s.slots[w].Exited? }

  /** `SetDraining`, then drainAndStop: store the flag, cancel polling, join the poller and
      close the channel, wait for the workers, and cancel them only after the deadline. */
  function ShutStep(s: Sys, timeout: bool): Sys {
    var k := s.control;
    match k.at
    case Running => s.(ledger := s.ledger.(draining := true), control := k.(at := Flagging))
    case Flagging => s.(control := k.(at := Cancelling, draining := true))
    case Cancelling => s.(control := k.(at := Joining, pollCancelled := true))
    case Joining => if s.poller.Stopped? then s.(control := k.(at := Draining, closed := true)) else s
    case Draining =>
      if timeout then s.(control := k.(at := Forcing))
      else if AllExited(s) then s.(control := k.(at := Done(false, true))) else s
    case Forcing => s.(control := k.(at := ForcedDrain, workersCancelled := true))
    case ForcedDrain =>
      if timeout then s.(control := k.(at := Done(true, false)))
      else if AllExited(s) then s.(control := k.(at := Done(true, true))) else s
    case Done(_, _) => s
  }

  // ----------------------------------------------------------------------- runs

  ghost function Step(c: Config, s: Sys, e: Event): Sys {
    match e
    case CancelAll => s.(control := s.control.(pollCancelled := true, workersCancelled := true))
    case StackGone(id) => s.(world := s.world.(stacks := s.world.stacks - {id}))
    case RegistrationGone(id) => s.(world := s.world.(registrations := s.world.registrations - {id}))
    case Poll(p) => PollStep(c, s, p)
    case Work(w, x) => WorkStep(c, s, w, x)
    case Shutdown(timeout) => ShutStep(s, timeout)
  }

  ghost function Run(c: Config, s: Sys, es: seq<Event>): Sys
    decreases |es|
  {
    if es == [] then s else Run(c, Step(c, s, es[0]), es[1..])
  }

  /** The state after any sequence of events from the start. */
  ghost function After(c: Config, es: seq<Event>): Sys { Run(c, Init(c), es) }

  // ------------------------------------------------------------ what is observed

  ghost function Live(s: Sys): set<SpawnId> { s.world.stacks + s.world.registrations }

  /** Spawns of a repository with a live stack or registration. */
  ghost function LiveIn(s: Sys, repo: Repo): set<SpawnId> {
    set id | id in Live(s) && id in s.book.issued && s.book.issued[id] == repo
  }

  /** Every place that holds a spawn: the poller's hand, channel slots, workers. */
  datatype Place = InHand | InChannel(i: nat) | AtWorker(w: nat)

  ghost function Places(s: Sys, id: SpawnId): set<Place> {
    (if s.poller.Hand? && s.poller.intent.id == id then {InHand} else {})
    + (set i | 0 <= i < |s.queue| && s.queue[i].id == id :: InChannel(i))
    + (set w | 0 <= w < |s.slots| && s.slots[w].Busy? && s.slots[w].intent.id == id :: AtWorker(w))
  }
}
