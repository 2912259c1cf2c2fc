/** `Execute` (internal/orchestrator/spawn.go) read from top to bottom: which effects a whole
    run has, as a list of conditions on what it was told. `Worker` is the same operation as a
    program counter; every run of it has exactly the effects listed here, no spawn is created
    past a closed gate, and every run whose calls are answered comes to its end. */
module WorkerScript {
  import opened Ledger
  import opened Worker

  /** How a creating call ended: not at all, well, or with an error that leaves nothing or
      something behind. */
  datatype Outcome = Unknown | Good | Bare | Dirty

  /** What a worker was told, each at the one place that asks for it: on the way in, */
  datatype Door = Door(
    draining: bool,
    mine: bool,
    admitted: bool,
    repoCap: int,
    globalCap: int,
    blocked: bool,
    prepared: bool)

  /** while creating, */
  datatype Make = Make(registered: bool, jit: Outcome, rendered: bool, stacked: bool, spawn: Outcome)

  /** while watching, */
  datatype Seen = Seen(online: bool, busy: bool, found: bool, exited: bool)

  /** and while cleaning: the first attempts, then the retries. */
  datatype Tidy = Tidy(tried: bool, backendErr: bool, runnerErr: bool, backendFreed: bool, runnerFreed: bool)

  datatype Facts = Facts(door: Door, make: Make, seen: Seen, tidy: Tidy)

  const NO_DOOR := Door(false, false, false, 0, 0, false, false)
  const NO_MAKE := Make(false, Unknown, false, false, Unknown)
  const NO_SEEN := Seen(false, false, false, false)
  const NO_TIDY := Tidy(false, false, false, false, false)

  function Ended(was: Outcome, x: Choice): Outcome {
    match x
    case Succeed => Good
    case FailClean => Bare
    case FailDirty => Dirty
    case _ => was
  }

  /** What is learned at a point. */
  function Noted(f: Facts, pc: Pc, m: Moment): Facts {
    match pc
    case Starting(s) => f.(door := NotedAtStart(f.door, s, m))
    case Creating(c) => f.(make := NotedCreating(f.make, c, m.answer))
    case Watching(w) => if w.Watch? then f.(seen := NotedWatching(f.seen, m.answer)) else f
    case Cleaning(c) => f.(tidy := NotedCleaning(f.tidy, c, m.answer))
  }

  function NotedAtStart(d: Door, s: StartPc, m: Moment): Door {
    match s
    case Received => d.(draining := m.env.draining)
    case Entry => d.(mine := m.env.mine)
    case Defend => d.(admitted := m.env.reserves, repoCap := m.env.repoCap, globalCap := m.env.globalCap)
    case Gate => d.(blocked := m.env.blocked)
    case Prepare => d.(prepared := m.answer.Succeed?)
    case Discard => d
  }

  function NotedCreating(k: Make, c: CreatePc, x: Choice): Make {
    match c
    case JitCall(_) => k.(registered := k.registered || x.Appear?, jit := Ended(k.jit, x))
    case Render => k.(rendered := x.Succeed?)
    case SpawnCall(_) => k.(stacked := k.stacked || x.Appear?, spawn := Ended(k.spawn, x))
    case BlockFirst => k
  }

  /** Busy counts once the runner was seen online; a job is looked for only until one is
      known; an exit counts once one is. */
  function NotedWatching(n: Seen, x: Choice): Seen {
    if n.busy || n.found then n.(exited := x.Succeed?)
    else n.(online := n.online || x.SeenOnline?, busy := n.online && x.SeenBusy?, found := x.FoundJob?)
  }

  function NotedCleaning(y: Tidy, c: CleanPc, x: Choice): Tidy {
    match c
    case Teardown(_) => y.(backendErr := !x.Succeed?)
    case Deregister(_, _) => y.(tried := true, runnerErr := !x.Succeed?)
    case RetryBackend(_) => y.(backendFreed := x.Succeed?)
    case RetryRunner => y.(runnerFreed := x.Succeed?)
    case _ => y
  }

  function Learned(i: Intent, ms: seq<Moment>): Facts {
    if ms == [] then Facts(NO_DOOR, NO_MAKE, NO_SEEN, NO_TIDY)
    else
      var f, at, m := Learned(i, ms[..|ms| - 1]), Tell(i, ms[..|ms| - 1]).next, ms[|ms| - 1];
      if at.Finished? || !Answerable(at.pc, m.answer) then f else Noted(f, at.pc, m)
  }

  // ------------------------------------------------------------------- the script

  /** Neither draining nor refused a reservation. */
  predicate Entered(d: Door) { !d.draining && (d.mine || d.admitted) }

  /** Past the debt barrier, the rate limiter and runner.yml. */
  predicate Opened(d: Door) { Entered(d) && !d.blocked && d.prepared }

  predicate Issued(f: Facts) { Opened(f.door) && f.make.jit.Good? && f.make.rendered }

  predicate Spawned(f: Facts) { Issued(f) && f.make.spawn.Good? }

  predicate PartlySpawned(f: Facts) { Issued(f) && f.make.spawn.Dirty? }

  /** There was something to clean. */
  predicate Littered(f: Facts) { Opened(f.door) && (f.make.jit.Good? || f.make.jit.Dirty?) }

  predicate Freed(y: Tidy) { (y.backendErr ==> y.backendFreed) && (y.runnerErr ==> y.runnerFreed) }

  function With(fs: seq<Effect>, happens: bool, f: Effect): seq<Effect> { if happens then fs + [f] else fs }

  /** The way in and what is created. */
  function Created(i: Intent, f: Facts): seq<Effect> {
    var d := f.door;
    var a := With([], !d.draining && !d.mine, Calls(Reserve(i.id, i.repo, d.repoCap, d.globalCap)));
    var b := With(a, Opened(d) && f.make.registered, NewRegistration);
    With(b, Issued(f) && f.make.stacked, NewStack)
  }

  /** What a delivery adds. */
  function Delivery(fs: seq<Effect>, i: Intent, spawned: bool, n: Seen): seq<Effect> {
    if !spawned then fs
    else
      var a := With(fs, n.online, Calls(SetOnline(i.id)));
      var b := With(a, n.busy, Calls(SetAssigned(i.id)));
      var c := With(b, n.found, Calls(SetOnline(i.id)));
      var d := With(c, n.found, Calls(SetAssigned(i.id)));
      With(d, (n.busy || n.found) && n.exited, Calls(Complete))
  }

  /** What the cleanup adds: one debt before a partial spawn is cleaned, one for every
      cleanup that failed the first time, resolved when each has succeeded since. */
  function Cleanup(fs: seq<Effect>, i: Intent, littered: bool, partial: bool, y: Tidy): seq<Effect> {
    var a := With(fs, partial, Calls(Block(i.id, i.repo)));
    if !littered || !y.tried then a
    else
      var b := With(a, y.backendErr && !partial, Calls(Block(i.id, i.repo)));
      var c := With(b, y.runnerErr, Calls(Block(i.id, i.repo)));
      With(c, (partial || y.backendErr || y.runnerErr) && Freed(y), Calls(Resolve(i.id)))
  }

  /** Everything but the deferred release. */
  function Deeds(i: Intent, f: Facts): seq<Effect> {
    Cleanup(Delivery(Created(i, f), i, Spawned(f), f.seen), i, Littered(f), PartlySpawned(f), f.tidy)
  }

  /** The effects of a whole run. */
  function Script(i: Intent, f: Facts): seq<Effect> {
    With(Deeds(i, f), f.door.draining || Entered(f.door), Calls(Release(i.id)))
  }

  // ------------------------------------------------------------ along the program

  predicate ToldAtStart(s: StartPc, f: Facts) {
    && f.make == NO_MAKE && f.seen == NO_SEEN && f.tidy == NO_TIDY
    && match s
       case Discard => f.door == NO_DOOR.(draining := true)
       case Gate => Entered(f.door) && !f.door.blocked && !f.door.prepared
       case Prepare => Entered(f.door) && !f.door.blocked && !f.door.prepared
       case _ => f.door == NO_DOOR
  }

  predicate ToldCreating(c: CreatePc, f: Facts) {
    && Opened(f.door) && f.seen == NO_SEEN && f.tidy == NO_TIDY
    && match c
       case JitCall(made) => f.make == NO_MAKE.(registered := made)
       case Render => f.make == NO_MAKE.(registered := f.make.registered, jit := Good)
       case SpawnCall(made) => Issued(f) && f.make.stacked == made && f.make.spawn.Unknown?
       case BlockFirst => PartlySpawned(f)
  }

  predicate ToldWatching(w: WatchPc, f: Facts) {
    && Spawned(f) && f.tidy == NO_TIDY
    && match w
       case Watch(online, busy) => online == f.seen.online && busy == (f.seen.busy || f.seen.found) && !f.seen.exited
       case Correlated(online) => f.seen == Seen(online, false, true, false)
       case Completing => (f.seen.busy || f.seen.found) && f.seen.exited
  }

  predicate ToldCleaning(c: CleanPc, f: Facts) {
    && Entered(f.door) && (c.Unwind? || Littered(f))
    && match c
       case Teardown(partial) => partial == PartlySpawned(f) && f.tidy == NO_TIDY
       case Deregister(partial, backendErr) =>
         partial == PartlySpawned(f) && f.tidy == NO_TIDY.(backendErr := backendErr)
       case BlockBackend(runnerErr) => !PartlySpawned(f) && f.tidy == Tidy(true, true, runnerErr, false, false)
       case BlockRunner(backendErr) => f.tidy == Tidy(true, backendErr, true, false, false)
       case RetryBackend(runnerErr) => f.tidy == Tidy(true, true, runnerErr, false, false)
       case RetryRunner => f.tidy == Tidy(true, f.tidy.backendErr, true, f.tidy.backendErr, false)
       case Resolving => f.tidy.tried && (PartlySpawned(f) || f.tidy.backendErr || f.tidy.runnerErr) && Freed(f.tidy)
       case Unwind => true
  }

  /** The effects decided on and still to come at a point. */
  function WithDue(fs: seq<Effect>, i: Intent, pc: Pc): seq<Effect> {
    match pc
    case Creating(BlockFirst) => fs + [Calls(Block(i.id, i.repo))]
    case Watching(Correlated(_)) => fs + [Calls(SetAssigned(i.id))]
    case Watching(Completing) => fs + [Calls(Complete)]
    case Cleaning(BlockBackend(runnerErr)) =>
      With(fs + [Calls(Block(i.id, i.repo))], runnerErr, Calls(Block(i.id, i.repo)))
    case Cleaning(BlockRunner(_)) => fs + [Calls(Block(i.id, i.repo))]
    case Cleaning(Resolving) => fs + [Calls(Resolve(i.id))]
    case _ => fs
  }

  /** What was learned and done by the time a run stands at a point. */
  predicate Follows(i: Intent, pc: Pc, f: Facts, fs: seq<Effect>) {
    match pc
    case Starting(s) => ToldAtStart(s, f) && fs == if s.Gate? || s.Prepare? then Deeds(i, f) else []
    case Creating(c) => ToldCreating(c, f) && WithDue(fs, i, pc) == Deeds(i, f)
    case Watching(w) => ToldWatching(w, f) && WithDue(fs, i, pc) == Deeds(i, f)
    case Cleaning(c) => ToldCleaning(c, f) && WithDue(fs, i, pc) == Deeds(i, f)
  }

  predicate Obeys(i: Intent, next: Next, f: Facts, fs: seq<Effect>) {
    match next
    case Finished => fs == Script(i, f)
    case Continue(pc) => Follows(i, pc, f, fs)
  }

  function Grown(fs: seq<Effect>, f: Effect): seq<Effect> { if f.Quiet? then fs else fs + [f] }

  lemma StartObeys(i: Intent, s: StartPc, f: Facts, fs: seq<Effect>, m: Moment)
    requires Follows(i, Starting(s), f, fs)
    ensures var a := Start(i, s, m.env, m.answer);
            Obeys(i, a.next, Noted(f, Starting(s), m), Grown(fs, a.effect))
  {
  }

  lemma CreateObeys(i: Intent, c: CreatePc, f: Facts, fs: seq<Effect>, m: Moment)
    requires Follows(i, Creating(c), f, fs) && Answerable(Creating(c), m.answer)
    ensures var a := Create(i, c, m.answer); Obeys(i, a.next, Noted(f, Creating(c), m), Grown(fs, a.effect))
  {
  }

  lemma WatchObeys(i: Intent, w: WatchPc, f: Facts, fs: seq<Effect>, m: Moment)
    requires Follows(i, Watching(w), f, fs)
    ensures var a := WatchOn(i, w, m.answer); Obeys(i, a.next, Noted(f, Watching(w), m), Grown(fs, a.effect))
  {
    if w.Watch? { LookObeys(i, w.online, w.busy, f, fs, m); }
  }

  lemma LookObeys(i: Intent, online: bool, busy: bool, f: Facts, fs: seq<Effect>, m: Moment)
    requires Follows(i, Watching(Watch(online, busy)), f, fs)
    ensures var a := WatchOn(i, Watch(online, busy), m.answer);
            Obeys(i, a.next, f.(seen := NotedWatching(f.seen, m.answer)), Grown(fs, a.effect))
  {
    DeedsOfDelivery(i, f, f.seen);
    DeedsOfDelivery(i, f, NotedWatching(f.seen, m.answer));
  }

  lemma DeedsOfDelivery(i: Intent, f: Facts, n: Seen)
    requires Spawned(f) && f.tidy == NO_TIDY
    ensures Deeds(i, f.(seen := n)) == Delivery(Created(i, f), i, true, n)
  {
  }

  lemma CleanObeys(i: Intent, c: CleanPc, f: Facts, fs: seq<Effect>, m: Moment)
    requires Follows(i, Cleaning(c), f, fs)
    ensures var a := Clean(i, c, m.env, m.answer); Obeys(i, a.next, Noted(f, Cleaning(c), m), Grown(fs, a.effect))
  {
    if c.Teardown? || c.Deregister? { TryObeys(i, c, f, fs, m); } else { SettleObeys(i, c, f, fs, m); }
  }

  lemma DeedsOfCleanup(i: Intent, f: Facts, y: Tidy)
    ensures Deeds(i, f.(tidy := y)) ==
            Cleanup(Delivery(Created(i, f), i, Spawned(f), f.seen), i, Littered(f), PartlySpawned(f), y)
  {
  }

  lemma TryObeys(i: Intent, c: CleanPc, f: Facts, fs: seq<Effect>, m: Moment)
    requires Follows(i, Cleaning(c), f, fs) && (c.Teardown? || c.Deregister?)
    ensures var a := Clean(i, c, m.env, m.answer); Obeys(i, a.next, Noted(f, Cleaning(c), m), Grown(fs, a.effect))
  {
    DeedsOfCleanup(i, f, f.tidy);
    DeedsOfCleanup(i, f, NotedCleaning(f.tidy, c, m.answer));
  }

  lemma SettleObeys(i: Intent, c: CleanPc, f: Facts, fs: seq<Effect>, m: Moment)
    requires Follows(i, Cleaning(c), f, fs) && !c.Teardown? && !c.Deregister?
    ensures var a := Clean(i, c, m.env, m.answer); Obeys(i, a.next, Noted(f, Cleaning(c), m), Grown(fs, a.effect))
  {
    DeedsOfCleanup(i, f, f.tidy);
    DeedsOfCleanup(i, f, NotedCleaning(f.tidy, c, m.answer));
  }

  lemma AdvanceObeys(i: Intent, pc: Pc, f: Facts, fs: seq<Effect>, m: Moment)
    requires Follows(i, pc, f, fs) && Answerable(pc, m.answer)
    ensures var a := Advance(i, pc, m.env, m.answer); Obeys(i, a.next, Noted(f, pc, m), Grown(fs, a.effect))
  {
    match pc
    case Starting(s) => StartObeys(i, s, f, fs, m);
    case Creating(c) => CreateObeys(i, c, f, fs, m);
    case Watching(w) => WatchObeys(i, w, f, fs, m);
    case Cleaning(c) => CleanObeys(i, c, f, fs, m);
  }

  lemma {:induction false} EveryRunObeys(i: Intent, ms: seq<Moment>)
    ensures Obeys(i, Tell(i, ms).next, Learned(i, ms), Tell(i, ms).effects)
  {
    if ms != [] {
      var before, m := ms[..|ms| - 1], ms[|ms| - 1];
      EveryRunObeys(i, before);
      var s := Tell(i, before);
      if s.next.Continue? && Answerable(s.next.pc, m.answer) {
        AdvanceObeys(i, s.next.pc, Learned(i, before), s.effects, m);
      }
    }
  }

  /** A run that has returned had exactly the effects of the script for what it was told,
      whatever the shared state and the answers were at each step. */
  lemma RunIsItsScript(i: Intent, ms: seq<Moment>)
    ensures Tell(i, ms).next.Finished? ==> Tell(i, ms).effects == Script(i, Learned(i, ms))
  {
    EveryRunObeys(i, ms);
  }

  // ------------------------------------------------------------------ the way in

  /** The run stood at a point when it met the k-th moment. */
  predicate StoodAt(i: Intent, ms: seq<Moment>, k: nat, pc: Pc) {
    k < |ms| && Tell(i, ms[..k]).next == Continue(pc)
  }

  ghost predicate MetAt(i: Intent, ms: seq<Moment>, pc: Pc, good: Moment -> bool) {
    exists k: nat :: StoodAt(i, ms, k, pc) && good(ms[k])
  }

  /** The three doors of the way in. */
  ghost predicate FoundNoDrain(i: Intent, ms: seq<Moment>) {
    MetAt(i, ms, Starting(Received), (m: Moment) => !m.env.draining)
  }

  ghost predicate FoundNoDebt(i: Intent, ms: seq<Moment>) {
    MetAt(i, ms, Starting(Gate), (m: Moment) => !m.env.blocked)
  }

  ghost predicate FoundReady(i: Intent, ms: seq<Moment>) {
    MetAt(i, ms, Starting(Prepare), (m: Moment) => m.answer.Succeed?)
  }

  lemma MetStays(i: Intent, ms: seq<Moment>, m: Moment, pc: Pc, good: Moment -> bool)
    requires MetAt(i, ms, pc, good) || (Tell(i, ms).next == Continue(pc) && good(m))
    ensures MetAt(i, ms + [m], pc, good)
  {
    if MetAt(i, ms, pc, good) {
      var k: nat :| StoodAt(i, ms, k, pc) && good(ms[k]);
      assert (ms + [m])[..k] == ms[..k];
      assert StoodAt(i, ms + [m], k, pc);
    } else {
      assert (ms + [m])[..|ms|] == ms;
      assert StoodAt(i, ms + [m], |ms|, pc);
    }
  }

  /** How many doors a run has behind it. */
  function Doors(s: Story): nat {
    if NewRegistration in s.effects || (s.next.Continue? && (s.next.pc.Creating? || s.next.pc.Watching?)) then 3
    else if s.next == Continue(Starting(Prepare)) then 2
    else if s.next.Continue? && s.next.pc.Starting? && !s.next.pc.start.Received? && !s.next.pc.start.Discard? then 1
    else 0
  }

  /** A step passes at most the door it stands at, and only if that is open. */
  lemma OneDoorAtATime(s: Story, i: Intent, m: Moment)
    ensures Doors(Told(s, i, m)) >= 1 ==>
              Doors(s) >= 1 || (s.next == Continue(Starting(Received)) && !m.env.draining)
    ensures Doors(Told(s, i, m)) >= 2 ==> Doors(s) >= 2 || (s.next == Continue(Starting(Gate)) && !m.env.blocked)
    ensures Doors(Told(s, i, m)) >= 3 ==> Doors(s) >= 3 || (s.next == Continue(Starting(Prepare)) && m.answer.Succeed?)
  {
  }

  lemma {:induction false} DoorsWerePassed(i: Intent, ms: seq<Moment>)
    ensures Doors(Tell(i, ms)) >= 1 ==> FoundNoDrain(i, ms)
    ensures Doors(Tell(i, ms)) >= 2 ==> FoundNoDebt(i, ms)
    ensures Doors(Tell(i, ms)) >= 3 ==> FoundReady(i, ms)
  {
    if ms != [] {
      var before, m := ms[..|ms| - 1], ms[|ms| - 1];
      DoorsWerePassed(i, before);
      OneDoorAtATime(Tell(i, before), i, m);
      assert ms == before + [m];
      if Doors(Tell(i, ms)) >= 1 { MetStays(i, before, m, Starting(Received), (m: Moment) => !m.env.draining); }
      if Doors(Tell(i, ms)) >= 2 { MetStays(i, before, m, Starting(Gate), (m: Moment) => !m.env.blocked); }
      if Doors(Tell(i, ms)) >= 3 { MetStays(i, before, m, Starting(Prepare), (m: Moment) => m.answer.Succeed?); }
    }
  }

  /** Whatever a run ever registered, it had found the orchestrator not draining, the debt
      barrier down, and its rate token and runner.yml ready, each at the point that asks. */
  lemma NothingPastAClosedDoor(i: Intent, ms: seq<Moment>)
    requires NewRegistration in Tell(i, ms).effects || NewStack in Tell(i, ms).effects
    ensures FoundNoDrain(i, ms) && FoundNoDebt(i, ms) && FoundReady(i, ms)
  {
    if NewRegistration !in Tell(i, ms).effects { StackNeedsRegistration(i, ms); }
    DoorsWerePassed(i, ms);
  }

  lemma {:induction false} Counted(fs: seq<Effect>, f: Effect)
    ensures f in fs ==> Count(fs, Stage(f)) > 0
  {
    if fs != [] {
      Counted(fs[..|fs| - 1], f);
      assert fs == fs[..|fs| - 1] + [fs[|fs| - 1]];
    }
  }

  lemma {:induction false} CountedBy(fs: seq<Effect>)
    ensures Count(fs, 1) > 0 ==> NewRegistration in fs
  {
    if fs != [] {
      CountedBy(fs[..|fs| - 1]);
      assert fs == fs[..|fs| - 1] + [fs[|fs| - 1]];
      StageOne(fs[|fs| - 1]);
    }
  }

  lemma StageOne(f: Effect)
    ensures Stage(f) == 1 <==> f == NewRegistration
  {
  }

  lemma StackNeedsRegistration(i: Intent, ms: seq<Moment>)
    requires NewStack in Tell(i, ms).effects
    ensures NewRegistration in Tell(i, ms).effects
  {
    EffectsInOrder(i, ms);
    Counted(Tell(i, ms).effects, NewStack);
    CountedBy(Tell(i, ms).effects);
  }

  // ------------------------------------------------------------------- to the end

  /** An answer that ends the wait at a point. Everything else is one of the reports a wait
      passes over. */
  predicate Decisive(pc: Pc, m: Moment) {
    var x := m.answer;
    match pc
    case Creating(JitCall(made)) => x.Succeed? || x.FailClean? || x.FailDirty? || (x.Appear? && !made)
    case Creating(SpawnCall(made)) => x.Succeed? || x.FailClean? || x.FailDirty? || (x.Appear? && !made)
    case Watching(Watch(online, busy)) =>
      || x.FailClean? || x.FailDirty?
      || if busy then x.Succeed? else x.FoundJob? || (if online then x.SeenBusy? else x.SeenOnline?)
    case Cleaning(RetryBackend(_)) => x.Succeed? || (x.Interrupt? && m.env.cancelled)
    case Cleaning(RetryRunner) => x.Succeed? || (x.Interrupt? && m.env.cancelled)
    case _ => true
  }

  /** The most steps still ahead. */
  function Ahead(pc: Pc): nat {
    match pc
    case Starting(s) => AheadAtStart(s)
    case Creating(JitCall(made)) => if made then 17 else 18
    case Creating(Render) => 16
    case Creating(SpawnCall(made)) => if made then 14 else 15
    case Creating(BlockFirst) => 9
    case Watching(Watch(online, busy)) => if busy then 10 else if online then 12 else 13
    case Watching(Correlated(_)) => 11
    case Watching(Completing) => 9
    case Cleaning(c) => AheadCleaning(c)
  }

  function AheadAtStart(s: StartPc): nat {
    match s
    case Received => 23
    case Discard => 1
    case Entry => 22
    case Defend => 21
    case Gate => 20
    case Prepare => 19
  }

  function AheadCleaning(c: CleanPc): nat {
    match c
    case Teardown(_) => 8
    case Deregister(_, _) => 7
    case BlockBackend(_) => 6
    case BlockRunner(_) => 5
    case RetryBackend(_) => 4
    case RetryRunner => 3
    case Resolving => 2
    case Unwind => 1
  }

  /** A decisive answer, and nothing else, moves the run on towards its end. */
  lemma DecisiveAdvances(i: Intent, pc: Pc, m: Moment)
    requires Answerable(pc, m.answer)
    ensures var next := Advance(i, pc, m.env, m.answer).next;
            if Decisive(pc, m) then next.Finished? || Ahead(next.pc) < Ahead(pc) else next == Continue(pc)
    ensures Ahead(pc) > 0
  {
  }

  /** How many answers were decisive where the run stood. */
  function Answers(i: Intent, ms: seq<Moment>): nat {
    if ms == [] then 0
    else
      var at, m := Tell(i, ms[..|ms| - 1]).next, ms[|ms| - 1];
      Answers(i, ms[..|ms| - 1]) + if at.Finished? || (Answerable(at.pc, m.answer) && Decisive(at.pc, m)) then 1 else 0
  }

  lemma {:induction false} AnswersCount(i: Intent, ms: seq<Moment>)
    ensures Tell(i, ms).next.Continue? ==> Answers(i, ms) + Ahead(Tell(i, ms).next.pc) <= 23
  {
    if ms != [] {
      var before, m := ms[..|ms| - 1], ms[|ms| - 1];
      AnswersCount(i, before);
      var at := Tell(i, before).next;
      if at.Continue? && Answerable(at.pc, m.answer) { DecisiveAdvances(i, at.pc, m); }
    }
  }

  /** Every run returns once it has had 23 decisive answers, whatever they are. */
  lemma RunsReturn(i: Intent, ms: seq<Moment>)
    requires Answers(i, ms) >= 23
    ensures Tell(i, ms).next.Finished?
  {
    AnswersCount(i, ms);
    if Tell(i, ms).next.Continue? { DecisiveAdvances(i, Tell(i, ms).next.pc, Moment(ms[0].env, FailClean)); }
  }

  /** Not draining, holding its reservation, no debt. */
  predicate Calm(e: Env) { !e.draining && e.mine && !e.blocked }

  const WELCOME := [Succeed, Succeed, Succeed, Succeed, Appear, Succeed, Succeed, Appear, Succeed]

  predicate Welcomed(ms: seq<Moment>) {
    |ms| <= 9 && forall k :: 0 <= k < |ms| ==> Calm(ms[k].env) && ms[k].answer == WELCOME[k]
  }

  const PATH := [Starting(Received), Starting(Entry), Starting(Gate), Starting(Prepare), Creating(JitCall(false)),
                 Creating(JitCall(true)), Creating(Render), Creating(SpawnCall(false)), Creating(SpawnCall(true)),
                 Watching(Watch(false, false))]

  lemma {:induction false} WelcomedPath(i: Intent, ms: seq<Moment>)
    requires Welcomed(ms)
    ensures Tell(i, ms).next == Continue(PATH[|ms|])
  {
    if ms != [] {
      WelcomedPath(i, ms[..|ms| - 1]);
      WelcomedStep(i, |ms| - 1, ms[|ms| - 1]);
    }
  }

  lemma WelcomedStep(i: Intent, k: nat, m: Moment)
    requires k < 9 && Calm(m.env) && m.answer == WELCOME[k]
    ensures Answerable(PATH[k], m.answer) && Advance(i, PATH[k], m.env, m.answer).next == Continue(PATH[k + 1])
  {
  }

  /** A run that is not draining, holds its reservation, meets no debt and is served at each
      call is watching its runner after exactly these calls. */
  lemma CalmRunWatches(i: Intent, ms: seq<Moment>)
    requires |ms| == 9 && Welcomed(ms)
    ensures Tell(i, ms).next == Continue(Watching(Watch(false, false)))
  {
    WelcomedPath(i, ms);
  }
}
