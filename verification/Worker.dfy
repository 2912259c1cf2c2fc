/** One spawn worker's run of `Execute` (internal/orchestrator/spawn.go) as a program
    counter, one step per effect another goroutine can observe. `Advance` is the program;
    `Fits` is what it knows about its own spawn at each point, and `AdvanceKeeps` proves
    that every step keeps it, whatever GitHub and the backend answer. */
module Worker {
  import opened Ledger

  datatype Intent = Intent(id: SpawnId, repo: Repo)

  /** Where `Execute` stands, with the locals that are live there. */
  datatype Pc =
    | Starting(start: StartPc)
    | Creating(create: CreatePc)
    | Watching(watch: WatchPc)
    | Cleaning(clean: CleanPc)

  datatype StartPc =
    | Received     // taken from the channel, before the draining check
    | Discard      // draining: give the reservation back unstarted
    | Entry        // HasReservation
    | Defend       // the defensive TryReserve
    | Gate         // SchedulingBlocked, once the deferred release is armed
    | Prepare      // rate limiter and runner.yml

  datatype CreatePc =
    | JitCall(made: bool)    // GenerateJITConfig in flight, its registration made or not
    | Render                 // egress rendering
    | SpawnCall(made: bool)  // Backend.Spawn in flight
    | BlockFirst             // settlePartialSpawn: debt before the first retry

  datatype WatchPc =
    | Watch(online: bool, busy: bool) // waitForLifecycle with its two local flags
    | Correlated(online: bool)        // markCorrelatedAssignment between its two marks
    | Completing                      // RecordCompleted

  /** Teardown, deregistration and the settling of what failed. `partial` is true below
      settlePartialSpawn; the two errors are the results of the first attempts. */
  datatype CleanPc =
    | Teardown(partial: bool)
    | Deregister(partial: bool, backendErr: bool)
    | BlockBackend(runnerErr: bool)   // blockTeardown
    | BlockRunner(backendErr: bool)   // blockRunnerCleanup
    | RetryBackend(runnerErr: bool)   // retryBackendTeardown
    | RetryRunner                     // retryRunnerDeletion
    | Resolving                       // ResolveTeardown
    | Unwind                          // the deferred ReleaseReservation

  /** The environment's answer to the call a worker is making. */
  datatype Choice =
    | Appear      // the resource being created comes into existence
    | Succeed
    | FailClean   // an error without a handle or runner ID
    | FailDirty   // an error with a handle or runner ID
    | SeenOnline
    | SeenBusy
    | FoundJob    // a finished job was correlated with the runner after exit
    | Interrupt   // the retry wait sees the cancelled context

  /** What a worker can see of its own spawn in the shared state and the outside world.
      `delivered` and `finished` record that assignment and completion were counted. */
  datatype View = View(held: bool, phase: Phase, stack: bool, registered: bool, delivered: bool, finished: bool)

  /** The shared state a step branches on. */
  datatype Env = Env(
    draining: bool,
    mine: bool,
    blocked: bool,
    reserves: bool,
    cancelled: bool,
    repoCap: int,
    globalCap: int)

  datatype Next = Finished | Continue(pc: Pc)

  datatype Effect = Quiet | Calls(call: Call) | NewStack | NewRegistration

  /** One step: where the worker goes and the one effect it has. */
  datatype Act = Act(next: Next, effect: Effect)

  function Advance(i: Intent, pc: Pc, e: Env, x: Choice): Act {
    match pc
    case Starting(s) => Start(i, s, e, x)
    case Creating(c) => Create(i, c, x)
    case Watching(w) => WatchOn(i, w, x)
    case Cleaning(c) => Clean(i, c, e, x)
  }

  function Start(i: Intent, s: StartPc, e: Env, x: Choice): Act {
    match s
    case Received => Act(Continue(Starting(if e.draining then Discard else Entry)), Quiet)
    case Discard => Act(Finished, Calls(Release(i.id)))
    case Entry => Act(Continue(Starting(if e.mine then Gate else Defend)), Quiet)
    case Defend => Act(if e.reserves then Continue(Starting(Gate)) else Finished,
                       Calls(Reserve(i.id, i.repo, e.repoCap, e.globalCap)))
    case Gate => Act(Continue(if e.blocked then Cleaning(Unwind) else Starting(Prepare)), Quiet)
    case Prepare => Act(Continue(if x.Succeed? then Creating(JitCall(false)) else Cleaning(Unwind)), Quiet)
  }

  function Create(i: Intent, c: CreatePc, x: Choice): Act {
    match c
    case JitCall(made) =>
      if x.Appear? && !made then Act(Continue(Creating(JitCall(true))), NewRegistration)
      else Act(Continue(if x.Succeed? then Creating(Render)
                        else if x.FailDirty? then Cleaning(Deregister(false, false))
                        else if x.FailClean? then Cleaning(Unwind)
                        else Creating(c)), Quiet)
    case Render =>
      Act(Continue(if x.Succeed? then Creating(SpawnCall(false)) else Cleaning(Deregister(false, false))), Quiet)
    case SpawnCall(made) =>
      if x.Appear? && !made then Act(Continue(Creating(SpawnCall(true))), NewStack)
      else Act(Continue(if x.Succeed? then Watching(Watch(false, false))
                        else if x.FailDirty? then Creating(BlockFirst)
                        else if x.FailClean? then Cleaning(Deregister(false, false))
                        else Creating(c)), Quiet)
    case BlockFirst => Act(Continue(Cleaning(Teardown(true))), Calls(Block(i.id, i.repo)))
  }

  function WatchOn(i: Intent, w: WatchPc, x: Choice): Act {
    match w
    case Watch(online, busy) =>
      if x.SeenOnline? && !online && !busy then Act(Continue(Watching(Watch(true, busy))), Calls(SetOnline(i.id)))
      else if x.SeenBusy? && online && !busy then Act(Continue(Watching(Watch(true, true))), Calls(SetAssigned(i.id)))
      else if x.FoundJob? && !busy then Act(Continue(Watching(Correlated(online))), Calls(SetOnline(i.id)))
      else if x.Succeed? && busy then Act(Continue(Watching(Completing)), Quiet)
      else if x.FailClean? || x.FailDirty? then Act(Continue(Cleaning(Teardown(false))), Quiet)
      else Act(Continue(Watching(w)), Quiet)
    case Correlated(online) => Act(Continue(Watching(Watch(online, true))), Calls(SetAssigned(i.id)))
    case Completing => Act(Continue(Cleaning(Teardown(false))), Calls(Complete))
  }

  function Clean(i: Intent, c: CleanPc, e: Env, x: Choice): Act {
    match c
    case Teardown(partial) => Act(Continue(Cleaning(Deregister(partial, !x.Succeed?))), Quiet)
    case Deregister(partial, backendErr) => Act(Continue(Cleaning(Settle(partial, backendErr, !x.Succeed?))), Quiet)
    case BlockBackend(runnerErr) =>
      Act(Continue(Cleaning(if runnerErr then BlockRunner(true) else RetryBackend(false))), Calls(Block(i.id, i.repo)))
    case BlockRunner(backendErr) =>
      Act(Continue(Cleaning(if backendErr then RetryBackend(true) else RetryRunner)), Calls(Block(i.id, i.repo)))
    case RetryBackend(runnerErr) =>
      Act(Continue(Cleaning(if x.Succeed? then (if runnerErr then RetryRunner else Resolving)
                            else if x.Interrupt? && e.cancelled then Unwind else c)), Quiet)
    case RetryRunner =>
      Act(Continue(Cleaning(if x.Succeed? then Resolving
                            else if x.Interrupt? && e.cancelled then Unwind else c)), Quiet)
    case Resolving => Act(Continue(Cleaning(Unwind)), Calls(Resolve(i.id)))
    case Unwind => Act(Finished, Calls(Release(i.id)))
  }

  /** Where settleCleanup or settlePartialSpawn goes once both cleanups were tried. */
  function Settle(partial: bool, backendErr: bool, runnerErr: bool): CleanPc {
    if partial then
      (if runnerErr then BlockRunner(backendErr) else if backendErr then RetryBackend(false) else Resolving)
    else if backendErr then BlockBackend(runnerErr)
    else if runnerErr then BlockRunner(false)
    else Unwind
  }

  /** A JIT call that succeeds, or fails with a runner ID, made its registration. */
  predicate Answerable(pc: Pc, x: Choice) {
    match pc
    case Creating(JitCall(made)) => x.Succeed? || x.FailDirty? ==> made
    case _ => true
  }

  /** What GitHub and the backend promise: besides that, a JIT error without a runner ID and
      a backend error without a handle leave nothing; so do a successful teardown and a
      successful delete. An answer that breaks its promise cannot happen. What was made may
      be gone again by the time of the answer. */
  predicate Possible(pc: Pc, v: View, x: Choice) {
    && Answerable(pc, x)
    && match pc
       case Creating(JitCall(_)) => x.FailClean? ==> !v.registered
       case Creating(SpawnCall(_)) => x.FailClean? ==> !v.stack
       case Cleaning(Teardown(_)) => x.Succeed? ==> !v.stack
       case Cleaning(RetryBackend(_)) => x.Succeed? ==> !v.stack
       case Cleaning(Deregister(_, _)) => x.Succeed? ==> !v.registered
       case Cleaning(RetryRunner) => x.Succeed? ==> !v.registered
       case _ => true
  }

  /** The worker's own spawn after a step. */
  function ViewAfter(v: View, f: Effect, e: Env): View {
    match f
    case Quiet => v
    case NewStack => v.(stack := true)
    case NewRegistration => v.(registered := true)
    case Calls(c) => AfterCall(v, c, e)
  }

  function AfterCall(v: View, c: Call, e: Env): View {
    match c
    case Reserve(_, _, _, _) => if !v.held && e.reserves then v.(held := true, phase := Pending) else v
    case SetOnline(_) => if v.held && v.phase.Pending? then v.(phase := Online) else v
    case SetAssigned(_) =>
      if v.held && (v.phase.Pending? || v.phase.Online?) then v.(phase := Assigned, delivered := true) else v
    case Block(_, _) => v.(held := true, phase := TeardownBlocked)
    case Resolve(_) => if v.held && v.phase.TeardownBlocked? then v.(held := false, phase := Pending) else v
    case Release(_) => if v.held && !v.phase.TeardownBlocked? then v.(held := false, phase := Pending) else v
    case Complete => v.(finished := true)
    case _ => v
  }

  // ------------------------------------------------------ what the worker knows

  predicate Debt(v: View) { v.held && v.phase.TeardownBlocked? }

  predicate Clear(v: View) { !v.stack && !v.registered }

  /** Reserved and not yet started. */
  predicate Fresh(v: View) { v.held && v.phase.Pending? && Clear(v) && !v.delivered && !v.finished }

  /** Nobody owns the spawn any more: it left nothing behind, or it is debt kept because
      the worker context was cancelled. */
  predicate Settled(v: View, cancelled: bool) {
    && (v.finished ==> v.delivered)
    && if v.held then v.phase.TeardownBlocked? && cancelled else Clear(v)
  }

  predicate Fits(pc: Pc, v: View, cancelled: bool) {
    match pc
    case Starting(s) => !s.Defend? && Fresh(v)
    case Creating(c) => FitsCreating(c, v)
    case Watching(w) => FitsWatching(w, v)
    case Cleaning(c) => (v.finished ==> v.delivered) && FitsCleaning(c, v, cancelled)
  }

  predicate FitsCreating(c: CreatePc, v: View) {
    && v.held && v.phase.Pending? && !v.delivered && !v.finished
    && (c.JitCall? || c.Render? ==> !v.stack)
  }

  /** The local flags simulate the stored phase. */
  predicate FitsWatching(w: WatchPc, v: View) {
    && v.held && !v.finished
    && match w
       case Watch(online, busy) =>
         && v.delivered == busy
         && if busy then v.phase.Assigned? else if online then v.phase.Online? else v.phase.Pending?
       case Correlated(_) => v.phase.Online? && !v.delivered
       case Completing => v.phase.Assigned? && v.delivered
  }

  predicate FitsCleaning(c: CleanPc, v: View, cancelled: bool) {
    match c
    case Teardown(partial) => v.held && (v.phase.TeardownBlocked? <==> partial)
    case Deregister(partial, backendErr) =>
      v.held && (v.phase.TeardownBlocked? <==> partial) && (v.stack ==> backendErr)
    case BlockBackend(runnerErr) => v.held && (v.registered ==> runnerErr)
    case BlockRunner(backendErr) => v.held && (v.stack ==> backendErr)
    case RetryBackend(runnerErr) => Debt(v) && (v.registered ==> runnerErr)
    case RetryRunner => Debt(v) && !v.stack
    case Resolving => Debt(v) && Clear(v)
    case Unwind => if Debt(v) then cancelled else Clear(v)
  }

  function Rank(p: Phase): nat {
    match p
    case Pending => 0
    case Online => 1
    case Assigned => 2
    case TeardownBlocked => 3
  }

  /** The stored phase never moves backwards, a released spawn never comes back, and
      nothing that was counted is forgotten. */
  predicate Later(v: View, v': View) {
    && (v'.held ==> v.held && Rank(v.phase) <= Rank(v'.phase))
    && (v.delivered ==> v'.delivered) && (v.finished ==> v'.finished)
  }

  /** A worker's calls are for its own spawn, never charge new capacity, and count
      assignment and completion at most once. */
  predicate OwnCall(id: SpawnId, v: View, c: Call) {
    match c
    case SetOnline(i) => i == id
    case SetAssigned(i) => i == id && !v.delivered && v.held
    case Block(i, _) => i == id && v.held
    case Resolve(i) => i == id
    case Release(i) => i == id
    case Complete => !v.finished && v.delivered
    case _ => false
  }

  /** What one step must keep: the knowledge at the next point, or a settled spawn at the
      end; only own calls; no step backwards. */
  predicate Kept(id: SpawnId, v: View, e: Env, a: Act) {
    var v' := ViewAfter(v, a.effect, e);
    && (match a.next case Finished => Settled(v', e.cancelled) case Continue(pc) => Fits(pc, v', e.cancelled))
    && Later(v, v')
    && (a.effect.Calls? ==> OwnCall(id, v, a.effect.call))
  }

  lemma StartKeeps(i: Intent, s: StartPc, v: View, e: Env, x: Choice)
    requires Fits(Starting(s), v, e.cancelled) && e.mine
    ensures Kept(i.id, v, e, Start(i, s, e, x))
  {
  }

  lemma CreateKeeps(i: Intent, c: CreatePc, v: View, e: Env, x: Choice)
    requires FitsCreating(c, v) && Possible(Creating(c), v, x)
    ensures Kept(i.id, v, e, Create(i, c, x))
  {
  }

  lemma WatchKeeps(i: Intent, w: WatchPc, v: View, e: Env, x: Choice)
    requires FitsWatching(w, v)
    ensures Kept(i.id, v, e, WatchOn(i, w, x))
  {
  }

  lemma CleanKeeps(i: Intent, c: CleanPc, v: View, e: Env, x: Choice)
    requires Fits(Cleaning(c), v, e.cancelled) && Possible(Cleaning(c), v, x)
    ensures Kept(i.id, v, e, Clean(i, c, e, x))
  {
  }

  /** Every step of `Execute`, whatever the environment answers. */
  lemma AdvanceKeeps(i: Intent, pc: Pc, v: View, e: Env, x: Choice)
    requires Fits(pc, v, e.cancelled) && Possible(pc, v, x) && (v.held ==> e.mine)
    ensures Kept(i.id, v, e, Advance(i, pc, e, x))
  {
    match pc
    case Starting(s) => StartKeeps(i, s, v, e, x);
    case Creating(c) => CreateKeeps(i, c, v, e, x);
    case Watching(w) => WatchKeeps(i, w, v, e, x);
    case Cleaning(c) => CleanKeeps(i, c, v, e, x);
  }

  // ------------------------------------------------------------- the effects in order

  /** What the worker meets at a step: the shared state then, and the answer it gets. */
  datatype Moment = Moment(env: Env, answer: Choice)

  /** Where a run stands and the effects it has had. */
  datatype Story = Story(next: Next, effects: seq<Effect>)

  function Told(s: Story, i: Intent, m: Moment): Story {
    if s.next.Finished? || !Answerable(s.next.pc, m.answer) then s
    else
      var a := Advance(i, s.next.pc, m.env, m.answer);
      Story(a.next, if a.effect.Quiet? then s.effects else s.effects + [a.effect])
  }

  /** `Execute` from the channel on, under any surroundings and any answers. */
  function Tell(i: Intent, ms: seq<Moment>): Story {
    if ms == [] then Story(Continue(Starting(Received)), []) else Told(Tell(i, ms[..|ms| - 1]), i, ms[|ms| - 1])
  }

  /** The order in which effects may happen. */
  function Stage(f: Effect): nat {
    match f
    case Quiet => 0
    case NewRegistration => 1
    case NewStack => 2
    case Calls(c) => CallStage(c)
  }

  function CallStage(c: Call): nat {
    match c
    case SetOnline(_) => 3
    case SetAssigned(_) => 4
    case Complete => 5
    case Block(_, _) => 6
    case Resolve(_) => 7
    case Release(_) => 8
    case _ => 0
  }

  /** How many effects of a stage have happened. */
  function Count(fs: seq<Effect>, stage: nat): nat {
    if fs == [] then 0 else Count(fs[..|fs| - 1], stage) + if Stage(fs[|fs| - 1]) == stage then 1 else 0
  }

  ghost predicate Ordered(fs: seq<Effect>) { forall j, k :: 0 <= j < k < |fs| ==> Stage(fs[j]) <= Stage(fs[k]) }

  /** The counts of the nine stages. */
  datatype Tally = Tally(
    reserve: nat,
    registration: nat,
    stack: nat,
    online: nat,
    busy: nat,
    complete: nat,
    block: nat,
    resolve: nat,
    release: nat)

  function TallyOf(fs: seq<Effect>): Tally {
    Tally(Count(fs, 0), Count(fs, 1), Count(fs, 2), Count(fs, 3), Count(fs, 4),
          Count(fs, 5), Count(fs, 6), Count(fs, 7), Count(fs, 8))
  }

  /** Each effect at most once, except that a correlated assignment marks online again and
      both cleanups may block; and each only after the one it needs. */
  predicate Proper(t: Tally) {
    && t.reserve <= 1 && t.stack <= t.registration <= 1
    && t.complete <= t.busy <= 1 && t.busy <= t.online <= 2 && (t.online > 0 ==> t.registration == 1)
    && t.block <= 2 && t.resolve <= 1 && t.resolve <= t.block && t.release <= 1
  }

  predicate NoCleanup(t: Tally) { t.block == 0 && t.resolve == 0 && t.release == 0 }

  predicate Unwatched(t: Tally) { t.online == 0 && t.busy == 0 && t.complete == 0 }

  /** What has happened when the worker stands at a point. */
  predicate SoFar(pc: Pc, t: Tally) {
    && Proper(t) && t.release == 0
    && match pc
       case Starting(s) =>
         && Unwatched(t) && NoCleanup(t) && t.registration == 0 && t.stack == 0
         && (t.reserve == 0 || s.Gate? || s.Prepare?)
       case Creating(c) => Unwatched(t) && NoCleanup(t) && MadeSoFar(c, t)
       case Watching(w) => NoCleanup(t) && t.complete == 0 && t.registration == 1 && WatchedSoFar(w, t)
       case Cleaning(c) => CleanedSoFar(c, t)
  }

  predicate MadeSoFar(c: CreatePc, t: Tally) {
    match c
    case JitCall(made) => t.registration == (if made then 1 else 0) && t.stack == 0
    case Render => t.registration == 1 && t.stack == 0
    case SpawnCall(made) => t.registration == 1 && t.stack == (if made then 1 else 0)
    case BlockFirst => t.registration == 1
  }

  predicate WatchedSoFar(w: WatchPc, t: Tally) {
    match w
    case Watch(online, busy) => t.busy == (if busy then 1 else 0) && (!busy ==> t.online == if online then 1 else 0)
    case Correlated(online) => t.busy == 0 && t.online == if online then 2 else 1
    case Completing => t.busy == 1
  }

  predicate CleanedSoFar(c: CleanPc, t: Tally) {
    match c
    case Teardown(partial) => t.resolve == 0 && t.block == if partial then 1 else 0
    case Deregister(partial, _) => t.resolve == 0 && t.block == if partial then 1 else 0
    case BlockBackend(_) => t.resolve == 0 && t.block == 0
    case BlockRunner(_) => t.resolve == 0 && t.block <= 1
    case RetryBackend(_) => t.resolve == 0 && t.block >= 1
    case RetryRunner => t.resolve == 0 && t.block >= 1
    case Resolving => t.resolve == 0 && t.block >= 1
    case Unwind => true
  }

  /** The stage no effect so far has passed. */
  function Reached(pc: Pc): nat {
    match pc
    case Starting(_) => 0
    case Creating(c) => if c.JitCall? || c.Render? then 1 else 2
    case Watching(w) => if w.Completing? || (w.Watch? && w.busy) then 4 else 3
    case Cleaning(c) => CleanReached(c)
  }

  function CleanReached(c: CleanPc): nat {
    match c
    case Teardown(partial) => if partial then 6 else 5
    case Deregister(partial, _) => if partial then 6 else 5
    case BlockBackend(_) => 5
    case Unwind => 7
    case _ => 6
  }

  function Plus(t: Tally, stage: nat): Tally {
    match stage
    case 0 => t.(reserve := t.reserve + 1)
    case 1 => t.(registration := t.registration + 1)
    case 2 => t.(stack := t.stack + 1)
    case 3 => t.(online := t.online + 1)
    case 4 => t.(busy := t.busy + 1)
    case 5 => t.(complete := t.complete + 1)
    case 6 => t.(block := t.block + 1)
    case 7 => t.(resolve := t.resolve + 1)
    case 8 => t.(release := t.release + 1)
    case _ => t
  }

  function Added(t: Tally, f: Effect): Tally { if f.Quiet? then t else Plus(t, Stage(f)) }

  /** The end: the release, or the refusal of the defensive reservation. */
  predicate Closed(t: Tally) { Proper(t) && (t.release == 1 || t == Tally(1, 0, 0, 0, 0, 0, 0, 0, 0)) }

  predicate StepFits(pc: Pc, t: Tally, a: Act) {
    && (match a.next case Finished => Closed(Added(t, a.effect)) case Continue(next) => SoFar(next, Added(t, a.effect)))
    && (!a.effect.Quiet? ==> Reached(pc) <= Stage(a.effect))
    && (a.next.Continue? ==>
          Reached(pc) <= Reached(a.next.pc) && (!a.effect.Quiet? ==> Stage(a.effect) <= Reached(a.next.pc)))
    && (a.next.Finished? ==> !a.effect.Quiet?)
  }

  lemma StartFits(i: Intent, s: StartPc, t: Tally, m: Moment)
    requires SoFar(Starting(s), t)
    ensures StepFits(Starting(s), t, Start(i, s, m.env, m.answer))
  {
  }

  lemma CreateFits(i: Intent, c: CreatePc, t: Tally, m: Moment)
    requires SoFar(Creating(c), t) && Answerable(Creating(c), m.answer)
    ensures StepFits(Creating(c), t, Create(i, c, m.answer))
  {
  }

  lemma WatchFits(i: Intent, w: WatchPc, t: Tally, m: Moment)
    requires SoFar(Watching(w), t)
    ensures StepFits(Watching(w), t, WatchOn(i, w, m.answer))
  {
  }

  lemma CleanFits(i: Intent, c: CleanPc, t: Tally, m: Moment)
    requires SoFar(Cleaning(c), t)
    ensures StepFits(Cleaning(c), t, Clean(i, c, m.env, m.answer))
  {
  }

  lemma AdvanceFits(i: Intent, pc: Pc, t: Tally, m: Moment)
    requires SoFar(pc, t) && Answerable(pc, m.answer)
    ensures StepFits(pc, t, Advance(i, pc, m.env, m.answer))
  {
    match pc
    case Starting(s) => StartFits(i, s, t, m);
    case Creating(c) => CreateFits(i, c, t, m);
    case Watching(w) => WatchFits(i, w, t, m);
    case Cleaning(c) => CleanFits(i, c, t, m);
  }

  /** What the effects of a run so far must look like. */
  ghost predicate WellTold(s: Story) {
    && Ordered(s.effects)
    && match s.next
       case Finished => Closed(TallyOf(s.effects)) && s.effects != []
       case Continue(pc) => SoFar(pc, TallyOf(s.effects)) && Within(s.effects, Reached(pc))
  }

  lemma TallyMore(fs: seq<Effect>, f: Effect)
    requires !f.Quiet?
    ensures TallyOf(fs + [f]) == Added(TallyOf(fs), f)
  {
    CountMore(fs, f, 0); CountMore(fs, f, 1); CountMore(fs, f, 2);
    CountMore(fs, f, 3); CountMore(fs, f, 4); CountMore(fs, f, 5);
    CountMore(fs, f, 6); CountMore(fs, f, 7); CountMore(fs, f, 8);
    StageRange(f);
  }

  lemma StageRange(f: Effect)
    ensures Stage(f) <= 8
  {
  }

  lemma CountMore(fs: seq<Effect>, f: Effect, stage: nat)
    ensures Count(fs + [f], stage) == Count(fs, stage) + if Stage(f) == stage then 1 else 0
  {
    assert (fs + [f])[..|fs|] == fs;
  }

  lemma ToldWell(s: Story, i: Intent, m: Moment)
    requires WellTold(s)
    ensures WellTold(Told(s, i, m))
  {
    if s.next.Continue? && Answerable(s.next.pc, m.answer) {
      var a := Advance(i, s.next.pc, m.env, m.answer);
      AdvanceFits(i, s.next.pc, TallyOf(s.effects), m);
      if a.effect.Quiet? { QuietTold(s.effects, s.next.pc, a); } else { LoudTold(s.effects, s.next.pc, a); }
    }
  }

  ghost predicate Within(fs: seq<Effect>, reached: nat) { forall k :: 0 <= k < |fs| ==> Stage(fs[k]) <= reached }

  lemma QuietTold(fs: seq<Effect>, pc: Pc, a: Act)
    requires Ordered(fs) && Within(fs, Reached(pc)) && StepFits(pc, TallyOf(fs), a) && a.effect.Quiet?
    ensures WellTold(Story(a.next, fs))
  {
  }

  lemma LoudTold(fs: seq<Effect>, pc: Pc, a: Act)
    requires Ordered(fs) && Within(fs, Reached(pc)) && StepFits(pc, TallyOf(fs), a) && !a.effect.Quiet?
    ensures WellTold(Story(a.next, fs + [a.effect]))
  {
    TallyMore(fs, a.effect);
    OrderedMore(fs, a.effect, Reached(pc));
  }

  lemma OrderedMore(fs: seq<Effect>, f: Effect, reached: nat)
    requires Ordered(fs) && Within(fs, reached) && reached <= Stage(f)
    ensures Ordered(fs + [f]) && Within(fs + [f], Stage(f))
  {
  }

  /** In every run of `Execute`, whatever the shared state and the answers at each step, its
      effects come in the order registration, stack, online, assigned, completed, blocked,
      resolved, released; each at most as often as `Proper` says and only after what it
      needs; and a run that returns has released, last, unless it was refused at the door. */
  lemma {:induction false} EffectsInOrder(i: Intent, ms: seq<Moment>)
    ensures WellTold(Tell(i, ms))
    ensures Ordered(Tell(i, ms).effects) && Proper(TallyOf(Tell(i, ms).effects))
    ensures Tell(i, ms).next.Finished? ==> Closed(TallyOf(Tell(i, ms).effects))
  {
    if ms != [] {
      EffectsInOrder(i, ms[..|ms| - 1]);
      ToldWell(Tell(i, ms[..|ms| - 1]), i, ms[|ms| - 1]);
    }
  }
}
