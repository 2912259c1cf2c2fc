/** `waitForLifecycle` (internal/orchestrator/lifecycle.go) as it runs: the select loop over
    its channels, its two flags, and its calls on the shared scheduler state while other
    goroutines use that state too. The calls it makes are proved to be a run of the watch
    part of the worker's program. */
module Lifecycle {
  import opened Ledger
  import opened SchedulerState
  import Worker
  import JobSearch
  import opened LifecycleRules

  // -------------------------------------------------- the watch part of the program

  function Path(i: Worker.Intent, pc: Worker.Pc, xs: seq<Worker.Choice>): Worker.Pc {
    if xs == [] then pc
    else
      var before := Path(i, pc, xs[..|xs| - 1]);
      if before.Watching? && Worker.WatchOn(i, before.watch, xs[|xs| - 1]).next.Continue?
      then Worker.WatchOn(i, before.watch, xs[|xs| - 1]).next.pc
      else before
  }

  function CallsOn(i: Worker.Intent, pc: Worker.Pc, xs: seq<Worker.Choice>): seq<Call> {
    if xs == [] then []
    else
      var before := Path(i, pc, xs[..|xs| - 1]);
      CallsOn(i, pc, xs[..|xs| - 1])
      + if before.Watching? && Worker.WatchOn(i, before.watch, xs[|xs| - 1]).effect.Calls?
        then [Worker.WatchOn(i, before.watch, xs[|xs| - 1]).effect.call] else []
  }

  const START := Worker.Watching(Worker.Watch(false, false))

  lemma PathExtends(i: Worker.Intent, xs: seq<Worker.Choice>, x: Worker.Choice)
    requires Path(i, START, xs).Watching?
    ensures var a := Worker.WatchOn(i, Path(i, START, xs).watch, x);
            && (a.next.Continue? ==> Path(i, START, xs + [x]) == a.next.pc)
            && CallsOn(i, START, xs + [x]) == CallsOn(i, START, xs) + if a.effect.Calls? then [a.effect.call] else []
  {
    assert (xs + [x])[..|xs|] == xs;
  }

  lemma CorrelatedPath(i: Worker.Intent, xs: seq<Worker.Choice>, online: bool)
    requires Path(i, START, xs) == Worker.Watching(Worker.Watch(online, false))
    ensures Path(i, START, xs + [Worker.FoundJob] + [Worker.Succeed]) == Worker.Watching(Worker.Watch(online, true))
    ensures CallsOn(i, START, xs + [Worker.FoundJob] + [Worker.Succeed])
            == CallsOn(i, START, xs) + [Call.SetOnline(i.id)] + [Call.SetAssigned(i.id)]
  {
    PathExtends(i, xs, Worker.FoundJob);
    PathExtends(i, xs + [Worker.FoundJob], Worker.Succeed);
  }

  // ----------------------------------------------------------------- the loop

  ghost predicate Stored(l: State, id: SpawnId, p: Phase) { id in l.reservations && l.reservations[id].phase == p }

  /** Other goroutines use the scheduler; none of them touches this spawn's reservation. */
  method Interfere(st: Scheduler, id: SpawnId)
    modifies st
    ensures (id in st.reservations) == old(id in st.reservations)
    ensures id in st.reservations ==> st.reservations[id] == old(st.reservations[id])
  {
    var res: map<SpawnId, Spawn> := *;
    var counters: map<Repo, Counters> := *;
    var draining: bool := *;
    var blocked: bool := *;
    st.perRepo, st.draining, st.teardownBlocked := counters, draining, blocked;
    st.reservations := if id in st.reservations then res[id := st.reservations[id]] else res - {id};
  }

  class Watcher {
    const st: Scheduler
    const intent: Worker.Intent
    var online: bool
    var busy: bool
    /** The observations made, the calls made, how many of them assigned the spawn, and the
        choices under which the worker's program makes the same calls. */
    ghost var seen: seq<Observation>
    ghost var calls: seq<Call>
    ghost var marks: nat
    ghost var choices: seq<Worker.Choice>

    constructor (st: Scheduler, intent: Worker.Intent)
      requires Stored(st.View(), intent.id, Pending)
      ensures this.st == st && this.intent == intent
      ensures Valid() && InStep() && seen == [] && !online && !busy
    {
      this.st, this.intent, online, busy := st, intent, false, false;
      seen, calls, marks, choices := [], [], 0, [];
    }

    /** The flags say what was observed and what is stored. */
    ghost predicate Valid() reads this, st {
      && Stored(st.View(), intent.id, if busy then Assigned else if online then Online else Pending)
      && (marks == if busy then 1 else 0)
      && (busy ==> online) && busy == SawBusy(seen) && online == SawOnline(seen)
    }

    /** The worker's program has made the same calls and holds the same flags. */
    ghost predicate InStep() reads this {
      && Path(intent, START, choices) == Worker.Watching(Worker.Watch(online, busy))
      && CallsOn(intent, START, choices) == calls
    }

    method Others()
      requires Valid() && InStep()
      modifies st
      ensures Valid()
    {
      Interfere(st, intent.id);
    }

    method SetOnline()
      requires Stored(st.View(), intent.id, Pending) && InStep() && !online && !busy
      modifies this`online, this`calls, this`choices, st
      ensures Stored(st.View(), intent.id, Online) && InStep() && online
    {
      var _ := st.MarkOnline(intent.id);
      PathExtends(intent, choices, Worker.SeenOnline);
      online, calls, choices := true, calls + [Call.SetOnline(intent.id)], choices + [Worker.SeenOnline];
    }

    method SetAssigned()
      requires Stored(st.View(), intent.id, Online) && InStep() && online && !busy && marks == 0
      modifies this`busy, this`calls, this`choices, this`marks, st
      ensures Stored(st.View(), intent.id, Assigned) && InStep() && busy && marks == 1
    {
      var moved := st.MarkAssigned(intent.id);
      PathExtends(intent, choices, Worker.SeenBusy);
      marks := marks + if moved then 1 else 0;
      busy, calls, choices := true, calls + [Call.SetAssigned(intent.id)], choices + [Worker.SeenBusy];
    }

    /** The `observe` closure. A transport error other than authentication or rate limiting
        is remembered only for its message. */
    method Observe(o: Observation) returns (r: Result)
      requires Valid() && InStep()
      modifies this, st
      ensures Valid() && InStep() && seen == old(seen) + [o]
      ensures r == Completed || r == Failure(ObservationFailed) || r == Failure(ObservationLimited)
      ensures r == Failure(ObservationFailed) <==> o.AuthFailed?
      ensures r == Failure(ObservationLimited) <==> o.RateLimited?
      ensures r == Heed(o) && Flags(online, busy) == Notice(old(Flags(online, busy)), o)
    {
      SeesMore(seen, o);
      seen := seen + [o];
      match o {
        case AuthFailed => return Failure(ObservationFailed);
        case RateLimited => return Failure(ObservationLimited);
        case OtherError => return Completed;
        case Seen(isOnline, isBusy) =>
          if (isOnline || isBusy) && !online { SetOnline(); }
          if isBusy && !busy { SetAssigned(); }
          return Completed;
      }
    }

    /** `markCorrelatedAssignment` */
    method MarkCorrelated()
      requires Valid() && InStep() && !busy
      modifies this`calls, this`choices, this`marks, st
      ensures Stored(st.View(), intent.id, Assigned) && marks == 1
      ensures Path(intent, START, choices) == Worker.Watching(Worker.Watch(online, true))
      ensures CallsOn(intent, START, choices) == calls
    {
      var _ := st.MarkOnline(intent.id);
      CorrelatedPath(intent, choices, online);
      var moved := st.MarkAssigned(intent.id);
      marks := marks + if moved then 1 else 0;
      choices := choices + [Worker.FoundJob] + [Worker.Succeed];
      calls := calls + [Call.SetOnline(intent.id)] + [Call.SetAssigned(intent.id)];
    }

    /** How a result is reported to `Execute`: the worker's program stands where the result
        sends it, having made exactly these calls. */
    ghost predicate Ended(r: Result) reads this {
      && Path(intent, START, choices)
         == (if r.Completed? then Worker.Watching(Worker.Completing) else Worker.Cleaning(Worker.Teardown(false)))
      && CallsOn(intent, START, choices) == calls
    }

    ghost method Finish(r: Result, given: bool)
      requires Path(intent, START, choices) == Worker.Watching(Worker.Watch(online, given))
      requires CallsOn(intent, START, choices) == calls
      requires r.Completed? ==> given
      modifies this`choices
      ensures Ended(r)
    {
      var x := if r.Completed? then Worker.Succeed else Worker.FailClean;
      PathExtends(intent, choices, x);
      choices := choices + [x];
    }

    /** What every result of the loop guarantees: a result without error or timeout comes
        with exactly one successful MarkAssigned, and "exited unassigned" with none, no
        observation that saw the runner busy, and a complete search that found no job. */
    ghost predicate Sound(
      r: Result, gh: JobSearch.GitHub, site: JobSearch.Site, who: JobSearch.Runner, cs: seq<JobSearch.Candidate>)
      reads this, st
    {
      && Ended(r)
      && marks <= 1 && (marks == 1 <==> Stored(st.View(), intent.id, Assigned))
      && (r.Completed? ==> marks == 1)
      && (r == Failure(OnlineTimeout) ==> !SawOnline(seen) && Stored(st.View(), intent.id, Pending))
      && (r == Failure(AssignmentTimeout) ==> marks == 0 && !SawBusy(seen))
      && (r == Failure(ExitedUnassigned) ==> marks == 0 && !SawBusy(seen))
      && (r == Failure(ExitedUnassigned) && JobSearch.Serves(gh.server, site) ==>
            && JobSearch.NoCandidate(site, who, cs)
            && JobSearch.NoneAnywhere(site, who, JobSearch.PositiveRuns(cs)))
      && (r.Completed? && !SawBusy(seen) && JobSearch.Serves(gh.server, site) ==> JobSearch.JobVisible(site, who, cs))
    }

    /** The `exitCh` case. */
    method AfterExit(
      e: Event, gh: JobSearch.GitHub, ghost site: JobSearch.Site, who: JobSearch.Runner,
      cs: seq<JobSearch.Candidate>)
      returns (r: Result, ghost verdict: JobSearch.Verdict)
      requires Valid() && InStep() && e.Exit?
      modifies this, st, gh
      ensures Sound(r, gh, site, who, cs)
      ensures r == Judge(old(Flags(online, busy)), e, verdict)
      ensures r == WallTimeout <==> e.timedOut
      ensures r == Failure(Cancelled) <==> !e.timedOut && e.cancelled
      ensures !e.timedOut && !e.cancelled && SawBusy(old(seen)) ==> r == Completed
    {
      verdict := JobSearch.Indeterminate;
      ExitIsJudged(Flags(online, busy), e, verdict);
      r := BeforeCorrelation(e);
      if r.Completed? && !busy {
        r, verdict := AskForJob(e, gh, site, who, cs);
      } else {
        Conclude(r, gh, site, who, cs);
      }
    }

    /** The job search, and the marks if it finds the job. */
    method AskForJob(
      e: Event, gh: JobSearch.GitHub, ghost site: JobSearch.Site, who: JobSearch.Runner, cs: seq<JobSearch.Candidate>)
      returns (r: Result, ghost verdict: JobSearch.Verdict)
      requires Valid() && InStep() && e.Exit? && !busy
      modifies this`calls, this`choices, this`marks, st, gh
      ensures r == Correlated(e, verdict) && Sound(r, gh, site, who, cs)
    {
      var v, _, _ := JobSearch.Correlate(gh, who, cs, site);
      verdict, r := v, Correlated(e, v);
      if v == JobSearch.Assigned {
        MarkCorrelated();
        Finish(r, true);
      } else {
        Finish(r, false);
      }
    }

    /** Every other result leaves the flags to speak for themselves. */
    ghost method Conclude(
      r: Result, gh: JobSearch.GitHub, site: JobSearch.Site, who: JobSearch.Runner, cs: seq<JobSearch.Candidate>)
      requires Valid() && InStep() && (r.Completed? ==> busy) && r != Failure(ExitedUnassigned)
      requires (r == Failure(OnlineTimeout) ==> !online) && (r == Failure(AssignmentTimeout) ==> !busy)
      modifies this`choices
      ensures Sound(r, gh, site, who, cs)
    {
      Finish(r, busy);
    }

    /** Everything the exit case decides before it asks for the job. */
    method BeforeCorrelation(e: Event) returns (r: Result)
      requires Valid() && InStep() && e.Exit?
      modifies this, st
      ensures Valid() && InStep()
      ensures r == Failure(OnlineTimeout) ==> !online
      ensures r == Failure(AssignmentTimeout) ==> !busy
      ensures r != Failure(ExitedUnassigned)
      ensures forall v :: r.Completed? && !busy ==> Judge(old(Flags(online, busy)), e, v) == Correlated(e, v)
      ensures forall v :: !r.Completed? || busy ==> Judge(old(Flags(online, busy)), e, v) == r
    {
      if e.timedOut { return WallTimeout; }
      if e.cancelled { return Failure(Cancelled); }
      r := Completed;
      if !busy {
        r := Observe(e.o);
        if r.Failure? { return; }
      }
      if !online && e.pastOnline { return Failure(OnlineTimeout); }
      if !busy && e.pastAssignment { return Failure(AssignmentTimeout); }
    }

    /** One pass of the select for the other cases; Completed means the loop goes on. A
        channel that was set to nil cannot be received from. */
    method Receive(e: Event) returns (r: Result)
      requires Valid() && InStep() && !e.Exit?
      modifies this, st
      ensures Valid() && InStep()
      ensures r == Failure(OnlineTimeout) ==> !online
      ensures r == Failure(AssignmentTimeout) ==> !busy
      ensures r != Failure(ExitedUnassigned) && r != WallTimeout
      ensures r == Hear(old(Flags(online, busy)), e) && Flags(online, busy) == Heard(old(Flags(online, busy)), e)
    {
      r := Completed;
      match e {
        case Poll(o) => if !busy { r := Observe(o); }
        case OnlineFinal(o) => if !online { r := Observe(o); }
        case AssignmentFinal(o) => if !busy { r := Observe(o); }
        case OnlineTimer => if !online { r := Failure(OnlineTimeout); }
        case AssignmentTimer => if !busy { r := Failure(AssignmentTimeout); }
        case Exit(_, _, _, _, _, _) => assert false;
      }
    }

    /** `waitForLifecycle`. The events are what the loop receives until its context ends. */
    method Wait(
      first: Observation, events: seq<Event>, gh: JobSearch.GitHub, ghost site: JobSearch.Site,
      who: JobSearch.Runner, cs: seq<JobSearch.Candidate>)
      returns (r: Result, ghost verdict: JobSearch.Verdict)
      requires Valid() && InStep() && seen == []
      modifies this, st, gh
      ensures Sound(r, gh, site, who, cs)
      ensures r == AnswerFrom(first, events, verdict)
    {
      verdict := JobSearch.Indeterminate;
      r := Observe(first);
      if r.Failure? {
        Conclude(r, gh, site, who, cs);
        return;
      }
      ghost var start := Flags(online, busy);
      var n := 0;
      while n < |events|
        invariant 0 <= n <= |events| && Valid() && InStep()
        invariant Pass(start, events[..n]) == Passed(Flags(online, busy))
      {
        Others();
        if events[n].Exit? {
          r, verdict := AfterExit(events[n], gh, site, who, cs);
          AnswerAfter(start, events, n, verdict);
          return;
        }
        AnswerAfter(start, events, n, verdict);
        r := Receive(events[n]);
        if r.Failure? {
          Conclude(r, gh, site, who, cs);
          return;
        }
        PassOn(start, events, n);
        n := n + 1;
      }
      AnswerAfter(start, events, n, verdict);
      r := Failure(Cancelled);
      Conclude(r, gh, site, who, cs);
    }
  }
}
