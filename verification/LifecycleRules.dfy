/** What `waitForLifecycle` (internal/orchestrator/lifecycle.go) answers to what it receives,
    apart from the state it keeps: the result as a function of the observations, the events
    and the answer of the job search, and what that function promises. */
module LifecycleRules {
  import JobSearch

  datatype Observation = Seen(online: bool, busy: bool) | AuthFailed | RateLimited | OtherError

  /** What a select of the loop can receive, with the answers to the calls it then makes.
      `cancelled`, `pastOnline`, `pastAssignment` and `expired` are what the context and the
      clock say at the point where the code asks. */
  datatype Event =
    | Poll(o: Observation)
    | OnlineFinal(o: Observation)
    | AssignmentFinal(o: Observation)
    | OnlineTimer
    | AssignmentTimer
    | Exit(timedOut: bool, cancelled: bool, o: Observation, pastOnline: bool, pastAssignment: bool, expired: bool)

  datatype Reason =
    | ObservationFailed
    | ObservationLimited
    | Cancelled
    | OnlineTimeout
    | AssignmentTimeout
    | CorrelationFailed
    | ExitedUnassigned

  /** A lifecycleResult: no error and no timeout, a wall-clock timeout, or an error. */
  datatype Result = Completed | WallTimeout | Failure(reason: Reason)

  // ---------------------------------------------------------------- what was seen

  predicate SawBusy(seen: seq<Observation>) { exists k :: 0 <= k < |seen| && seen[k].Seen? && seen[k].busy }

  predicate SawOnline(seen: seq<Observation>) {
    exists k :: 0 <= k < |seen| && seen[k].Seen? && (seen[k].online || seen[k].busy)
  }

  lemma SeesMore(seen: seq<Observation>, o: Observation)
    ensures SawBusy(seen + [o]) <==> SawBusy(seen) || (o.Seen? && o.busy)
    ensures SawOnline(seen + [o]) <==> SawOnline(seen) || (o.Seen? && (o.online || o.busy))
  {
    var all := seen + [o];
    assert all[|seen|] == o && forall k :: 0 <= k < |seen| ==> all[k] == seen[k];
    if SawBusy(seen) { var k :| 0 <= k < |seen| && seen[k].Seen? && seen[k].busy; assert all[k] == seen[k]; }
    if SawOnline(seen) {
      var k :| 0 <= k < |seen| && seen[k].Seen? && (seen[k].online || seen[k].busy);
      assert all[k] == seen[k];
    }
  }

  // ------------------------------------------------------------------- the answers

  /** The two flags of the loop. */
  datatype Flags = Flags(online: bool, busy: bool)

  function Notice(f: Flags, o: Observation): Flags {
    if o.Seen? then Flags(f.online || o.online || o.busy, f.busy || o.busy) else f
  }

  /** An observation that ends the loop, or Completed to go on. */
  function Heed(o: Observation): Result {
    match o
    case AuthFailed => Failure(ObservationFailed)
    case RateLimited => Failure(ObservationLimited)
    case _ => Completed
  }

  /** The observation an event other than an exit leads to, if any. */
  function Looks(f: Flags, e: Event): seq<Observation> {
    match e
    case Poll(o) => if f.busy then [] else [o]
    case OnlineFinal(o) => if f.online then [] else [o]
    case AssignmentFinal(o) => if f.busy then [] else [o]
    case _ => []
  }

  function Hear(f: Flags, e: Event): Result {
    match e
    case OnlineTimer => if f.online then Completed else Failure(OnlineTimeout)
    case AssignmentTimer => if f.busy then Completed else Failure(AssignmentTimeout)
    case _ => if Looks(f, e) == [] then Completed else Heed(Looks(f, e)[0])
  }

  function Heard(f: Flags, e: Event): Flags { if Looks(f, e) == [] then f else Notice(f, Looks(f, e)[0]) }

  /** The answer to an exit, given what the job search says if it is asked. */
  function Judge(f: Flags, e: Event, v: JobSearch.Verdict): Result
    requires e.Exit?
  {
    if e.timedOut then WallTimeout
    else if e.cancelled then Failure(Cancelled)
    else if f.busy then Completed
    else if Heed(e.o).Failure? then Heed(e.o)
    else
      var g := Notice(f, e.o);
      if !g.online && e.pastOnline then Failure(OnlineTimeout)
      else if g.busy then Completed
      else if e.pastAssignment then Failure(AssignmentTimeout)
      else Correlated(e, v)
  }

  function Correlated(e: Event, v: JobSearch.Verdict): Result
    requires e.Exit?
  {
    match v
    case Assigned => Completed
    case Unassigned => Failure(ExitedUnassigned)
    case Indeterminate => Failure(CorrelationFailed)
    case CallFailed => Failure(if e.expired then AssignmentTimeout else CorrelationFailed)
  }

  /** The answer of the loop; when the events run out its context has ended. */
  function Answer(f: Flags, events: seq<Event>, v: JobSearch.Verdict): Result
    decreases |events|
  {
    if events == [] then Failure(Cancelled)
    else if events[0].Exit? then Judge(f, events[0], v)
    else if Hear(f, events[0]).Failure? then Hear(f, events[0])
    else Answer(Heard(f, events[0]), events[1..], v)
  }

  function AnswerFrom(first: Observation, events: seq<Event>, v: JobSearch.Verdict): Result {
    if Heed(first).Failure? then Heed(first) else Answer(Notice(Flags(false, false), first), events, v)
  }

  // -------------------------------------------------------------- what they promise

  /** An exit is answered with a wall-clock timeout exactly when the backend says so, with a
      cancellation exactly when only the context has ended, and otherwise completes whenever
      the runner has been, or is now, seen busy, or its job is found. */
  lemma ExitIsJudged(f: Flags, e: Event, v: JobSearch.Verdict)
    requires e.Exit? && (f.busy ==> f.online)
    ensures Judge(f, e, v) == WallTimeout <==> e.timedOut
    ensures Judge(f, e, v) == Failure(Cancelled) <==> !e.timedOut && e.cancelled
    ensures !e.timedOut && !e.cancelled && (f.busy || (e.o.Seen? && e.o.busy)) ==> Judge(f, e, v) == Completed
    ensures Judge(f, e, v) == Completed ==> f.busy || (e.o.Seen? && e.o.busy) || v == JobSearch.Assigned
    ensures !e.timedOut && !e.cancelled && !Heed(e.o).Failure? && !e.pastOnline && !e.pastAssignment ==>
              (v == JobSearch.Assigned ==> Judge(f, e, v) == Completed)
    ensures Judge(f, e, v) == Failure(ExitedUnassigned) ==>
              v == JobSearch.Unassigned && !f.busy && !(e.o.Seen? && e.o.busy)
  {
  }

  /** The flags after events none of which gives a result, or none at all. */
  datatype Passage = Stopped | Passed(flags: Flags)

  function Pass(f: Flags, events: seq<Event>): Passage
    decreases |events|
  {
    if events == [] then Passed(f)
    else if events[0].Exit? || Hear(f, events[0]).Failure? then Stopped
    else Pass(Heard(f, events[0]), events[1..])
  }

  /** Events that give no result only move the flags. */
  lemma {:induction false} AnswerAfter(f: Flags, events: seq<Event>, n: nat, v: JobSearch.Verdict)
    requires n <= |events| && Pass(f, events[..n]).Passed?
    ensures Answer(f, events, v) == Answer(Pass(f, events[..n]).flags, events[n..], v)
    decreases n
  {
    if n > 0 {
      assert events[..n][0] == events[0] && events[..n][1..] == events[1..][..n - 1];
      AnswerAfter(Heard(f, events[0]), events[1..], n - 1, v);
      assert events[1..][n - 1..] == events[n..];
    }
  }

  lemma {:induction false} PassOn(f: Flags, events: seq<Event>, n: nat)
    requires n < |events| && Pass(f, events[..n]).Passed?
    requires !events[n].Exit? && !Hear(Pass(f, events[..n]).flags, events[n]).Failure?
    ensures Pass(f, events[..n + 1]) == Passed(Heard(Pass(f, events[..n]).flags, events[n]))
    decreases n
  {
    assert events[..n + 1][0] == events[0];
    if n > 0 {
      assert events[..n][0] == events[0] && events[..n][1..] == events[1..][..n - 1];
      assert events[..n + 1][1..] == events[1..][..n];
      PassOn(Heard(f, events[0]), events[1..], n - 1);
    } else {
      assert events[..1][1..] == [];
    }
  }

  /** The first event that gives a result decides. */
  lemma FirstResultDecides(f: Flags, events: seq<Event>, k: nat, v: JobSearch.Verdict)
    requires k < |events| && Pass(f, events[..k]).Passed? && events[k].Exit?
    ensures Answer(f, events, v) == Judge(Pass(f, events[..k]).flags, events[k], v)
  {
    AnswerAfter(f, events, k, v);
  }

  /** A poll that shows the runner busy is not forgotten. */
  lemma {:induction false} BusyIsRemembered(f: Flags, events: seq<Event>, j: nat)
    requires Pass(f, events).Passed?
    requires f.busy || (j < |events| && events[j].Poll? && events[j].o.Seen? && events[j].o.busy)
    ensures Pass(f, events).flags.busy
    decreases |events|
  {
    if events != [] {
      BusyIsRemembered(Heard(f, events[0]), events[1..], if j > 0 then j - 1 else 0);
    }
  }

  /** A runner seen busy, at first or by a later poll, that then exits normally is completed,
      whatever else was received before. */
  lemma DeliveredIsCompleted(first: Observation, events: seq<Event>, j: nat, k: nat, v: JobSearch.Verdict)
    requires !Heed(first).Failure? && k < |events| && events[k].Exit? && !events[k].timedOut && !events[k].cancelled
    requires Pass(Notice(Flags(false, false), first), events[..k]).Passed?
    requires || (first.Seen? && first.busy)
             || (j < k && events[j].Poll? && events[j].o.Seen? && events[j].o.busy)
    ensures AnswerFrom(first, events, v) == Completed
  {
    var f := Notice(Flags(false, false), first);
    assert j < k ==> events[..k][j] == events[j];
    BusyIsRemembered(f, events[..k], j);
    FirstResultDecides(f, events, k, v);
  }

  /** A wall-clock timeout is only ever the backend's own. */
  lemma {:induction false} TimeoutIsTheBackends(f: Flags, events: seq<Event>, v: JobSearch.Verdict)
    requires Answer(f, events, v) == WallTimeout
    ensures exists k :: 0 <= k < |events| && events[k].Exit? && events[k].timedOut
    decreases |events|
  {
    if !events[0].Exit? {
      TimeoutIsTheBackends(Heard(f, events[0]), events[1..], v);
      var k :| 0 <= k < |events[1..]| && events[1..][k].Exit? && events[1..][k].timedOut;
      assert events[k + 1].Exit? && events[k + 1].timedOut;
    }
  }

  /** A runner that never shows itself fails when its timers fire: the online timer while it
      is not online, the assignment timer while it has no job, and neither otherwise. */
  lemma TimersFire(f: Flags, later: seq<Event>, v: JobSearch.Verdict)
    ensures !f.online ==> Answer(f, [OnlineTimer] + later, v) == Failure(OnlineTimeout)
    ensures !f.busy ==> Answer(f, [AssignmentTimer] + later, v) == Failure(AssignmentTimeout)
    ensures f.online ==> Answer(f, [OnlineTimer] + later, v) == Answer(f, later, v)
    ensures f.busy ==> Answer(f, [AssignmentTimer] + later, v) == Answer(f, later, v)
  {
    assert ([OnlineTimer] + later)[1..] == later && ([AssignmentTimer] + later)[1..] == later;
  }

  /** While no job is known, a refused or rate-limited look at GitHub ends the wait with its
      own reason and any other failed look changes nothing; once one is, polls change nothing. */
  lemma LooksDecide(f: Flags, o: Observation, later: seq<Event>, v: JobSearch.Verdict)
    ensures !f.busy && o == AuthFailed ==> Answer(f, [Poll(o)] + later, v) == Failure(ObservationFailed)
    ensures !f.busy && o == RateLimited ==> Answer(f, [Poll(o)] + later, v) == Failure(ObservationLimited)
    ensures f.busy || o == OtherError ==> Answer(f, [Poll(o)] + later, v) == Answer(f, later, v)
  {
    assert ([Poll(o)] + later)[1..] == later;
  }
}
