/** The per-repository circuit breaker (internal/state/breaker.go) and its use by the poll
    loop (internal/orchestrator/poll.go, cmd/orchestrator/run.go). */
module Breaker {

  type Repo = string

  datatype Phase = Closed | Open | HalfOpen

  datatype State = State(phase: Phase, failures: nat, openedAt: int)

  datatype Limits = Limits(threshold: nat, cooldown: int)
  {
    predicate Valid() { 0 < threshold && 0 < cooldown }
  }

  const NEW := State(Closed, 0, 0)

  function Probed(l: Limits, s: State, now: int): State {
    if s.phase.Open? && now - s.openedAt >= l.cooldown then s.(phase := HalfOpen) else s
  }

  function Succeeded(s: State): State { s.(phase := Closed, failures := 0) }

  function FailedAt(l: Limits, s: State, now: int): State {
    if s.phase.HalfOpen? || s.failures + 1 >= l.threshold then State(Open, s.failures + 1, now)
    else s.(failures := s.failures + 1)
  }

  class Switch {
    var phase: Phase
    var consecutiveFailures: nat
    var openedAt: int
    const limits: Limits

    ghost function View(): State reads this { State(phase, consecutiveFailures, openedAt) }

    /** NewBreaker, with its defaults: five failures, five minutes (in nanoseconds). */
    constructor (threshold: int, cooldown: int)
      ensures View() == NEW && limits.Valid()
      ensures 0 < threshold && 0 < cooldown ==> limits == Limits(threshold, cooldown)
    {
      limits := Limits(if threshold <= 0 then 5 else threshold, if cooldown <= 0 then 300_000_000_000 else cooldown);
      phase, consecutiveFailures, openedAt := Closed, 0, 0;
    }

    method MaybeHalfOpen(now: int) returns (moved: bool)
      modifies this
      ensures View() == Probed(limits, old(View()), now) && moved == (View() != old(View()))
    {
      if phase == Open && now - openedAt >= limits.cooldown {
        phase := HalfOpen;
        return true;
      }
      return false;
    }

    method RecordSuccess() returns (closed: bool)
      modifies this
      ensures View() == Succeeded(old(View())) && closed == (old(phase) != Closed)
    {
      closed := phase != Closed;
      phase := Closed;
      consecutiveFailures := 0;
    }

    method RecordFailure(now: int) returns (tripped: bool, failures: nat)
      modifies this
      ensures View() == FailedAt(limits, old(View()), now)
      ensures tripped == (old(phase) != Open && phase == Open) && failures == consecutiveFailures
    {
      var prev := phase;
      consecutiveFailures := consecutiveFailures + 1;
      if phase == HalfOpen || consecutiveFailures >= limits.threshold {
        phase := Open;
        openedAt := now;
      }
      return prev != Open && phase == Open, consecutiveFailures;
    }
  }

  // ------------------------------------------------------------ one breaker's calls

  datatype Call = Probe(at: int) | Success | Failure(at: int)

  function Apply(l: Limits, s: State, c: Call): State {
    match c
    case Probe(at) => Probed(l, s, at)
    case Success => Succeeded(s)
    case Failure(at) => FailedAt(l, s, at)
  }

  function After(l: Limits, cs: seq<Call>): State {
    if cs == [] then NEW else Apply(l, After(l, cs[..|cs| - 1]), cs[|cs| - 1])
  }

  /** The failures recorded since the last success. */
  function FailuresSince(cs: seq<Call>): nat {
    if cs == [] || cs[|cs| - 1].Success? then 0
    else FailuresSince(cs[..|cs| - 1]) + if cs[|cs| - 1].Failure? then 1 else 0
  }

  /** Whatever the calls and the clock, the breaker is closed exactly while the failures
      since the last success are below the threshold. */
  lemma {:induction false} ClosedIffBelowThreshold(l: Limits, cs: seq<Call>)
    requires l.Valid()
    ensures After(l, cs).failures == FailuresSince(cs)
    ensures After(l, cs).phase.Closed? <==> FailuresSince(cs) < l.threshold
  {
    if cs != [] { ClosedIffBelowThreshold(l, cs[..|cs| - 1]); }
  }

  // -------------------------------------------------------------- runs of poll visits

  datatype Outcome = Polled | Failed | RateLimited

  /** One visit of `tick` to a repository: when it asks the breaker, when it records the
      outcome, and the outcome it gets if it polls. */
  datatype Visit = Visit(repo: Repo, asks: int, records: int, outcome: Outcome)

  /** `breakerMap`: breakers are made on demand. */
  type Breakers = map<Repo, State>

  function For(b: Breakers, repo: Repo): State { if repo in b then b[repo] else NEW }

  predicate Attempts(l: Limits, b: Breakers, v: Visit) { !Probed(l, For(b, v.repo), v.asks).phase.Open? }

  function Step(l: Limits, b: Breakers, v: Visit): Breakers {
    var s := Probed(l, For(b, v.repo), v.asks);
    b[v.repo := if !Attempts(l, b, v) then s
                else match v.outcome
                     case Polled => Succeeded(s)
                     case Failed => FailedAt(l, s, v.records)
                     case RateLimited => s]
  }

  predicate Opens(l: Limits, b: Breakers, v: Visit) { Attempts(l, b, v) && For(Step(l, b, v), v.repo).phase.Open? }

  function Run(l: Limits, b: Breakers, vs: seq<Visit>): Breakers
    decreases |vs|
  {
    if vs == [] then b else Run(l, Step(l, b, vs[0]), vs[1..])
  }

  /** The clock never goes back. */
  ghost predicate Timely(vs: seq<Visit>) {
    && (forall i :: 0 <= i < |vs| ==> vs[i].asks <= vs[i].records)
    && (forall i, j :: 0 <= i < j < |vs| ==> vs[i].records <= vs[j].asks)
  }

  /** A repository whose breaker is open is not polled until the cooldown is over. */
  lemma {:induction false} OpenWaits(l: Limits, b: Breakers, vs: seq<Visit>, repo: Repo, k: nat)
    requires Timely(vs) && k < |vs| && vs[k].repo == repo
    requires For(b, repo).phase.Open?
    requires Attempts(l, Run(l, b, vs[..k]), vs[k])
    ensures vs[k].asks - For(b, repo).openedAt >= l.cooldown
    decreases k
  {
    if k > 0 {
      var v := vs[0];
      assert v.asks <= vs[k].asks;
      assert vs[..k][0] == v && vs[..k][1..] == vs[1..][..k - 1];
      if !(v.repo == repo && Attempts(l, b, v)) {
        assert For(Step(l, b, v), repo) == For(b, repo);
        assert Timely(vs[1..]) && vs[1..][k - 1] == vs[k];
        OpenWaits(l, Step(l, b, v), vs[1..], repo, k - 1);
      }
    }
  }

  lemma {:induction false} RunSplits(l: Limits, b: Breakers, vs: seq<Visit>, i: nat)
    requires i <= |vs|
    ensures Run(l, b, vs) == Run(l, Run(l, b, vs[..i]), vs[i..])
    decreases i
  {
    if i > 0 {
      RunSplits(l, Step(l, b, vs[0]), vs[1..], i - 1);
      assert vs[1..][..i - 1] == vs[..i][1..] && vs[1..][i - 1..] == vs[i..] && vs[..i][0] == vs[0];
    }
  }

  /** In every run of visits, over all repositories, a repository is never polled within the
      cooldown after its breaker opened. */
  lemma NoPollWithinCooldown(l: Limits, vs: seq<Visit>, i: nat, j: nat)
    requires Timely(vs) && i < j < |vs| && vs[i].repo == vs[j].repo
    requires Opens(l, Run(l, map[], vs[..i]), vs[i]) && Attempts(l, Run(l, map[], vs[..j]), vs[j])
    ensures vs[j].asks - vs[i].records >= l.cooldown
  {
    var b := Run(l, map[], vs[..i]);
    var b' := Step(l, b, vs[i]);
    RunSplits(l, map[], vs[..j], i);
    assert vs[..j][..i] == vs[..i] && vs[..j][i..][0] == vs[i] && vs[..j][i..][1..] == vs[i + 1..][..j - i - 1];
    assert Timely(vs[i + 1..]) && vs[i + 1..][j - i - 1] == vs[j];
    assert For(b', vs[i].repo).openedAt == vs[i].records;
    OpenWaits(l, b', vs[i + 1..], vs[i].repo, j - i - 1);
  }

  // --------------------------------------------------- the policy without a breaker

  /** What a repository's polls have shown: the failures since its last success, and when
      the latest failure was recorded. */
  datatype History = History(failures: nat, last: int)

  /** Poll while failures are few, or once the cooldown after the latest one is over. */
  predicate MayPoll(l: Limits, h: History, now: int) { h.failures < l.threshold || now - h.last >= l.cooldown }

  /** The history of a repository, with rate-limited polls left out. */
  function HistoryOf(l: Limits, vs: seq<Visit>, repo: Repo): History {
    if vs == [] then History(0, 0)
    else
      var h, v := HistoryOf(l, vs[..|vs| - 1], repo), vs[|vs| - 1];
      if v.repo != repo || v.outcome.RateLimited? || !MayPoll(l, h, v.asks) then h
      else if v.outcome.Polled? then History(0, h.last)
      else History(h.failures + 1, v.records)
  }

  /** The breaker of a repository says what its history says. */
  predicate Tells(l: Limits, s: State, h: History, now: int) {
    && s.failures == h.failures
    && (s.phase.Closed? <==> h.failures < l.threshold)
    && (!s.phase.Closed? ==> s.openedAt == h.last)
    && (s.phase.HalfOpen? ==> now - s.openedAt >= l.cooldown)
  }

  lemma TellsOn(l: Limits, b: Breakers, v: Visit, h: History, before: int)
    requires l.Valid() && Tells(l, For(b, v.repo), h, before) && before <= v.asks
    ensures Attempts(l, b, v) <==> MayPoll(l, h, v.asks)
    ensures var h' := if v.outcome.RateLimited? || !MayPoll(l, h, v.asks) then h
                      else if v.outcome.Polled? then History(0, h.last) else History(h.failures + 1, v.records);
            Tells(l, For(Step(l, b, v), v.repo), h', v.asks)
  {
  }

  function Clock(vs: seq<Visit>): int { if vs == [] then 0 else vs[|vs| - 1].asks }

  lemma RunOn(l: Limits, vs: seq<Visit>)
    requires vs != []
    ensures Run(l, map[], vs) == Step(l, Run(l, map[], vs[..|vs| - 1]), vs[|vs| - 1])
  {
    RunSplits(l, map[], vs, |vs| - 1);
    assert vs[|vs| - 1..] == [vs[|vs| - 1]];
  }

  lemma {:induction false} BreakerTellsHistory(l: Limits, vs: seq<Visit>, repo: Repo)
    requires l.Valid() && Timely(vs)
    ensures Tells(l, For(Run(l, map[], vs), repo), HistoryOf(l, vs, repo), Clock(vs))
  {
    if vs != [] {
      var n := |vs| - 1;
      assert Timely(vs[..n]) && (n > 0 ==> Clock(vs[..n]) <= vs[n].asks);
      BreakerTellsHistory(l, vs[..n], repo);
      RunOn(l, vs);
      if vs[n].repo == repo {
        var before := if n > 0 then Clock(vs[..n]) else vs[n].asks;
        TellsOn(l, Run(l, map[], vs[..n]), vs[n], HistoryOf(l, vs[..n], repo), before);
      }
    }
  }

  /** In every run of visits the breakers realise the policy: a repository is polled exactly
      when its failures since its last success, rate-limited polls not counted, are below
      the threshold, or the cooldown after its latest failure is over. */
  lemma PollsExactly(l: Limits, vs: seq<Visit>, v: Visit)
    requires l.Valid() && Timely(vs + [v])
    ensures Attempts(l, Run(l, map[], vs), v) <==> MayPoll(l, HistoryOf(l, vs, v.repo), v.asks)
  {
    assert Timely(vs) by { assert forall i :: 0 <= i < |vs| ==> (vs + [v])[i] == vs[i]; }
    BreakerTellsHistory(l, vs, v.repo);
    assert vs != [] ==> Clock(vs) <= v.asks by {
      assert vs != [] ==> (vs + [v])[|vs| - 1] == vs[|vs| - 1] && (vs + [v])[|vs|] == v;
    }
    TellsOn(l, Run(l, map[], vs), v, HistoryOf(l, vs, v.repo), if vs == [] then v.asks else Clock(vs));
  }

  function WithoutLimited(vs: seq<Visit>): seq<Visit> {
    if vs == [] then []
    else WithoutLimited(vs[..|vs| - 1]) + if vs[|vs| - 1].outcome.RateLimited? then [] else [vs[|vs| - 1]]
  }

  lemma {:induction false} LimitedLeaveNoTrace(l: Limits, vs: seq<Visit>, repo: Repo)
    ensures HistoryOf(l, WithoutLimited(vs), repo) == HistoryOf(l, vs, repo)
  {
    if vs != [] {
      var v, rest := vs[|vs| - 1], WithoutLimited(vs[..|vs| - 1]);
      LimitedLeaveNoTrace(l, vs[..|vs| - 1], repo);
      if v.outcome.RateLimited? { assert WithoutLimited(vs) == rest; }
      else { assert WithoutLimited(vs) == rest + [v] && (rest + [v])[..|rest|] == rest; }
    }
  }

  /** All is recorded by the time t. */
  ghost predicate RecordedBy(vs: seq<Visit>, t: int) { forall i :: 0 <= i < |vs| ==> vs[i].records <= t }

  lemma TimelyMore(vs: seq<Visit>, v: Visit)
    requires Timely(vs) && RecordedBy(vs, v.asks) && v.asks <= v.records
    ensures Timely(vs + [v]) && RecordedBy(vs + [v], v.records)
  {
    var all := vs + [v];
    assert forall i :: 0 <= i < |vs| ==> all[i] == vs[i];
    assert all[|vs|] == v;
  }

  lemma TimelyLess(vs: seq<Visit>, v: Visit)
    requires Timely(vs + [v])
    ensures Timely(vs) && RecordedBy(vs, v.asks) && v.asks <= v.records
  {
    var all := vs + [v];
    assert forall i :: 0 <= i < |vs| ==> all[i] == vs[i];
    assert all[|vs|] == v;
  }

  lemma {:induction false} StaysTimely(vs: seq<Visit>, t: int)
    requires Timely(vs) && RecordedBy(vs, t)
    ensures Timely(WithoutLimited(vs)) && RecordedBy(WithoutLimited(vs), t)
  {
    if vs != [] {
      var v, us := vs[|vs| - 1], vs[..|vs| - 1];
      assert vs == us + [v];
      TimelyLess(us, v);
      StaysTimely(us, v.asks);
      if v.outcome.RateLimited? { assert WithoutLimited(vs) == WithoutLimited(us); }
      else { TimelyMore(WithoutLimited(us), v); }
    }
  }

  /** Rate-limited polls never advance a breaker: had they not happened, every later visit
      would be polled or skipped just the same. */
  lemma RateLimitsDoNotCount(l: Limits, vs: seq<Visit>, v: Visit)
    requires l.Valid() && Timely(vs + [v])
    ensures Attempts(l, Run(l, map[], WithoutLimited(vs)), v) <==> Attempts(l, Run(l, map[], vs), v)
  {
    TimelyLess(vs, v);
    StaysTimely(vs, v.asks);
    TimelyMore(WithoutLimited(vs), v);
    PollsExactly(l, vs, v);
    PollsExactly(l, WithoutLimited(vs), v);
    LimitedLeaveNoTrace(l, vs, v.repo);
  }
}
