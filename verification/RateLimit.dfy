/** The spawn-rate limiter (internal/state/ratelimit.go), over real time: over every run and
    every window, the takes that succeed number at most the burst plus the rate times the
    length of the window. */
module RateLimit {

  datatype Bucket = Bucket(tokens: real, burst: real, rate: real, last: real)
  {
    predicate Valid() { 0.0 <= tokens <= burst && 0.0 < rate }
  }

  function Min(a: real, b: real): real { if a <= b then a else b }

  /** The tokens that accrue over a length of time. */
  function Credit(rate: real, length: real): real { length * rate }

  function Refill(b: Bucket, now: real): Bucket {
    b.(tokens := Min(b.tokens + Credit(b.rate, now - b.last), b.burst), last := now)
  }

  predicate Takes(b: Bucket, now: real) { Refill(b, now).tokens >= 1.0 }

  function Take(b: Bucket, now: real): Bucket {
    var r := Refill(b, now);
    if Takes(b, now) then r.(tokens := r.tokens - 1.0) else r
  }

  /** NewTokenBucket, with its defaults for limits that are not positive. */
  function New(rate: real, burst: real, now: real): (b: Bucket)
    ensures b.Valid() && b.tokens == b.burst && b.last == now
  {
    var r := if rate <= 0.0 then 1.0 else rate;
    var m := if burst <= 0.0 then 1.0 else burst;
    Bucket(m, m, r, now)
  }

  class TokenBucket {
    var tokens: real
    const maxBurst: real
    const rate: real
    var last: real

    ghost function View(): Bucket reads this { Bucket(tokens, maxBurst, rate, last) }

    constructor (ratePerSec: real, burst: real, now: real)
      ensures View() == New(ratePerSec, burst, now)
    {
      var r := if ratePerSec <= 0.0 then 1.0 else ratePerSec;
      var m := if burst <= 0.0 then 1.0 else burst;
      tokens, maxBurst, rate, last := m, m, r, now;
    }

    method TryTake(now: real) returns (ok: bool)
      modifies this
      ensures View() == Take(old(View()), now) && ok == Takes(old(View()), now)
    {
      var elapsed := now - last;
      tokens := Min(tokens + Credit(rate, elapsed), maxBurst);
      last := now;
      if tokens >= 1.0 {
        tokens := tokens - 1.0;
        return true;
      }
      return false;
    }
  }

  // ------------------------------------------------------------------------ runs

  ghost predicate Sorted(ts: seq<real>) { forall i, j :: 0 <= i < j < |ts| ==> ts[i] <= ts[j] }

  function After(b: Bucket, ts: seq<real>): Bucket
    decreases |ts|
  {
    if ts == [] then b else After(Take(b, ts[0]), ts[1..])
  }

  /** How many of the takes succeed. */
  function Taken(b: Bucket, ts: seq<real>): nat
    decreases |ts|
  {
    if ts == [] then 0 else (if Takes(b, ts[0]) then 1 else 0) + Taken(Take(b, ts[0]), ts[1..])
  }

  lemma CreditIsPositive(rate: real, length: real)
    requires 0.0 <= rate && 0.0 <= length
    ensures 0.0 <= Credit(rate, length)
  {
  }

  lemma CreditAdds(rate: real, a: real, b: real)
    ensures Credit(rate, a) + Credit(rate, b) == Credit(rate, a + b)
  {
  }

  lemma CreditGrows(rate: real, a: real, b: real)
    requires 0.0 <= rate && a <= b
    ensures Credit(rate, a) <= Credit(rate, b)
  {
  }

  function One(taken: bool): real { if taken then 1.0 else 0.0 }

  /** One take: the level stays in range, and what it gains is at most the elapsed credit. */
  lemma TakeStep(b: Bucket, now: real)
    requires b.Valid() && b.last <= now
    ensures var b' := Take(b, now); b'.Valid() && b'.last == now && b'.burst == b.burst && b'.rate == b.rate
    ensures Take(b, now).tokens + One(Takes(b, now)) <= b.burst
    ensures Take(b, now).tokens + One(Takes(b, now)) <= b.tokens + Credit(b.rate, now - b.last)
  {
    CreditIsPositive(b.rate, now - b.last);
  }

  /** Every run keeps the level in range. */
  lemma {:induction false} RunStays(b: Bucket, ts: seq<real>)
    requires b.Valid() && Sorted(ts) && (ts != [] ==> b.last <= ts[0])
    ensures var e := After(b, ts); e.Valid() && e.burst == b.burst && e.rate == b.rate
    ensures After(b, ts).last == if ts == [] then b.last else ts[|ts| - 1]
    decreases |ts|
  {
    if ts != [] {
      TakeStep(b, ts[0]);
      RunStays(Take(b, ts[0]), ts[1..]);
    }
  }

  /** Over every run, successes are paid for by the starting level and elapsed time. */
  lemma {:induction false} RunIsPaid(b: Bucket, ts: seq<real>)
    requires b.Valid() && Sorted(ts) && (ts != [] ==> b.last <= ts[0])
    ensures Taken(b, ts) as real + After(b, ts).tokens <= b.tokens + Credit(b.rate, After(b, ts).last - b.last)
    decreases |ts|
  {
    if ts == [] {
      CreditIsPositive(b.rate, 0.0);
    } else {
      var b' := Take(b, ts[0]);
      TakeStep(b, ts[0]);
      RunIsPaid(b', ts[1..]);
      Chain(b.rate, b.last, ts[0], After(b, ts).last, b.tokens, b'.tokens, After(b, ts).tokens, One(Takes(b, ts[0])),
          Taken(b', ts[1..]) as real);
    }
  }

  lemma Chain(rate: real, t0: real, t1: real, t2: real, x0: real, x1: real, x2: real, one: real, more: real)
    requires x1 + one <= x0 + Credit(rate, t1 - t0) && more + x2 <= x1 + Credit(rate, t2 - t1)
    ensures one + more + x2 <= x0 + Credit(rate, t2 - t0)
  {
  }

  /** From any state, the successes of a burst of calls are bounded by the burst size and
      the time between the first and the last call. */
  lemma BurstIsBounded(b: Bucket, ts: seq<real>)
    requires b.Valid() && Sorted(ts) && ts != [] && b.last <= ts[0]
    ensures Taken(b, ts) as real <= b.burst + Credit(b.rate, ts[|ts| - 1] - ts[0])
  {
    var b' := Take(b, ts[0]);
    TakeStep(b, ts[0]);
    RunStays(b', ts[1..]);
    RunIsPaid(b', ts[1..]);
    assert After(b', ts[1..]).last == ts[|ts| - 1];
  }

  /** In any window of any run of a new bucket the successful takes number at most
      burst + rate × length. Calls i to j are those whose times lie in the window. */
  lemma WindowIsBounded(rate: real, burst: real, t0: real, ts: seq<real>, i: nat, j: nat, from: real, to: real)
    requires Sorted(ts) && (ts != [] ==> t0 <= ts[0])
    requires i < j <= |ts| && from <= ts[i] && ts[j - 1] <= to
    ensures var b := New(rate, burst, t0);
            Taken(After(b, ts[..i]), ts[i..j]) as real <= b.burst + Credit(b.rate, to - from)
  {
    var b := New(rate, burst, t0);
    assert Sorted(ts[..i]) && Sorted(ts[i..j]);
    RunStays(b, ts[..i]);
    BurstIsBounded(After(b, ts[..i]), ts[i..j]);
    CreditGrows(b.rate, ts[j - 1] - ts[i], to - from);
  }

  /** Each call comes at least one token's worth of time after the one before. */
  ghost predicate Spaced(b: Bucket, ts: seq<real>)
    decreases |ts|
  {
    ts == [] || (b.last <= ts[0] && Credit(b.rate, ts[0] - b.last) >= 1.0 && Spaced(Take(b, ts[0]), ts[1..]))
  }

  /** Calls spaced like that are never refused, however many they are. */
  lemma {:induction false} SpacedCallsSucceed(b: Bucket, ts: seq<real>)
    requires b.Valid() && b.burst >= 1.0 && Spaced(b, ts)
    ensures Taken(b, ts) == |ts|
    decreases |ts|
  {
    if ts != [] {
      TakeStep(b, ts[0]);
      SpacedCallsSucceed(Take(b, ts[0]), ts[1..]);
    }
  }

  // -------------------------------------------------------- the requests it guards

  /** Workers ask the bucket, and one that was granted a token later makes its JIT request
      or fails before making it. Between the two it loads runner.yml, which takes any time. */
  datatype Event = Ask(at: real) | Request(at: real) | GiveUp(at: real)

  /** The bucket and how many workers hold a grant they have not used yet. */
  datatype Gate = Gate(b: Bucket, held: nat)

  predicate Enabled(g: Gate, workers: nat, e: Event) { if e.Ask? then g.held < workers else g.held > 0 }

  function Pass(g: Gate, workers: nat, e: Event): Gate {
    if !Enabled(g, workers, e) then g
    else if !e.Ask? then Gate(g.b, g.held - 1)
    else Gate(Take(g.b, e.at), if Takes(g.b, e.at) then g.held + 1 else g.held)
  }

  function GateAfter(g: Gate, workers: nat, es: seq<Event>): Gate
    decreases |es|
  {
    if es == [] then g else GateAfter(Pass(g, workers, es[0]), workers, es[1..])
  }

  function Requests(g: Gate, workers: nat, es: seq<Event>): nat
    decreases |es|
  {
    if es == [] then 0
    else
      (if es[0].Request? && Enabled(g, workers, es[0]) then 1 else 0)
      + Requests(Pass(g, workers, es[0]), workers, es[1..])
  }

  ghost predicate Within(es: seq<Event>, from: real, to: real) {
    && from <= to
    && (forall i :: 0 <= i < |es| ==> from <= es[i].at <= to)
    && (forall i, j :: 0 <= i < j < |es| ==> es[i].at <= es[j].at)
  }

  /** What the bucket would hold at a time. */
  function Level(b: Bucket, at: real): real { Refill(b, at).tokens }

  lemma LevelInRange(b: Bucket, at: real)
    requires b.Valid() && b.last <= at
    ensures 0.0 <= Level(b, at) <= b.burst
  {
    CreditIsPositive(b.rate, at - b.last);
  }

  lemma LevelGrows(b: Bucket, from: real, to: real)
    requires b.Valid() && b.last <= from <= to
    ensures Level(b, to) <= Level(b, from) + Credit(b.rate, to - from)
  {
    CreditAdds(b.rate, from - b.last, to - from);
    assert (from - b.last) + (to - from) == to - b.last;
    CreditIsPositive(b.rate, to - from);
  }

  /** Two buckets that no later call can tell apart. */
  ghost predicate Alike(b: Bucket, b': Bucket, from: real) {
    && b.Valid() && b'.Valid() && b.last <= from && b'.last <= from && b.rate == b'.rate && b.burst == b'.burst
    && forall t :: from <= t ==> Level(b, t) == Level(b', t)
  }

  /** A refused take loses no credit: at every later time the bucket holds what it would have
      held had nobody asked. */
  lemma RefusalLosesNothing(b: Bucket, now: real, t: real)
    requires b.Valid() && b.last <= now <= t && !Takes(b, now)
    ensures Level(Take(b, now), t) == Level(b, t)
  {
    CreditAdds(b.rate, now - b.last, t - now);
    assert (now - b.last) + (t - now) == t - b.last;
    CreditIsPositive(b.rate, t - now);
  }

  /** The calls that succeed. */
  function Kept(b: Bucket, ts: seq<real>): seq<real>
    decreases |ts|
  {
    if ts == [] then []
    else if Takes(b, ts[0]) then [ts[0]] + Kept(Take(b, ts[0]), ts[1..]) else Kept(Take(b, ts[0]), ts[1..])
  }

  lemma AlikeTakes(b: Bucket, b': Bucket, from: real, now: real)
    requires Alike(b, b', from) && from <= now
    ensures Takes(b, now) == Takes(b', now)
    ensures Alike(Take(b, now), if Takes(b, now) then Take(b', now) else b', now)
  {
    assert Level(b, now) == Level(b', now);
    TakeStep(b, now);
    TakeStep(b', now);
    if !Takes(b, now) {
      forall t | now <= t ensures Level(Take(b, now), t) == Level(b', t) {
        RefusalLosesNothing(b, now, t);
      }
    }
  }

  /** Over every run the refused calls change nothing: with them left out every other call
      still succeeds, and nobody can tell the buckets apart afterwards. */
  lemma {:induction false} RefusalsChangeNothing(b: Bucket, b': Bucket, from: real, ts: seq<real>)
    requires Alike(b, b', from) && Sorted(ts) && (ts != [] ==> from <= ts[0])
    ensures Taken(b, ts) == |Kept(b, ts)| == Taken(b', Kept(b, ts))
    ensures Alike(After(b, ts), After(b', Kept(b, ts)), if ts == [] then from else ts[|ts| - 1])
    decreases |ts|
  {
    if ts != [] {
      AlikeTakes(b, b', from, ts[0]);
      RefusalsChangeNothing(Take(b, ts[0]), if Takes(b, ts[0]) then Take(b', ts[0]) else b', ts[0], ts[1..]);
      if Takes(b, ts[0]) { KeptFirst(b, b', ts); }
    }
  }

  lemma KeptFirst(b: Bucket, b': Bucket, ts: seq<real>)
    requires ts != [] && Takes(b, ts[0]) && Takes(b', ts[0])
    ensures var rest := Kept(Take(b, ts[0]), ts[1..]);
            && |Kept(b, ts)| == 1 + |rest| && Taken(b', Kept(b, ts)) == 1 + Taken(Take(b', ts[0]), rest)
            && After(b', Kept(b, ts)) == After(Take(b', ts[0]), rest)
  {
    assert Kept(b, ts)[1..] == Kept(Take(b, ts[0]), ts[1..]);
  }

  /** One event: grants and requests are paid for out of the level. */
  lemma PassIsPaid(g: Gate, workers: nat, e: Event, from: real)
    requires g.b.Valid() && g.held <= workers && g.b.last <= from <= e.at
    ensures var g' := Pass(g, workers, e);
            && g'.b.Valid() && g'.held <= workers && g'.b.last <= e.at && g'.b.rate == g.b.rate
            && g'.b.burst == g.b.burst
            && One(e.Request? && Enabled(g, workers, e)) + g'.held as real + Level(g'.b, e.at)
               <= g.held as real + Level(g.b, e.at)
    ensures Level(g.b, e.at) <= Level(g.b, from) + Credit(g.b.rate, e.at - from)
  {
    LevelGrows(g.b, from, e.at);
    LevelInRange(g.b, e.at);
    if e.Ask? { TakeStep(g.b, e.at); CreditIsZero(g.b.rate); }
  }

  lemma CreditIsZero(rate: real)
    ensures Credit(rate, 0.0) == 0.0
  {
  }

  lemma {:induction false} RequestsArePaid(g: Gate, workers: nat, es: seq<Event>, from: real, to: real)
    requires g.b.Valid() && g.held <= workers && g.b.last <= from && Within(es, from, to)
    ensures GateAfter(g, workers, es).b.Valid() && GateAfter(g, workers, es).b.last <= to
    ensures var end := GateAfter(g, workers, es);
            Requests(g, workers, es) as real + end.held as real + Level(end.b, to)
            <= g.held as real + Level(g.b, from) + Credit(g.b.rate, to - from)
    decreases |es|
  {
    if es == [] {
      LevelGrows(g.b, from, to);
    } else {
      var e, g' := es[0], Pass(g, workers, es[0]);
      PassIsPaid(g, workers, e, from);
      assert Within(es[1..], e.at, to);
      RequestsArePaid(g', workers, es[1..], e.at, to);
      var end := GateAfter(g, workers, es);
      Pay(g.b.rate, from, e.at, to,
          g.held as real + Level(g.b, from), g.held as real + Level(g.b, e.at), g'.held as real + Level(g'.b, e.at),
          One(e.Request? && Enabled(g, workers, e)), Requests(g', workers, es[1..]) as real,
          end.held as real + Level(end.b, to));
    }
  }

  lemma Pay(rate: real, t0: real, t1: real, t2: real, a: real, b: real, c: real, one: real, more: real, z: real)
    requires b <= a + Credit(rate, t1 - t0) && one + c <= b && more + z <= c + Credit(rate, t2 - t1)
    ensures one + more + z <= a + Credit(rate, t2 - t0)
  {
  }

  /** The JIT requests in any window number at most burst + rate × length plus the grants
      already held when it begins, of which there is at most one per worker. */
  lemma RequestsAreBounded(g: Gate, workers: nat, es: seq<Event>, from: real, to: real)
    requires g.b.Valid() && g.held <= workers && g.b.last <= from && Within(es, from, to)
    ensures Requests(g, workers, es) as real <= g.b.burst + Credit(g.b.rate, to - from) + g.held as real
    ensures Requests(g, workers, es) as real <= g.b.burst + Credit(g.b.rate, to - from) + workers as real
    ensures Requests(g, workers, es) as real <= g.held as real + Level(g.b, from) + Credit(g.b.rate, to - from)
  {
    RequestsArePaid(g, workers, es, from, to);
    LevelInRange(g.b, from);
    LevelInRange(GateAfter(g, workers, es).b, to);
  }

  /** The bound that holds for takes holds for the requests of every window that begins here. */
  ghost predicate BoundedLikeTakes(g: Gate, workers: nat, from: real) {
    forall es, to :: Within(es, from, to) ==>
        Requests(g, workers, es) as real <= g.b.burst + Credit(g.b.rate, to - from)
  }

  /** It does exactly when the grants held and the tokens there at the start of the window
      fit into the burst together. */
  lemma BoundedExactlyWithRoom(g: Gate, workers: nat, from: real)
    requires g.b.Valid() && g.held <= workers && g.b.last <= from
    ensures BoundedLikeTakes(g, workers, from) <==> g.held as real + Level(g.b, from) <= g.b.burst
  {
    if g.held as real + Level(g.b, from) <= g.b.burst {
      forall es, to | Within(es, from, to)
        ensures Requests(g, workers, es) as real <= g.b.burst + Credit(g.b.rate, to - from)
      {
        RequestsAreBounded(g, workers, es, from, to);
      }
    } else {
      LevelInRange(g.b, from);
      var es, to := Bunch(g, from), BunchEnd(g, from);
      BunchIsTooMuch(g, workers, from);
      assert Within(es, from, to);
    }
  }

  // ------------------------------------------------------ the run that breaks the bound

  function Several(n: nat, e: Event): seq<Event> { if n == 0 then [] else [e] + Several(n - 1, e) }

  function Pairs(n: nat, at: real): seq<Event> { if n == 0 then [] else [Ask(at), Request(at)] + Pairs(n - 1, at) }

  function Whole(g: Gate, from: real): nat { if Level(g.b, from) < 0.0 then 0 else Level(g.b, from).Floor }

  /** Whether grants held and whole tokens alone exceed the burst. */
  predicate AtOnce(g: Gate, from: real) { (g.held + Whole(g, from)) as real > g.b.burst }

  /** When the next whole token is there. */
  function BunchEnd(g: Gate, from: real): real
    requires g.b.rate > 0.0
  {
    if AtOnce(g, from) then from else from + (1.0 + Whole(g, from) as real - Level(g.b, from)) / g.b.rate
  }

  /** Every grant held is used, then every whole token, then the next one when it comes. */
  function Bunch(g: Gate, from: real): seq<Event>
    requires g.b.rate > 0.0
  {
    Several(g.held, Request(from)) + (Pairs(Whole(g, from), from) + Late(g, from))
  }

  lemma {:induction false} RunInTwo(g: Gate, workers: nat, es: seq<Event>, fs: seq<Event>)
    ensures Requests(g, workers, es + fs) == Requests(g, workers, es) + Requests(GateAfter(g, workers, es), workers, fs)
    decreases |es|
  {
    if es == [] {
      assert es + fs == fs;
    } else {
      assert (es + fs)[1..] == es[1..] + fs && (es + fs)[0] == es[0];
      RunInTwo(Pass(g, workers, es[0]), workers, es[1..], fs);
    }
  }

  lemma {:induction false} HeldAreUsed(g: Gate, workers: nat, at: real)
    ensures Requests(g, workers, Several(g.held, Request(at))) == g.held
    ensures GateAfter(g, workers, Several(g.held, Request(at))) == Gate(g.b, 0)
    decreases g.held
  {
    if g.held > 0 {
      var es := Several(g.held, Request(at));
      assert es[0] == Request(at) && es[1..] == Several(g.held - 1, Request(at));
      HeldAreUsed(Gate(g.b, g.held - 1), workers, at);
    }
  }

  /** A take at a time leaves one token less at that time. */
  lemma TakeLevel(b: Bucket, at: real)
    requires b.Valid() && b.last <= at && Level(b, at) >= 1.0
    ensures Takes(b, at) && Take(b, at).Valid() && Take(b, at).last == at
    ensures Level(Take(b, at), at) == Level(b, at) - 1.0
    ensures Take(b, at).burst == b.burst && Take(b, at).rate == b.rate
  {
    TakeStep(b, at);
    CreditIsZero(b.rate);
  }

  lemma PairPasses(g: Gate, workers: nat, at: real)
    requires g.b.Valid() && g.held == 0 && workers > 0 && g.b.last <= at && Level(g.b, at) >= 1.0
    ensures Requests(g, workers, [Ask(at), Request(at)]) == 1
    ensures GateAfter(g, workers, [Ask(at), Request(at)]) == Gate(Take(g.b, at), 0)
  {
    TakeLevel(g.b, at);
    TwoEvents(g, workers, Ask(at), Request(at));
  }

  lemma {:induction false} PairsPass(g: Gate, workers: nat, n: nat, at: real)
    requires g.b.Valid() && g.held == 0 && workers > 0 && g.b.last <= at && n as real <= Level(g.b, at)
    ensures Requests(g, workers, Pairs(n, at)) == n
    ensures var e := GateAfter(g, workers, Pairs(n, at));
            && e.held == 0 && e.b.Valid() && e.b.last <= at && e.b.rate == g.b.rate && e.b.burst == g.b.burst
            && Level(e.b, at) == Level(g.b, at) - n as real
    decreases n
  {
    if n > 0 {
      var g' := Gate(Take(g.b, at), 0);
      PairPasses(g, workers, at);
      TakeLevel(g.b, at);
      PairsPass(g', workers, n - 1, at);
      RunInTwo(g, workers, [Ask(at), Request(at)], Pairs(n - 1, at));
      GateInTwo(g, workers, [Ask(at), Request(at)], Pairs(n - 1, at));
    }
  }

  lemma {:induction false} GateInTwo(g: Gate, workers: nat, es: seq<Event>, fs: seq<Event>)
    ensures GateAfter(g, workers, es + fs) == GateAfter(GateAfter(g, workers, es), workers, fs)
    decreases |es|
  {
    if es == [] {
      assert es + fs == fs;
    } else {
      assert (es + fs)[1..] == es[1..] + fs && (es + fs)[0] == es[0];
      GateInTwo(Pass(g, workers, es[0]), workers, es[1..], fs);
    }
  }

  lemma CreditOfQuotient(rate: real, x: real)
    requires rate > 0.0
    ensures Credit(rate, x / rate) == x
  {
  }

  /** The tokens that accrue are there when the burst has room for them. */
  lemma LevelRises(b: Bucket, from: real, to: real)
    requires b.Valid() && b.last <= from <= to && Level(b, from) + Credit(b.rate, to - from) <= b.burst
    ensures Level(b, to) == Level(b, from) + Credit(b.rate, to - from)
  {
    CreditAdds(b.rate, from - b.last, to - from);
    assert (from - b.last) + (to - from) == to - b.last;
    CreditIsPositive(b.rate, to - from);
  }

  ghost predicate AllAt(es: seq<Event>, at: real) { forall k :: 0 <= k < |es| ==> es[k].at == at }

  lemma {:induction false} SeveralAt(n: nat, e: Event)
    ensures AllAt(Several(n, e), e.at)
  {
    if n > 0 { SeveralAt(n - 1, e); }
  }

  lemma {:induction false} PairsAt(n: nat, at: real)
    ensures AllAt(Pairs(n, at), at)
  {
    if n > 0 { PairsAt(n - 1, at); }
  }

  lemma WithinInTwo(es: seq<Event>, fs: seq<Event>, from: real, to: real)
    requires AllAt(es, from) && AllAt(fs, to) && from <= to
    ensures Within(es + fs, from, to)
  {
    var all := es + fs;
    forall k | 0 <= k < |all| ensures all[k].at == if k < |es| then from else to {
      assert all[k] == if k < |es| then es[k] else fs[k - |es|];
    }
  }

  /** The last part of the bunch: one more token, when it has come. */
  function Late(g: Gate, from: real): seq<Event>
    requires g.b.rate > 0.0
  {
    if AtOnce(g, from) then [] else [Ask(BunchEnd(g, from)), Request(BunchEnd(g, from))]
  }

  lemma BunchWithin(g: Gate, from: real)
    requires g.b.Valid() && from <= BunchEnd(g, from)
    ensures Within(Bunch(g, from), from, BunchEnd(g, from))
  {
    var a, b, c := Several(g.held, Request(from)), Pairs(Whole(g, from), from), Late(g, from);
    SeveralAt(g.held, Request(from));
    PairsAt(Whole(g, from), from);
    assert AllAt(a + b, from) && AllAt(c, BunchEnd(g, from));
    WithinInTwo(a + b, c, from, BunchEnd(g, from));
    assert a + (b + c) == (a + b) + c;
  }

  lemma BunchCounts(g: Gate, workers: nat, from: real)
    requires g.b.Valid() && 0 < g.held <= workers && g.b.last <= from
    ensures var end := GateAfter(Gate(g.b, 0), workers, Pairs(Whole(g, from), from));
            && end.held == 0 && end.b.Valid() && end.b.last <= from && end.b.rate == g.b.rate
            && end.b.burst == g.b.burst
            && Level(end.b, from) == Level(g.b, from) - Whole(g, from) as real
            && Requests(g, workers, Bunch(g, from)) == g.held + Whole(g, from) + Requests(end, workers, Late(g, from))
  {
    var a, b, c := Several(g.held, Request(from)), Pairs(Whole(g, from), from), Late(g, from);
    LevelInRange(g.b, from);
    HeldAreUsed(g, workers, from);
    PairsPass(Gate(g.b, 0), workers, Whole(g, from), from);
    RunInTwo(g, workers, a, b + c);
    RunInTwo(Gate(g.b, 0), workers, b, c);
  }

  /** The next whole token is granted when the burst has room for one. */
  lemma LateIsGranted(g: Gate, end: Gate, workers: nat, from: real)
    requires g.b.Valid() && workers > 0 && g.b.last <= from && !AtOnce(g, from) && g.b.burst >= 1.0
    requires end.held == 0 && end.b.Valid() && end.b.last <= from && end.b.rate == g.b.rate && end.b.burst == g.b.burst
    requires Level(end.b, from) == Level(g.b, from) - Whole(g, from) as real
    ensures from <= BunchEnd(g, from) && Requests(end, workers, Late(g, from)) == 1
    ensures Credit(g.b.rate, BunchEnd(g, from) - from) == 1.0 + Whole(g, from) as real - Level(g.b, from)
  {
    var x := 1.0 + Whole(g, from) as real - Level(g.b, from);
    LevelInRange(g.b, from);
    var to := BunchEnd(g, from);
    CreditOfQuotient(g.b.rate, x);
    QuotientIsPositive(x, g.b.rate);
    assert to - from == x / g.b.rate;
    LevelRises(end.b, from, to);
    PairPasses(end, workers, to);
  }

  lemma QuotientIsPositive(x: real, rate: real)
    requires 0.0 <= x && 0.0 < rate
    ensures 0.0 <= x / rate
  {
  }

  lemma BunchIsTooMuch(g: Gate, workers: nat, from: real)
    requires g.b.Valid() && g.held <= workers && g.b.last <= from
    requires g.held as real + Level(g.b, from) > g.b.burst
    ensures Within(Bunch(g, from), from, BunchEnd(g, from))
    ensures Requests(g, workers, Bunch(g, from)) as real > g.b.burst + Credit(g.b.rate, BunchEnd(g, from) - from)
  {
    LevelInRange(g.b, from);
    BunchCounts(g, workers, from);
    var end := GateAfter(Gate(g.b, 0), workers, Pairs(Whole(g, from), from));
    if AtOnce(g, from) {
      CreditIsZero(g.b.rate);
    } else {
      LateIsGranted(g, end, workers, from);
    }
    BunchWithin(g, from);
  }

  /** The bound on takes is not a bound on requests: two workers granted a token a second
      apart can make their requests at the same moment, two in a window of no length where
      burst + rate × length is one. */
  lemma RequestsCanBunch(g: Gate)
    requires g == Gate(Bucket(0.0, 1.0, 1.0, 1.0), 2)
    ensures GateAfter(Gate(New(1.0, 1.0, 0.0), 0), 2, [Ask(0.0), Ask(1.0)]) == g
    ensures Requests(g, 2, [Request(1.0), Request(1.0)]) == 2
    ensures g.b.burst + Credit(g.b.rate, 0.0) == 1.0
  {
    TwoEvents(Gate(New(1.0, 1.0, 0.0), 0), 2, Ask(0.0), Ask(1.0));
    BothGranted(Gate(New(1.0, 1.0, 0.0), 0));
    TwoRequests(g);
    CreditIsZero(1.0);
  }

  lemma TwoRequests(g: Gate)
    requires g.held == 2
    ensures Requests(g, 2, [Request(1.0), Request(1.0)]) == 2
  {
    TwoEvents(g, 2, Request(1.0), Request(1.0));
  }

  lemma TwoEvents(g: Gate, workers: nat, d: Event, e: Event)
    ensures GateAfter(g, workers, [d, e]) == Pass(Pass(g, workers, d), workers, e)
    ensures Requests(g, workers, [d, e])
            == (if d.Request? && Enabled(g, workers, d) then 1 else 0)
               + (if e.Request? && Enabled(Pass(g, workers, d), workers, e) then 1 else 0)
  {
    var g' := Pass(g, workers, d);
    assert [d, e][1..] == [e] && [e][1..] == [];
    assert GateAfter(g', workers, [e]) == Pass(g', workers, e);
    assert Requests(g', workers, [e]) == if e.Request? && Enabled(g', workers, e) then 1 else 0;
  }

  lemma BothGranted(g: Gate)
    requires g == Gate(Bucket(1.0, 1.0, 1.0, 0.0), 0)
    ensures Pass(Pass(g, 2, Ask(0.0)), 2, Ask(1.0)) == Gate(Bucket(0.0, 1.0, 1.0, 1.0), 2)
  {
    assert Credit(1.0, 0.0) == 0.0 && Credit(1.0, 1.0) == 1.0;
    assert Pass(g, 2, Ask(0.0)) == Gate(Bucket(0.0, 1.0, 1.0, 0.0), 1);
  }
}
