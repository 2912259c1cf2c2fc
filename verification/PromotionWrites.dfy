/** The two write loops of a promotion, from what is known before them: which write is made
    at which call, which of them take effect, and what that means for the tags. */
module PromotionWrites {
  import opened Promotion

  function Stables(plan: seq<Item>): seq<Ref> { seq(|plan|, i requires 0 <= i < |plan| => plan[i].stable) }

  function Aliases(plan: seq<Item>): seq<Ref> { seq(|plan|, i requires 0 <= i < |plan| => plan[i].alias) }

  ghost predicate Apart(refs: seq<Ref>) { forall i, j :: 0 <= i < j < |refs| ==> refs[i] != refs[j] }

  /** Item i has to be written: it was not noted as right. */
  predicate Due(plan: seq<Item>, noted: seq<Maybe>, i: nat)
    requires |noted| == |plan| && i < |plan|
  {
    noted[i] != Is(plan[i].expected)
  }

  /** How many writes come before item i. */
  function Earlier(plan: seq<Item>, noted: seq<Maybe>, i: nat): (n: nat)
    requires |noted| == |plan| && i <= |plan|
    ensures n <= i
  {
    if i == 0 then 0 else Earlier(plan, noted, i - 1) + if Due(plan, noted, i - 1) then 1 else 0
  }

  /** The answer to item i's write, in a loop that begins at call c. */
  function ReplyTo(plan: seq<Item>, noted: seq<Maybe>, script: Script, c: nat, i: nat): Reply
    requires |noted| == |plan| && i <= |plan|
  {
    script(c + Earlier(plan, noted, i))
  }

  /** The loop gets to item i: no write before it fails. */
  predicate Reaches(plan: seq<Item>, noted: seq<Maybe>, script: Script, c: nat, i: nat)
    requires |noted| == |plan| && i <= |plan|
  {
    || i == 0
    || (Reaches(plan, noted, script, c, i - 1)
        && (Due(plan, noted, i - 1) ==> !ReplyTo(plan, noted, script, c, i - 1).Fails?))
  }

  /** Item i is written with effect. */
  predicate Writes(plan: seq<Item>, noted: seq<Maybe>, script: Script, c: nat, i: nat)
    requires |noted| == |plan| && i < |plan|
  {
    Due(plan, noted, i) && Reaches(plan, noted, script, c, i) && Lands(ReplyTo(plan, noted, script, c, i))
  }

  /** The digest the write leaves. */
  function Put(plan: seq<Item>, noted: seq<Maybe>, script: Script, c: nat, i: nat): Digest
    requires |noted| == |plan| && i < |plan|
  {
    Landed(ReplyTo(plan, noted, script, c, i), plan[i].expected)
  }

  /** Where item i points once the loop has passed the first n items. */
  function PointsTo(
    refs: seq<Ref>, plan: seq<Item>, noted: seq<Maybe>, script: Script, c: nat, n: nat, was: Tags, i: nat): Maybe
    requires |refs| == |noted| == |plan| && i < |plan|
  {
    if i < n && Writes(plan, noted, script, c, i) then Is(Put(plan, noted, script, c, i)) else Lookup(was, refs[i])
  }

  /** The tags once the loop has passed the first n items. */
  ghost predicate Written(
    refs: seq<Ref>, plan: seq<Item>, noted: seq<Maybe>, script: Script, c: nat, n: nat, now: Tags, was: Tags)
  {
    && |refs| == |noted| == |plan| && was.Keys <= now.Keys
    && (forall i :: 0 <= i < |plan| ==> Lookup(now, refs[i]) == PointsTo(refs, plan, noted, script, c, n, was, i))
    && (forall r :: r !in refs ==> Lookup(now, r) == Lookup(was, r))
  }

  lemma WrittenNothing(refs: seq<Ref>, plan: seq<Item>, noted: seq<Maybe>, script: Script, c: nat, was: Tags)
    requires |refs| == |noted| == |plan|
    ensures Written(refs, plan, noted, script, c, 0, was, was)
  {
  }

  lemma WrittenOne(
    refs: seq<Ref>, plan: seq<Item>, noted: seq<Maybe>, script: Script, c: nat, i: nat, before: Tags, was: Tags)
    requires Apart(refs) && i < |plan| && Written(refs, plan, noted, script, c, i, before, was)
    requires Reaches(plan, noted, script, c, i) && Due(plan, noted, i)
    ensures var now := AfterCreate(ReplyTo(plan, noted, script, c, i), before, refs[i], plan[i].expected);
            Written(refs, plan, noted, script, c, i + 1, now, was)
  {
    var now := AfterCreate(ReplyTo(plan, noted, script, c, i), before, refs[i], plan[i].expected);
    forall j | 0 <= j < |plan| ensures Lookup(now, refs[j]) == PointsTo(refs, plan, noted, script, c, i + 1, was, j) {
      assert Lookup(before, refs[j]) == PointsTo(refs, plan, noted, script, c, i, was, j);
      if j < i { assert refs[j] != refs[i]; }
      if i < j { assert refs[i] != refs[j]; }
    }
  }

  lemma WrittenNone(
    refs: seq<Ref>, plan: seq<Item>, noted: seq<Maybe>, script: Script, c: nat, i: nat, now: Tags, was: Tags)
    requires i < |plan| && Written(refs, plan, noted, script, c, i, now, was) && !Due(plan, noted, i)
    ensures Written(refs, plan, noted, script, c, i + 1, now, was)
  {
    forall j | 0 <= j < |plan| ensures Lookup(now, refs[j]) == PointsTo(refs, plan, noted, script, c, i + 1, was, j) {
      assert Lookup(now, refs[j]) == PointsTo(refs, plan, noted, script, c, i, was, j);
    }
  }

  lemma {:induction false} ReachesLess(plan: seq<Item>, noted: seq<Maybe>, script: Script, c: nat, i: nat, j: nat)
    requires |noted| == |plan| && i <= j <= |plan| && Reaches(plan, noted, script, c, j)
    ensures Reaches(plan, noted, script, c, i)
    decreases j
  {
    if i < j { ReachesLess(plan, noted, script, c, i, j - 1); }
  }

  /** A loop that stops early writes nothing further. */
  lemma WrittenAll(
    refs: seq<Ref>, plan: seq<Item>, noted: seq<Maybe>, script: Script, c: nat, n: nat, now: Tags, was: Tags)
    requires n <= |plan| && Written(refs, plan, noted, script, c, n, now, was)
    requires n < |plan| ==> !Reaches(plan, noted, script, c, n)
    ensures Written(refs, plan, noted, script, c, |plan|, now, was)
  {
    forall j | 0 <= j < |plan| ensures Lookup(now, refs[j]) == PointsTo(refs, plan, noted, script, c, |plan|, was, j) {
      assert Lookup(now, refs[j]) == PointsTo(refs, plan, noted, script, c, n, was, j);
      if n <= j && Reaches(plan, noted, script, c, j) { ReachesLess(plan, noted, script, c, n, j); }
    }
  }

  /** A failed write ends its loop. */
  lemma StopsAt(plan: seq<Item>, noted: seq<Maybe>, script: Script, c: nat, i: nat)
    requires |noted| == |plan| && i < |plan| && Due(plan, noted, i) && ReplyTo(plan, noted, script, c, i).Fails?
    ensures !Reaches(plan, noted, script, c, i + 1) && !Reaches(plan, noted, script, c, |plan|)
  {
    if Reaches(plan, noted, script, c, |plan|) { ReachesLess(plan, noted, script, c, i + 1, |plan|); }
  }

  /** The loop is at item i and has written what it should. */
  ghost predicate Progress(
    refs: seq<Ref>, plan: seq<Item>, noted: seq<Maybe>, script: Script, c: nat, i: nat, now: Tags, was: Tags)
  {
    && |noted| == |plan| && i <= |plan|
    && Reaches(plan, noted, script, c, i) && Written(refs, plan, noted, script, c, i, now, was)
  }

  /** The loop is over: whether it got to the end, and what it has written. */
  ghost predicate Ended(
    refs: seq<Ref>, plan: seq<Item>, noted: seq<Maybe>, script: Script, c: nat, now: Tags, was: Tags, ok: bool)
  {
    && |noted| == |plan| && (ok <==> Reaches(plan, noted, script, c, |plan|))
    && Written(refs, plan, noted, script, c, |plan|, now, was)
  }

  lemma ProgressWrites(
    refs: seq<Ref>, plan: seq<Item>, noted: seq<Maybe>, script: Script, c: nat, i: nat, before: Tags, now: Tags,
    was: Tags)
    requires Apart(refs) && i < |plan| && Progress(refs, plan, noted, script, c, i, before, was) && Due(plan, noted, i)
    requires now == AfterCreate(ReplyTo(plan, noted, script, c, i), before, refs[i], plan[i].expected)
    ensures if ReplyTo(plan, noted, script, c, i).Fails? then Ended(refs, plan, noted, script, c, now, was, false)
            else Progress(refs, plan, noted, script, c, i + 1, now, was)
  {
    WrittenOne(refs, plan, noted, script, c, i, before, was);
    if ReplyTo(plan, noted, script, c, i).Fails? {
      StopsAt(plan, noted, script, c, i);
      WrittenAll(refs, plan, noted, script, c, i + 1, now, was);
    }
  }

  lemma ProgressSkips(
    refs: seq<Ref>, plan: seq<Item>, noted: seq<Maybe>, script: Script, c: nat, i: nat, now: Tags, was: Tags)
    requires i < |plan| && Progress(refs, plan, noted, script, c, i, now, was) && !Due(plan, noted, i)
    ensures Progress(refs, plan, noted, script, c, i + 1, now, was)
  {
    WrittenNone(refs, plan, noted, script, c, i, now, was);
  }

  /** With every call working, every item that is due is written as expected. */
  lemma {:induction false} FineWrites(plan: seq<Item>, noted: seq<Maybe>, script: Script, c: nat, n: nat)
    requires |noted| == |plan| && n <= |plan| && FineFor(script, c, Earlier(plan, noted, n))
    ensures Reaches(plan, noted, script, c, n)
    ensures forall i :: 0 <= i < n && Due(plan, noted, i) ==>
              Writes(plan, noted, script, c, i) && Put(plan, noted, script, c, i) == plan[i].expected
  {
    if n > 0 { FineWrites(plan, noted, script, c, n - 1); }
  }

  // ----------------------------------------------------------------- version tags

  /** Some existing version tag is written with effect, to another digest. */
  ghost predicate Moves(plan: seq<Item>, noted: seq<Maybe>, script: Script, c: nat, was: Tags)
    requires |noted| == |plan|
  {
    exists i :: 0 <= i < |plan| && plan[i].stable in was && Writes(plan, noted, script, c, i) &&
        was[plan[i].stable] != Put(plan, noted, script, c, i)
  }

  lemma KeptUnlessMoved(plan: seq<Item>, noted: seq<Maybe>, script: Script, c: nat, now: Tags, was: Tags)
    requires Written(Stables(plan), plan, noted, script, c, |plan|, now, was)
    ensures VersionsKept(plan, now, was) <==> !Moves(plan, noted, script, c, was)
  {
    forall i | 0 <= i < |plan| && plan[i].stable in was
      ensures Lookup(now, plan[i].stable) == Lookup(was, plan[i].stable) <==>
              !(Writes(plan, noted, script, c, i) && was[plan[i].stable] != Put(plan, noted, script, c, i))
    {
      assert Lookup(now, Stables(plan)[i]) == PointsTo(Stables(plan), plan, noted, script, c, |plan|, was, i);
    }
  }

  /** True notes leave only missing version tags to be written. */
  lemma TrueNotesMoveNothing(plan: seq<Item>, noted: seq<Maybe>, script: Script, c: nat, was: Tags)
    requires AbsentOrRight(plan, noted)
    ensures StablesAs(plan, noted, was) ==> !Moves(plan, noted, script, c, was)
  {
  }

  lemma WritesComplete(plan: seq<Item>, noted: seq<Maybe>, script: Script, c: nat, now: Tags, was: Tags)
    requires Written(Stables(plan), plan, noted, script, c, |plan|, now, was)
    ensures FineFor(script, c, Earlier(plan, noted, |plan|)) && StablesRight(plan, noted, was) ==> AllStable(plan, now)
  {
    if FineFor(script, c, Earlier(plan, noted, |plan|)) && StablesRight(plan, noted, was) {
      FineWrites(plan, noted, script, c, |plan|);
      forall i | 0 <= i < |plan| ensures Lookup(now, plan[i].stable) == Is(plan[i].expected) {
        assert Lookup(now, Stables(plan)[i]) == PointsTo(Stables(plan), plan, noted, script, c, |plan|, was, i);
      }
    }
  }

  lemma StablesOnly(plan: seq<Item>, noted: seq<Maybe>, script: Script, c: nat, n: nat, now: Tags, was: Tags)
    requires Distinct(plan) && Written(Stables(plan), plan, noted, script, c, n, now, was)
    ensures AliasesKept(plan, now, was) && OthersKept(plan, now, was)
  {
    forall i | 0 <= i < |plan| ensures plan[i].alias !in Stables(plan) {
      assert forall j :: 0 <= j < |plan| ==> Stables(plan)[j] != plan[i].alias;
    }
  }

  lemma TargetsApart(plan: seq<Item>)
    requires Distinct(plan)
    ensures Apart(Stables(plan)) && Apart(Aliases(plan))
  {
  }

  // ---------------------------------------------------------------------- aliases

  /** Some alias noted as absent is written with effect, to something it was not. The rollback
      never writes such an alias back. */
  ghost predicate Strays(plan: seq<Item>, noted: seq<Maybe>, script: Script, c: nat, was: Tags)
    requires |noted| == |plan|
  {
    exists i :: 0 <= i < |plan| && noted[i].Absent? && Writes(plan, noted, script, c, i)
             && Lookup(was, plan[i].alias) != Is(Put(plan, noted, script, c, i))
  }

  /** What a rollback without failures leaves: aliases noted as present are as noted, or were
      never touched; aliases noted as absent are as the writes left them. */
  ghost predicate PutBack(plan: seq<Item>, noted: seq<Maybe>, now: Tags, mid: Tags, was: Tags)
    requires |noted| == |plan|
  {
    forall i :: 0 <= i < |plan| ==>
      && (noted[i].Absent? ==> Lookup(now, plan[i].alias) == Lookup(mid, plan[i].alias))
      && (noted[i].Is? ==>
            Lookup(now, plan[i].alias) == noted[i] || Lookup(now, plan[i].alias) == Lookup(was, plan[i].alias))
  }

  lemma RestoredUnlessStrayed(
    plan: seq<Item>, noted: seq<Maybe>, script: Script, c: nat, now: Tags, mid: Tags, was: Tags)
    requires Written(Aliases(plan), plan, noted, script, c, |plan|, mid, was) && AliasesRight(plan, noted, was)
    requires PutBack(plan, noted, now, mid, was)
    ensures AliasesKept(plan, now, was) <==> !Strays(plan, noted, script, c, was)
  {
    forall i | 0 <= i < |plan|
      ensures Lookup(now, plan[i].alias) == Lookup(was, plan[i].alias) <==>
              !(noted[i].Absent? && Writes(plan, noted, script, c, i) &&
                  Lookup(was, plan[i].alias) != Is(Put(plan, noted, script, c, i)))
    {
      assert Lookup(mid, Aliases(plan)[i]) == PointsTo(Aliases(plan), plan, noted, script, c, |plan|, was, i);
    }
  }

  /** Aliases whose write was not attempted are as they were. */
  ghost predicate Untouched(plan: seq<Item>, attempted: seq<nat>, now: Tags, was: Tags) {
    forall i :: 0 <= i < |plan| && i !in attempted ==> Lookup(now, plan[i].alias) == Lookup(was, plan[i].alias)
  }

  /** Only the plan's aliases differ. */
  ghost predicate OnlyAliases(plan: seq<Item>, now: Tags, was: Tags) {
    was.Keys <= now.Keys && forall r :: r !in Aliases(plan) ==> Lookup(now, r) == Lookup(was, r)
  }

  /** Aliases noted as absent are as they were. */
  ghost predicate AbsentLeft(plan: seq<Item>, noted: seq<Maybe>, now: Tags, was: Tags)
    requires |noted| == |plan|
  {
    forall i :: 0 <= i < |plan| && noted[i].Absent? ==> Lookup(now, plan[i].alias) == Lookup(was, plan[i].alias)
  }

  /** The attempts from n on whose aliases were noted as present are as noted again. */
  ghost predicate BackFrom(plan: seq<Item>, attempted: seq<nat>, noted: seq<Maybe>, n: nat, tags: Tags)
    requires |noted| == |plan|
  {
    forall k :: n <= k < |attempted| && attempted[k] < |plan| && noted[attempted[k]].Is? ==>
      Lookup(tags, plan[attempted[k]].alias) == noted[attempted[k]]
  }

  /** The attempts from n on whose aliases were noted as absent do not exist. */
  ghost predicate GoneFrom(plan: seq<Item>, attempted: seq<nat>, noted: seq<Maybe>, n: nat, tags: Tags)
    requires |noted| == |plan|
  {
    forall k :: n <= k < |attempted| && attempted[k] < |plan| && noted[attempted[k]].Absent? ==>
        plan[attempted[k]].alias !in tags
  }

  /** One more attempt is gone exactly when its alias, if noted as absent, is not there now. */
  lemma GoneStep(
    plan: seq<Item>, attempted: seq<nat>, noted: seq<Maybe>, n: nat, now: Tags, was: Tags)
    requires |noted| == |plan| && n < |attempted| && attempted[n] < |plan| && AbsentLeft(plan, noted, now, was)
    ensures GoneFrom(plan, attempted, noted, n, was) <==>
            GoneFrom(plan, attempted, noted, n + 1, was) && MayStay(plan, noted, attempted[n], now)
  {
    var i := attempted[n];
    if noted[i].Absent? { assert Lookup(now, plan[i].alias) == Lookup(was, plan[i].alias); }
  }

  /** The alias needs no removal, which a rollback never does. */
  predicate MayStay(plan: seq<Item>, noted: seq<Maybe>, i: nat, tags: Tags)
    requires |noted| == |plan| && i < |plan|
  {
    noted[i].Absent? ==> plan[i].alias !in tags
  }

  /** Every call from n on works. */
  ghost predicate CalmFrom(script: Script, n: nat) { forall k :: n <= k ==> script(k).Fine? }

  /** No answer from call n on reads like a missing tag. */
  ghost predicate Plain(script: Script, n: nat) { forall k :: n <= k ==> !ReadsMissing(script(k)) }

  lemma BackIsPutBack(plan: seq<Item>, attempted: seq<nat>, noted: seq<Maybe>, now: Tags, mid: Tags, was: Tags)
    requires |noted| == |plan| && Untouched(plan, attempted, mid, was) && Untouched(plan, attempted, now, mid)
    requires AbsentLeft(plan, noted, now, mid) && BackFrom(plan, attempted, noted, 0, now)
    ensures PutBack(plan, noted, now, mid, was)
  {
    forall i | 0 <= i < |plan| && noted[i].Is?
      ensures Lookup(now, plan[i].alias) == noted[i] || Lookup(now, plan[i].alias) == Lookup(was, plan[i].alias)
    {
      if i in attempted {
        var k :| 0 <= k < |attempted| && attempted[k] == i;
        assert Lookup(now, plan[attempted[k]].alias) == noted[attempted[k]];
      }
    }
  }

  /** With no answer that reads like a missing tag, the rollback tells the truth. */
  lemma GoneIsKept(plan: seq<Item>, attempted: seq<nat>, noted: seq<Maybe>, now: Tags, mid: Tags, was: Tags)
    requires |noted| == |plan| && Untouched(plan, attempted, mid, was) && Untouched(plan, attempted, now, mid)
    requires was.Keys <= now.Keys
    requires BackFrom(plan, attempted, noted, 0, now) && GoneFrom(plan, attempted, noted, 0, now)
    ensures AliasesRight(plan, noted, was) ==> AliasesKept(plan, now, was)
  {
    if AliasesRight(plan, noted, was) {
      forall i | 0 <= i < |plan| ensures Lookup(now, plan[i].alias) == Lookup(was, plan[i].alias) {
        if i in attempted { var k :| 0 <= k < |attempted| && attempted[k] == i; }
      }
    }
  }

  lemma DistinctAliases(plan: seq<Item>, i: nat, j: nat)
    requires Distinct(plan) && i < |plan| && j < |plan| && i != j
    ensures plan[i].alias != plan[j].alias
  {
    assert i < j || j < i;
  }

  /** One alias of the rollback, as the facts about it that the rest needs. */
  ghost predicate RollsBack(plan: seq<Item>, noted: seq<Maybe>, i: nat, now: Tags, before: Tags, ok: bool, plain: bool)
    requires |noted| == |plan| && i < |plan|
  {
    && before.Keys <= now.Keys && OnlyAt(plan[i].alias, now, before)
    && (noted[i].Absent? ==> now == before && (ok && plain ==> plan[i].alias !in now))
    && (noted[i].Is? && ok ==> Lookup(now, plan[i].alias) == noted[i])
  }

  lemma RolledBackOne(
    plan: seq<Item>, attempted: seq<nat>, noted: seq<Maybe>, n: nat, now: Tags, before: Tags, was: Tags, ok: bool,
    plain: bool)
    requires Distinct(plan) && |noted| == |plan| && n < |attempted| && attempted[n] < |plan|
    requires RollsBack(plan, noted, attempted[n], now, before, ok, plain)
    ensures Untouched(plan, attempted, before, was) ==> Untouched(plan, attempted, now, was)
    ensures AbsentLeft(plan, noted, before, was) ==> AbsentLeft(plan, noted, now, was)
    ensures OnlyAliases(plan, before, was) ==> OnlyAliases(plan, now, was)
    ensures ok && BackFrom(plan, attempted, noted, n + 1, before) ==> BackFrom(plan, attempted, noted, n, now)
    ensures ok && plain && GoneFrom(plan, attempted, noted, n + 1, before) ==> GoneFrom(plan, attempted, noted, n, now)
  {
    var i := attempted[n];
    assert Aliases(plan)[i] == plan[i].alias;
    forall j | 0 <= j < |plan| && j != i ensures Lookup(now, plan[j].alias) == Lookup(before, plan[j].alias) {
      DistinctAliases(plan, i, j);
    }
  }

  /** The alias loop, with its record of attempts. */
  ghost predicate Trying(
    plan: seq<Item>, noted: seq<Maybe>, attempted: seq<nat>, script: Script, c: nat, i: nat, now: Tags, was: Tags)
  {
    && Progress(Aliases(plan), plan, noted, script, c, i, now, was)
    && Untouched(plan, attempted, now, was) && InPlan(plan, attempted)
  }

  ghost predicate Tried(
    plan: seq<Item>, noted: seq<Maybe>, attempted: seq<nat>, script: Script, c: nat, now: Tags, was: Tags, ok: bool)
  {
    && Ended(Aliases(plan), plan, noted, script, c, now, was, ok)
    && Untouched(plan, attempted, now, was) && InPlan(plan, attempted)
  }

  ghost predicate InPlan(plan: seq<Item>, attempted: seq<nat>) {
    forall k :: 0 <= k < |attempted| ==> attempted[k] < |plan|
  }

  lemma TryingStarts(plan: seq<Item>, noted: seq<Maybe>, script: Script, c: nat, was: Tags)
    requires |noted| == |plan|
    ensures Trying(plan, noted, [], script, c, 0, was, was)
  {
  }

  lemma TryingWrites(
    plan: seq<Item>, noted: seq<Maybe>, tried: seq<nat>, attempted: seq<nat>, script: Script, c: nat, i: nat,
    reply: Reply, before: Tags, now: Tags, was: Tags)
    requires Distinct(plan) && i < |plan| && Trying(plan, noted, tried, script, c, i, before, was)
    requires Due(plan, noted, i)
    requires attempted == tried + [i] && reply == ReplyTo(plan, noted, script, c, i)
    requires now == AfterCreate(reply, before, plan[i].alias, plan[i].expected)
    ensures reply.Fails? ==> Tried(plan, noted, attempted, script, c, now, was, false)
    ensures !reply.Fails? ==> Trying(plan, noted, attempted, script, c, i + 1, now, was)
  {
    TargetsApart(plan);
    ProgressWrites(Aliases(plan), plan, noted, script, c, i, before, now, was);
    AttemptedOne(plan, tried, i, now, before, was);
  }

  lemma TryingEnds(
    plan: seq<Item>, noted: seq<Maybe>, attempted: seq<nat>, script: Script, c: nat, now: Tags, was: Tags)
    requires Trying(plan, noted, attempted, script, c, |plan|, now, was)
    ensures Tried(plan, noted, attempted, script, c, now, was, true)
  {
  }

  lemma TryingSkips(
    plan: seq<Item>, noted: seq<Maybe>, attempted: seq<nat>, script: Script, c: nat, i: nat, now: Tags, was: Tags)
    requires i < |plan| && Trying(plan, noted, attempted, script, c, i, now, was) && !Due(plan, noted, i)
    ensures Trying(plan, noted, attempted, script, c, i + 1, now, was)
  {
    ProgressSkips(Aliases(plan), plan, noted, script, c, i, now, was);
  }

  /** One alias write, recorded in `attempted`. */
  lemma AttemptedOne(plan: seq<Item>, attempted: seq<nat>, i: nat, now: Tags, before: Tags, was: Tags)
    requires Distinct(plan) && i < |plan| && OnlyAt(plan[i].alias, now, before)
    requires Untouched(plan, attempted, before, was)
    ensures Untouched(plan, attempted + [i], now, was)
  {
    forall j | 0 <= j < |plan| && j !in attempted + [i]
      ensures Lookup(now, plan[j].alias) == Lookup(was, plan[j].alias)
    {
      assert (attempted + [i])[|attempted|] == i && (j in attempted ==> j in attempted + [i]);
      DistinctAliases(plan, i, j);
    }
  }

  lemma AliasesComplete(plan: seq<Item>, noted: seq<Maybe>, script: Script, c: nat, now: Tags, was: Tags)
    requires Written(Aliases(plan), plan, noted, script, c, |plan|, now, was)
    ensures FineFor(script, c, Earlier(plan, noted, |plan|)) && AliasesRight(plan, noted, was) ==> AllAliased(plan, now)
  {
    if FineFor(script, c, Earlier(plan, noted, |plan|)) && AliasesRight(plan, noted, was) {
      FineWrites(plan, noted, script, c, |plan|);
      forall i | 0 <= i < |plan| ensures Lookup(now, plan[i].alias) == Is(plan[i].expected) {
        assert Lookup(now, Aliases(plan)[i]) == PointsTo(Aliases(plan), plan, noted, script, c, |plan|, was, i);
      }
    }
  }

  // ------------------------------------------------------------ the phases and claims

  /** The call at which the alias writes begin. */
  function AliasCall(plan: seq<Item>, stables: seq<Maybe>, c: nat): nat
    requires |stables| == |plan|
  {
    c + Earlier(plan, stables, |plan|) + |plan|
  }

  ghost predicate VersionPhase(
    plan: seq<Item>, noted: seq<Maybe>, script: Script, c: nat, now: Tags, was: Tags, ok: bool)
    requires |noted| == |plan|
  {
    && (ok ==> AllStable(plan, now))
    && AliasesKept(plan, now, was) && OthersKept(plan, now, was)
    && (VersionsKept(plan, now, was) <==> !Moves(plan, noted, script, c, was))
  }

  ghost predicate AliasPhase(
    plan: seq<Item>, noted: seq<Maybe>, script: Script, c: nat, now: Tags, was: Tags, o: Outcome)
    requires |noted| == |plan|
  {
    && (o == Restored || o == Incomplete || o == Promoted)
    && AllStable(plan, now) && OnlyAliases(plan, now, was)
    && (o == Promoted ==> AllAliased(plan, now))
    && (o == Restored && AliasesRight(plan, noted, was) ==>
          (AliasesKept(plan, now, was) <==> !Strays(plan, noted, script, c, was)))
    && (o == Restored && AliasesRight(plan, noted, was) && Plain(script, c) ==> AliasesKept(plan, now, was))
  }

  /** Both phases of `promote`, begun at call c with these notes. */
  ghost predicate BothPhases(
    plan: seq<Item>, stables: seq<Maybe>, aliases: seq<Maybe>, script: Script, c: nat, now: Tags, was: Tags,
    o: Outcome)
    requires |stables| == |aliases| == |plan|
  {
    && o != Refused && OthersKept(plan, now, was)
    && (VersionsKept(plan, now, was) <==> !Moves(plan, stables, script, c, was))
    && (o == VersionFailed ==> AliasesKept(plan, now, was))
    && (o != VersionFailed ==> AllStable(plan, now))
    && (o == Promoted ==> AllAliased(plan, now))
    && (o == Restored && AliasesRight(plan, aliases, was) ==>
          (AliasesKept(plan, now, was) <==> !Strays(plan, aliases, script, AliasCall(plan, stables, c), was)))
    && (o == Restored && AliasesRight(plan, aliases, was) && Plain(script, c) ==> AliasesKept(plan, now, was))
  }

  lemma PhasesCompose(
    plan: seq<Item>, stables: seq<Maybe>, aliases: seq<Maybe>, script: Script, c: nat, now: Tags, mid: Tags,
    was: Tags, o: Outcome)
    requires Distinct(plan) && |stables| == |aliases| == |plan|
    requires VersionPhase(plan, stables, script, c, mid, was, true)
    requires AliasPhase(plan, aliases, script, AliasCall(plan, stables, c), now, mid, o)
    ensures BothPhases(plan, stables, aliases, script, c, now, was, o)
  {
    ComposeVersions(plan, was, mid, now);
    ComposeOthers(plan, was, mid, now);
    ComposeAliases(plan, aliases, script, AliasCall(plan, stables, c), was, mid, now);
  }

  lemma ComposeVersions(plan: seq<Item>, was: Tags, mid: Tags, now: Tags)
    requires AllStable(plan, mid) && AllStable(plan, now)
    ensures VersionsKept(plan, mid, was) <==> VersionsKept(plan, now, was)
  {
  }

  lemma ComposeOthers(plan: seq<Item>, was: Tags, mid: Tags, now: Tags)
    requires OthersKept(plan, mid, was) && OnlyAliases(plan, now, mid)
    ensures OthersKept(plan, now, was)
  {
    assert forall r :: r in Aliases(plan) ==> exists i :: 0 <= i < |plan| && plan[i].alias == r;
  }

  lemma ComposeAliases(plan: seq<Item>, aliases: seq<Maybe>, script: Script, c: nat, was: Tags, mid: Tags, now: Tags)
    requires |aliases| == |plan| && AliasesKept(plan, mid, was)
    ensures AliasesKept(plan, now, mid) <==> AliasesKept(plan, now, was)
    ensures AliasesRight(plan, aliases, mid) <==> AliasesRight(plan, aliases, was)
    ensures Strays(plan, aliases, script, c, mid) <==> Strays(plan, aliases, script, c, was)
  {
    forall i | 0 <= i < |plan| ensures Lookup(mid, plan[i].alias) == Lookup(was, plan[i].alias) {}
  }

  /** A promotion that starts at call n, from the tags and answers alone: it moves an existing
      version tag; it creates or moves an alias that its rollback will not put back. */
  ghost predicate MovesVersion(plan: seq<Item>, was: Tags, script: Script, n: nat) {
    Moves(plan, StableNotes(plan, was, script, n + 2 * |plan|), script, n + 4 * |plan|, was)
  }

  ghost predicate StraysAlias(plan: seq<Item>, was: Tags, script: Script, n: nat) {
    var stables := StableNotes(plan, was, script, n + 2 * |plan|);
    Strays(plan, AliasNotes(plan, was, script, n + 3 * |plan|), script, AliasCall(plan, stables, n + 4 * |plan|), was)
  }

  /** Existing version tags have stayed exactly when the promotion moves none, which true
      preflight answers guarantee; with the version set in place, exactly when they were right. */
  ghost predicate VersionClaims(plan: seq<Item>, now: Tags, was: Tags, script: Script, n: nat, o: Outcome) {
    && (o != Refused ==> (VersionsKept(plan, now, was) <==> !MovesVersion(plan, was, script, n)))
    && (TruthfulVersions(plan, was, script, n) ==> VersionsKept(plan, now, was))
    && (o == Promoted || o == Restored || o == Incomplete ==>
          AllStable(plan, now) && (VersionsKept(plan, now, was) <==> ExistingAreRight(plan, was)))
  }

  /** "Changed aliases were restored" is true exactly when no alias strays, and in particular
      when no answer after the preflight reads like a missing tag. */
  ghost predicate AliasClaims(plan: seq<Item>, now: Tags, was: Tags, script: Script, n: nat, o: Outcome) {
    && (o == VersionFailed ==> AliasesKept(plan, now, was))
    && (o == Promoted ==> AllAliased(plan, now))
    && (o == Restored ==> (AliasesKept(plan, now, was) <==> !StraysAlias(plan, was, script, n)))
    && (o == Restored && Plain(script, n + 4 * |plan|) ==> AliasesKept(plan, now, was))
  }

  /** These are the notes of a passing preflight. */
  ghost predicate Noted(plan: seq<Item>, stables: seq<Maybe>, aliases: seq<Maybe>, tags: Tags, script: Script, n: nat) {
    && PreflightPasses(plan, tags, script, n)
    && stables == StableNotes(plan, tags, script, n + 2 * |plan|)
    && aliases == AliasNotes(plan, tags, script, n + 3 * |plan|)
  }

  lemma NotesAdmit(plan: seq<Item>, stables: seq<Maybe>, aliases: seq<Maybe>, tags: Tags, script: Script, n: nat)
    requires Noted(plan, stables, aliases, tags, script, n)
    ensures AbsentOrRight(plan, stables) && StablesRight(plan, stables, tags) && AliasesRight(plan, aliases, tags)
  {
    PassingNotesTell(plan, tags, script, n);
  }

  /** True preflight answers move no version tag. */
  lemma TruthMovesNothing(plan: seq<Item>, was: Tags, script: Script, n: nat)
    requires PreflightPasses(plan, was, script, n)
    ensures TruthfulVersions(plan, was, script, n) ==> !MovesVersion(plan, was, script, n)
  {
    StableNotesTell(plan, was, script, n);
    TrueNotesMoveNothing(plan, StableNotes(plan, was, script, n + 2 * |plan|), script, n + 4 * |plan|, was);
  }

  lemma NotedMoves(plan: seq<Item>, stables: seq<Maybe>, was: Tags, script: Script, n: nat, c: nat)
    requires stables == StableNotes(plan, was, script, n + 2 * |plan|) && c == n + 4 * |plan|
    ensures Moves(plan, stables, script, c, was) == MovesVersion(plan, was, script, n)
  {
  }

  lemma NotedStrays(
    plan: seq<Item>, stables: seq<Maybe>, aliases: seq<Maybe>, was: Tags, script: Script, n: nat, c: nat)
    requires stables == StableNotes(plan, was, script, n + 2 * |plan|) && c == n + 4 * |plan|
    requires aliases == AliasNotes(plan, was, script, n + 3 * |plan|)
    ensures Strays(plan, aliases, script, AliasCall(plan, stables, c), was) == StraysAlias(plan, was, script, n)
  {
  }

  lemma VersionClaimsFollow(plan: seq<Item>, now: Tags, was: Tags, script: Script, n: nat, o: Outcome)
    requires PreflightPasses(plan, was, script, n)
    requires VersionsKept(plan, now, was) <==> !MovesVersion(plan, was, script, n)
    requires o != VersionFailed && o != Refused ==> AllStable(plan, now)
    ensures VersionClaims(plan, now, was, script, n, o)
  {
    TruthMovesNothing(plan, was, script, n);
    KeptExactlyWhenRight(plan, was, now);
  }

  /** What both phases did, said of the tags and answers before the preflight. */
  lemma ClaimsFollow(
    plan: seq<Item>, stables: seq<Maybe>, aliases: seq<Maybe>, now: Tags, was: Tags, script: Script, n: nat, c: nat,
    o: Outcome)
    requires Noted(plan, stables, aliases, was, script, n) && AliasesRight(plan, aliases, was)
    requires c == n + 4 * |plan| && BothPhases(plan, stables, aliases, script, c, now, was, o)
    ensures VersionClaims(plan, now, was, script, n, o) && AliasClaims(plan, now, was, script, n, o)
  {
    NotedMoves(plan, stables, was, script, n, c);
    NotedStrays(plan, stables, aliases, was, script, n, c);
    VersionClaimsFollow(plan, now, was, script, n, o);
  }

  /** With the version set in place, existing version tags have stayed exactly when they were right. */
  lemma KeptExactlyWhenRight(plan: seq<Item>, was: Tags, now: Tags)
    ensures AllStable(plan, now) ==> (VersionsKept(plan, now, was) <==> ExistingAreRight(plan, was))
  {
    if AllStable(plan, now) {
      forall i | 0 <= i < |plan| && plan[i].stable in was
        ensures Lookup(now, plan[i].stable) == Lookup(was, plan[i].stable) <==> was[plan[i].stable] == plan[i].expected
      {
      }
    }
  }

  /** When the preflight saw the aliases as they were, an alias strays exactly when one that did
      not exist is written with effect. */
  lemma StraysWhenCreated(plan: seq<Item>, was: Tags, script: Script, n: nat)
    requires PreflightPasses(plan, was, script, n) && TruthfulAliases(plan, was, script, n)
    ensures var notes := AliasNotes(plan, was, script, n + 3 * |plan|);
            var c := AliasCall(plan, StableNotes(plan, was, script, n + 2 * |plan|), n + 4 * |plan|);
            StraysAlias(plan, was, script, n) <==>
            exists i :: 0 <= i < |plan| && plan[i].alias !in was && Writes(plan, notes, script, c, i)
  {
    PassingNotesTell(plan, was, script, n);
  }

  /** A version tag that points elsewhere passes the preflight only behind an answer that
      reads like a missing tag. */
  lemma OnlyOutagesEndanger(plan: seq<Item>, tags: Tags, script: Script, n: nat)
    requires PreflightPasses(plan, tags, script, n)
    ensures TruthfulVersions(plan, tags, script, n) ==> ExistingAreRight(plan, tags)
    ensures forall i :: 0 <= i < |plan| && plan[i].stable in tags && tags[plan[i].stable] != plan[i].expected ==>
              ReadsMissing(script(n + 2 * |plan| + i))
  {
    forall i | 0 <= i < |plan| && plan[i].stable in tags && tags[plan[i].stable] != plan[i].expected
      ensures ReadsMissing(script(n + 2 * |plan| + i))
    {
      StableAt(plan, tags, script, n + 2 * |plan|, i);
    }
  }
}
