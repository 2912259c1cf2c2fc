/** The promotion program (infra/scripts/promote-release-images.py): preflight, version tags,
    aliases and their rollback, on a registry whose answers are given in advance. */
module PromotionRun {
  import opened Promotion
  import opened PromotionWrites

  class Promoter {
    const plan: seq<Item>
    const reg: Registry
    var stableDigest: seq<Maybe>
    var aliasDigest: seq<Maybe>
    var attempted: seq<nat>

    constructor (plan: seq<Item>, reg: Registry)
      ensures this.plan == plan && this.reg == reg
    {
      this.plan, this.reg := plan, reg;
      stableDigest, aliasDigest, attempted := [], [], [];
    }

    /** The first loop of `preflight`: source and canary of each item. */
    method CheckSources() returns (failures: nat)
      modifies reg`calls
      ensures failures == 0 <==> SourcesPass(plan, reg.tags, reg.script, old(reg.calls))
      ensures reg.calls == old(reg.calls) + 2 * |plan|
    {
      failures := 0;
      var i := 0;
      while i < |plan|
        invariant 0 <= i <= |plan| && reg.calls == old(reg.calls) + 2 * i
        invariant failures == 0 <==> SourcesPass(plan[..i], reg.tags, reg.script, old(reg.calls))
      {
        assert plan[..i + 1][..i] == plan[..i];
        var source := reg.Next();
        if !source.Fine? { failures := failures + 1; }
        var f := reg.Inspect(plan[i].canary, false);
        if f != Got(plan[i].expected) { failures := failures + 1; }
        i := i + 1;
      }
      assert plan[..i] == plan;
    }

    /** The second loop: the version tags, each of which must be missing or right. */
    method NoteStable() returns (failures: nat)
      modifies this`stableDigest, reg`calls
      ensures failures == 0 <==> StablesPass(plan, reg.tags, reg.script, old(reg.calls))
      ensures reg.calls == old(reg.calls) + |plan|
      ensures stableDigest == StableNotes(plan, reg.tags, reg.script, old(reg.calls))
    {
      failures, stableDigest := 0, [];
      var i := 0;
      while i < |plan|
        invariant 0 <= i <= |plan| && reg.calls == old(reg.calls) + i
        invariant failures == 0 <==> StablesPass(plan[..i], reg.tags, reg.script, old(reg.calls))
        invariant stableDigest == StableNotes(plan[..i], reg.tags, reg.script, old(reg.calls))
      {
        assert plan[..i + 1][..i] == plan[..i];
        var f := reg.Inspect(plan[i].stable, true);
        stableDigest := stableDigest + [Note(f)];
        if f.Error? || (f.Got? && f.digest != plan[i].expected) { failures := failures + 1; }
        i := i + 1;
      }
      assert plan[..i] == plan;
    }

    /** The third loop: where the aliases point now. */
    method NoteAlias() returns (failures: nat)
      modifies this`aliasDigest, reg`calls
      ensures failures == 0 <==> AliasesPass(plan, reg.tags, reg.script, old(reg.calls))
      ensures reg.calls == old(reg.calls) + |plan|
      ensures aliasDigest == AliasNotes(plan, reg.tags, reg.script, old(reg.calls))
    {
      failures, aliasDigest := 0, [];
      var i := 0;
      while i < |plan|
        invariant 0 <= i <= |plan| && reg.calls == old(reg.calls) + i
        invariant failures == 0 <==> AliasesPass(plan[..i], reg.tags, reg.script, old(reg.calls))
        invariant aliasDigest == AliasNotes(plan[..i], reg.tags, reg.script, old(reg.calls))
      {
        assert plan[..i + 1][..i] == plan[..i];
        var f := reg.Inspect(plan[i].alias, true);
        aliasDigest := aliasDigest + [Note(f)];
        if f.Error? { failures := failures + 1; }
        i := i + 1;
      }
      assert plan[..i] == plan;
    }

    /** `preflight`: it changes no tag; it passes exactly when every answer is acceptable; and
        it notes the answers about version tags and aliases. What such notes say is
        `PassingNotesTell`. */
    method Preflight() returns (ok: bool)
      modifies this`stableDigest, this`aliasDigest, reg`calls
      ensures ok <==> PreflightPasses(plan, reg.tags, reg.script, old(reg.calls))
      ensures reg.calls == old(reg.calls) + 4 * |plan|
      ensures stableDigest == StableNotes(plan, reg.tags, reg.script, old(reg.calls) + 2 * |plan|)
      ensures aliasDigest == AliasNotes(plan, reg.tags, reg.script, old(reg.calls) + 3 * |plan|)
    {
      var a := CheckSources();
      var b := NoteStable();
      var c := NoteAlias();
      ok := a == 0 && b == 0 && c == 0;
    }

    // ------------------------------------------------------------ version tags

    /** The version tags not noted as right are written in order, until a write fails. */
    method PublishVersions() returns (ok: bool)
      requires |stableDigest| == |plan| && Distinct(plan)
      modifies reg`tags, reg`calls, reg`writes
      ensures Ended(Stables(plan), plan, stableDigest, reg.script, old(reg.calls), reg.tags, old(reg.tags), ok)
      ensures ok ==> reg.calls == old(reg.calls) + Earlier(plan, stableDigest, |plan|)
      ensures AliasesLast(plan, old(reg.writes)) ==> AliasesLast(plan, reg.writes)
    {
      TargetsApart(plan);
      ghost var c := reg.calls;
      var i := 0;
      while i < |plan|
        invariant 0 <= i <= |plan| && reg.calls == c + Earlier(plan, stableDigest, i)
        invariant Progress(Stables(plan), plan, stableDigest, reg.script, c, i, reg.tags, old(reg.tags))
        invariant AliasesLast(plan, old(reg.writes)) ==> AliasesLast(plan, reg.writes)
      {
        if Due(plan, stableDigest, i) {
          ghost var before := reg.tags;
          StableIsNoAlias(plan, i);
          ok := reg.Create(plan[i].stable, plan[i].expected);
          ProgressWrites(Stables(plan), plan, stableDigest, reg.script, c, i, before, reg.tags, old(reg.tags));
          if !ok { return; }
        } else {
          ProgressSkips(Stables(plan), plan, stableDigest, reg.script, c, i, reg.tags, old(reg.tags));
        }
        i := i + 1;
      }
      ok := true;
    }

    /** The version check between the two phases. */
    method VerifyVersions() returns (ok: bool)
      modifies reg`calls
      ensures ok ==> AllStable(plan, reg.tags) && reg.calls == old(reg.calls) + |plan|
      ensures FineFor(reg.script, old(reg.calls), |plan|) && AllStable(plan, reg.tags) ==> ok
    {
      var i := 0;
      while i < |plan|
        invariant 0 <= i <= |plan| && reg.calls == old(reg.calls) + i
        invariant forall j :: 0 <= j < i ==> Lookup(reg.tags, plan[j].stable) == Is(plan[j].expected)
      {
        var f := reg.Inspect(plan[i].stable, false);
        if f != Got(plan[i].expected) { return false; }
        i := i + 1;
      }
      ok := true;
    }

    /** The version phase of `promote`. */
    method Versions() returns (ok: bool)
      requires Distinct(plan) && |stableDigest| == |plan| && AliasesLast(plan, reg.writes)
      modifies reg`tags, reg`calls, reg`writes
      ensures VersionPhase(plan, stableDigest, reg.script, old(reg.calls), reg.tags, old(reg.tags), ok)
      ensures AliasesLast(plan, reg.writes)
      ensures ok ==> reg.calls == AliasCall(plan, stableDigest, old(reg.calls))
      ensures VersionsWork(plan, stableDigest, old(reg.tags), reg.script, old(reg.calls)) ==> ok
    {
      ok := PublishVersions();
      ghost var published := reg.tags;
      KeptUnlessMoved(plan, stableDigest, reg.script, old(reg.calls), published, old(reg.tags));
      StablesOnly(plan, stableDigest, reg.script, old(reg.calls), |plan|, published, old(reg.tags));
      WorkingVersions(plan, stableDigest, reg.script, old(reg.calls), published, old(reg.tags));
      if ok { ok := VerifyVersions(); }
    }

    // ----------------------------------------------------------------- aliases

    method VerifyAliases() returns (ok: bool)
      modifies reg`calls
      ensures ok ==> AllAliased(plan, reg.tags)
      ensures old(reg.calls) <= reg.calls
      ensures FineFor(reg.script, old(reg.calls), |plan|) && AllAliased(plan, reg.tags) ==> ok
    {
      var i := 0;
      while i < |plan|
        invariant 0 <= i <= |plan| && reg.calls == old(reg.calls) + i
        invariant forall j :: 0 <= j < i ==> Lookup(reg.tags, plan[j].alias) == Is(plan[j].expected)
      {
        var f := reg.Inspect(plan[i].alias, false);
        if f != Got(plan[i].expected) { return false; }
        i := i + 1;
      }
      ok := true;
    }

    method WriteAlias(i: nat, digest: Digest) returns (ok: bool)
      requires i < |plan| && Distinct(plan) && AllStable(plan, reg.tags) && AliasesLast(plan, reg.writes)
      modifies reg`tags, reg`calls, reg`writes
      ensures AllStable(plan, reg.tags) && AliasesLast(plan, reg.writes)
      ensures reg.tags == AfterCreate(reg.script(old(reg.calls)), old(reg.tags), plan[i].alias, digest)
      ensures reg.calls == old(reg.calls) + 1 && (ok <==> !reg.script(old(reg.calls)).Fails?)
    {
      ok := reg.Create(plan[i].alias, digest);
    }

    /** The alias writes, in order until one fails; each is recorded before it is tried. */
    method WriteAliases() returns (ok: bool)
      requires |aliasDigest| == |plan| && Distinct(plan) && AllStable(plan, reg.tags) && AliasesLast(plan, reg.writes)
      modifies this`attempted, reg`tags, reg`calls, reg`writes
      ensures AllStable(plan, reg.tags) && AliasesLast(plan, reg.writes)
      ensures Tried(plan, aliasDigest, attempted, reg.script, old(reg.calls), reg.tags, old(reg.tags), ok)
      ensures ok ==> reg.calls == old(reg.calls) + Earlier(plan, aliasDigest, |plan|)
      ensures old(reg.calls) <= reg.calls
      ensures plan != [] && Due(plan, aliasDigest, 0) && reg.script(old(reg.calls)).Fails? ==>
                attempted == [0] && reg.calls == old(reg.calls) + 1
    {
      ghost var c := reg.calls;
      attempted := [];
      TryingStarts(plan, aliasDigest, reg.script, c, reg.tags);
      var i := 0;
      while i < |plan|
        invariant 0 <= i <= |plan| && reg.calls == c + Earlier(plan, aliasDigest, i)
        invariant AllStable(plan, reg.tags) && AliasesLast(plan, reg.writes)
        invariant Trying(plan, aliasDigest, attempted, reg.script, c, i, reg.tags, old(reg.tags))
        invariant i == 0 ==> attempted == []
        invariant i > 0 ==> !(Due(plan, aliasDigest, 0) && reg.script(c).Fails?)
      {
        ok := TryAlias(i, c, old(reg.tags));
        if !ok { return; }
        i := i + 1;
      }
      TryingEnds(plan, aliasDigest, attempted, reg.script, c, reg.tags, old(reg.tags));
      ok := true;
    }

    /** One pass of that loop. */
    method TryAlias(i: nat, ghost c: nat, ghost was: Tags) returns (ok: bool)
      requires |aliasDigest| == |plan| && i < |plan| && Distinct(plan)
      requires AllStable(plan, reg.tags) && AliasesLast(plan, reg.writes)
      requires reg.calls == c + Earlier(plan, aliasDigest, i)
      requires Trying(plan, aliasDigest, attempted, reg.script, c, i, reg.tags, was)
      modifies this`attempted, reg`tags, reg`calls, reg`writes
      ensures AllStable(plan, reg.tags) && AliasesLast(plan, reg.writes)
      ensures attempted == old(attempted) + if Due(plan, aliasDigest, i) then [i] else []
      ensures reg.calls == old(reg.calls) + if Due(plan, aliasDigest, i) then 1 else 0
      ensures ok <==> !(Due(plan, aliasDigest, i) && reg.script(old(reg.calls)).Fails?)
      ensures ok ==> Trying(plan, aliasDigest, attempted, reg.script, c, i + 1, reg.tags, was)
      ensures !ok ==> Tried(plan, aliasDigest, attempted, reg.script, c, reg.tags, was, false)
    {
      if !Due(plan, aliasDigest, i) {
        TryingSkips(plan, aliasDigest, attempted, reg.script, c, i, reg.tags, was);
        return true;
      }
      ghost var before, tried, reply := reg.tags, attempted, reg.script(reg.calls);
      attempted := attempted + [i];
      ok := WriteAlias(i, plan[i].expected);
      TryingWrites(plan, aliasDigest, tried, attempted, reg.script, c, i, reply, before, reg.tags, was);
    }

    /** One alias in `rollback_aliases`. An alias noted as absent is only looked at, and passes
        when it is missing or a failure reads like that. */
    method Restore(i: nat) returns (ok: bool)
      requires |aliasDigest| == |plan| && i < |plan| && Distinct(plan)
      requires AllStable(plan, reg.tags) && AliasesLast(plan, reg.writes)
      modifies reg`tags, reg`calls, reg`writes
      ensures AllStable(plan, reg.tags) && AliasesLast(plan, reg.writes) && old(reg.calls) < reg.calls
      ensures RollsBack(plan, aliasDigest, i, reg.tags, old(reg.tags), ok, Plain(reg.script, old(reg.calls)))
      ensures aliasDigest[i].Absent? ==>
                (ok <==> Answer(reg.script(old(reg.calls)), reg.tags, plan[i].alias, true).Missing?)
      ensures CalmFrom(reg.script, old(reg.calls)) ==> (ok <==> MayStay(plan, aliasDigest, i, old(reg.tags)))
    {
      if aliasDigest[i].Absent? {
        var f := reg.Inspect(plan[i].alias, true);
        return f.Missing?;
      }
      ok := WriteAlias(i, aliasDigest[i].digest);
      if ok {
        var f := reg.Inspect(plan[i].alias, false);
        ok := f == Got(aliasDigest[i].digest);
      }
    }

    /** `rollback_aliases`, last attempt first; it goes on after a failure. Aliases noted as
        absent are left as they are; without a failure the others are as noted, and the absent
        ones do not exist unless some answer reads like a missing tag. With every call working
        it fails exactly when an alias noted as absent is there, since it never deletes one. */
    method Rollback() returns (failures: nat)
      requires |aliasDigest| == |plan| && Distinct(plan) && AllStable(plan, reg.tags) && AliasesLast(plan, reg.writes)
      requires forall k :: 0 <= k < |attempted| ==> attempted[k] < |plan|
      modifies reg`tags, reg`calls, reg`writes
      ensures AllStable(plan, reg.tags) && AliasesLast(plan, reg.writes) && OnlyAliases(plan, reg.tags, old(reg.tags))
      ensures Untouched(plan, attempted, reg.tags, old(reg.tags))
      ensures AbsentLeft(plan, aliasDigest, reg.tags, old(reg.tags))
      ensures failures == 0 ==> BackFrom(plan, attempted, aliasDigest, 0, reg.tags)
      ensures failures == 0 && Plain(reg.script, old(reg.calls)) ==> GoneFrom(plan, attempted, aliasDigest, 0, reg.tags)
      ensures OnlyFirst(attempted, aliasDigest) && ReadsMissing(reg.script(old(reg.calls))) ==> failures == 0
      ensures CalmFrom(reg.script, old(reg.calls)) ==>
                (failures == 0 <==> GoneFrom(plan, attempted, aliasDigest, 0, old(reg.tags)))
    {
      failures := 0;
      var n := |attempted|;
      while n > 0
        invariant 0 <= n <= |attempted| && old(reg.calls) <= reg.calls
        invariant AllStable(plan, reg.tags) && AliasesLast(plan, reg.writes)
        invariant OnlyAliases(plan, reg.tags, old(reg.tags))
        invariant Untouched(plan, attempted, reg.tags, old(reg.tags))
        invariant AbsentLeft(plan, aliasDigest, reg.tags, old(reg.tags))
        invariant failures == 0 ==> BackFrom(plan, attempted, aliasDigest, n, reg.tags)
        invariant failures == 0 && Plain(reg.script, old(reg.calls)) ==>
                  GoneFrom(plan, attempted, aliasDigest, n, reg.tags)
        invariant n == |attempted| ==> reg.calls == old(reg.calls) && failures == 0
        invariant OnlyFirst(attempted, aliasDigest) && ReadsMissing(reg.script(old(reg.calls))) ==> failures == 0
        invariant CalmFrom(reg.script, old(reg.calls)) ==>
                  (failures == 0 <==> GoneFrom(plan, attempted, aliasDigest, n, old(reg.tags)))
      {
        n := n - 1;
        GoneStep(plan, attempted, aliasDigest, n, reg.tags, old(reg.tags));
        ghost var before, plain := reg.tags, Plain(reg.script, reg.calls);
        assert Plain(reg.script, old(reg.calls)) ==> plain;
        var ok := Restore(attempted[n]);
        if !ok { failures := failures + 1; }
        RolledBackOne(plan, attempted, aliasDigest, n, reg.tags, before, old(reg.tags), ok, plain);
      }
    }

    /** The alias phase of `promote`, with its rollback. */
    method PromoteAliases() returns (o: Outcome)
      requires |aliasDigest| == |plan| && Distinct(plan) && AllStable(plan, reg.tags) && AliasesLast(plan, reg.writes)
      modifies this`attempted, reg`tags, reg`calls, reg`writes
      ensures AliasPhase(plan, aliasDigest, reg.script, old(reg.calls), reg.tags, old(reg.tags), o)
      ensures AliasesLast(plan, reg.writes)
      ensures AliasesWork(plan, aliasDigest, old(reg.tags), reg.script, old(reg.calls)) ==> o == Promoted
      ensures HidesFirst(plan, aliasDigest, reg.script, old(reg.calls)) ==> o == Restored
    {
      ghost var c := reg.calls;
      var ok := WriteAliases();
      ghost var mid := reg.tags;
      WorkingAliases(plan, aliasDigest, reg.script, c, mid, old(reg.tags));
      FirstStops(plan, aliasDigest, reg.script, c);
      if ok { ok := VerifyAliases(); }
      if ok { return Promoted; }
      var failures := Rollback();
      if failures > 0 { return Incomplete; }
      RestoredExactly(plan, attempted, aliasDigest, reg.script, c, reg.tags, mid, old(reg.tags));
      return Restored;
    }

    /** `promote`, after a preflight that noted the tags. */
    method Promote() returns (o: Outcome)
      requires Distinct(plan) && |stableDigest| == |aliasDigest| == |plan| && AliasesLast(plan, reg.writes)
      modifies this`attempted, reg`tags, reg`calls, reg`writes
      ensures BothPhases(plan, stableDigest, aliasDigest, reg.script, old(reg.calls), reg.tags, old(reg.tags), o)
      ensures AliasesLast(plan, reg.writes)
      ensures Works(plan, stableDigest, aliasDigest, old(reg.tags), reg.script, old(reg.calls)) ==> o == Promoted
      ensures HiddenRun(plan, stableDigest, aliasDigest, old(reg.tags), reg.script, old(reg.calls)) ==> o == Restored
    {
      ghost var c := reg.calls;
      var ok := Versions();
      if !ok { return VersionFailed; }
      ghost var mid := reg.tags;
      WorksOn(plan, stableDigest, aliasDigest, mid, old(reg.tags), reg.script, c);
      o := PromoteAliases();
      PhasesCompose(plan, stableDigest, aliasDigest, reg.script, c, reg.tags, mid, old(reg.tags), o);
    }

    /** `preflight` and `promote`. A refused preflight changes nothing. No alias is written
        before the whole version set is in place. What the outcome means for version tags and
        aliases is said exactly, from the tags and the answers, by the two claims. */
    method Release() returns (o: Outcome)
      requires Distinct(plan) && reg.writes == []
      modifies this, reg`tags, reg`calls, reg`writes
      ensures o == Refused <==> !PreflightPasses(plan, old(reg.tags), reg.script, old(reg.calls))
      ensures o == Refused ==> reg.tags == old(reg.tags) && reg.writes == []
      ensures AliasesLast(plan, reg.writes) && OthersKept(plan, reg.tags, old(reg.tags))
      ensures VersionClaims(plan, reg.tags, old(reg.tags), reg.script, old(reg.calls), o)
      ensures AliasClaims(plan, reg.tags, old(reg.tags), reg.script, old(reg.calls), o)
      ensures o != Refused && FineFor(reg.script, old(reg.calls) + 4 * |plan|, 4 * |plan|) ==> o == Promoted
    {
      var ok := Preflight();
      if !ok { return Refused; }
      NotesAdmit(plan, stableDigest, aliasDigest, reg.tags, reg.script, old(reg.calls));
      ghost var fine := FineFor(reg.script, old(reg.calls) + 4 * |plan|, 4 * |plan|);
      assert fine ==> Works(plan, stableDigest, aliasDigest, reg.tags, reg.script, reg.calls);
      ghost var c := reg.calls;
      o := Promote();
      assert fine ==> o == Promoted;
      ClaimsFollow(plan, stableDigest, aliasDigest, reg.tags, old(reg.tags), reg.script, old(reg.calls), c, o);
    }
  }

  /** Only the first alias was attempted, and it was noted as absent. */
  predicate OnlyFirst(attempted: seq<nat>, noted: seq<Maybe>) { attempted == [0] && noted != [] && noted[0].Absent? }

  lemma StableIsNoAlias(plan: seq<Item>, i: nat)
    requires Distinct(plan) && i < |plan|
    ensures !IsAlias(plan, plan[i].stable)
  {
  }

  /** Every call of the version phase works, and the notes hold. */
  ghost predicate VersionsWork(plan: seq<Item>, noted: seq<Maybe>, tags: Tags, script: Script, c: nat)
    requires |noted| == |plan|
  {
    FineFor(script, c, Earlier(plan, noted, |plan|) + |plan|) && StablesRight(plan, noted, tags)
  }

  lemma WorkingVersions(plan: seq<Item>, noted: seq<Maybe>, script: Script, c: nat, now: Tags, was: Tags)
    requires Written(Stables(plan), plan, noted, script, c, |plan|, now, was)
    ensures VersionsWork(plan, noted, was, script, c) ==>
              && Reaches(plan, noted, script, c, |plan|) && AllStable(plan, now)
              && FineFor(script, c + Earlier(plan, noted, |plan|), |plan|)
  {
    if VersionsWork(plan, noted, was, script, c) {
      FineWrites(plan, noted, script, c, |plan|);
      WritesComplete(plan, noted, script, c, now, was);
    }
  }

  ghost predicate AliasesWork(plan: seq<Item>, noted: seq<Maybe>, tags: Tags, script: Script, c: nat)
    requires |noted| == |plan|
  {
    FineFor(script, c, Earlier(plan, noted, |plan|) + |plan|) && AliasesRight(plan, noted, tags)
  }

  lemma WorkingAliases(plan: seq<Item>, noted: seq<Maybe>, script: Script, c: nat, now: Tags, was: Tags)
    requires Written(Aliases(plan), plan, noted, script, c, |plan|, now, was)
    ensures AliasesWork(plan, noted, was, script, c) ==>
              && Reaches(plan, noted, script, c, |plan|) && AllAliased(plan, now)
              && FineFor(script, c + Earlier(plan, noted, |plan|), |plan|)
    ensures OnlyAliases(plan, now, was)
  {
    if AliasesWork(plan, noted, was, script, c) {
      FineWrites(plan, noted, script, c, |plan|);
      AliasesComplete(plan, noted, script, c, now, was);
    }
  }

  lemma RestoredExactly(
    plan: seq<Item>, attempted: seq<nat>, noted: seq<Maybe>, script: Script, c: nat, now: Tags, mid: Tags,
    was: Tags)
    requires Written(Aliases(plan), plan, noted, script, c, |plan|, mid, was)
    requires Untouched(plan, attempted, mid, was) && Untouched(plan, attempted, now, mid) && mid.Keys <= now.Keys
    requires AbsentLeft(plan, noted, now, mid) && BackFrom(plan, attempted, noted, 0, now)
    ensures AliasesRight(plan, noted, was) ==> (AliasesKept(plan, now, was) <==> !Strays(plan, noted, script, c, was))
    ensures AliasesRight(plan, noted, was) && GoneFrom(plan, attempted, noted, 0, now) ==> AliasesKept(plan, now, was)
  {
    BackIsPutBack(plan, attempted, noted, now, mid, was);
    if AliasesRight(plan, noted, was) {
      RestoredUnlessStrayed(plan, noted, script, c, now, mid, was);
      if GoneFrom(plan, attempted, noted, 0, now) { GoneIsKept(plan, attempted, noted, now, mid, was); }
    }
  }

  /** The notes hold, and every call of a promotion from here on works. */
  ghost predicate Works(plan: seq<Item>, stables: seq<Maybe>, aliases: seq<Maybe>, tags: Tags, script: Script, n: nat) {
    FineFor(script, n, 4 * |plan|) && StablesRight(plan, stables, tags) && AliasesRight(plan, aliases, tags)
  }

  /** The first alias is noted as absent, its write fails with or without effect, and the
      rollback's look at it fails in words that read like a missing tag. */
  ghost predicate HidesFirst(plan: seq<Item>, noted: seq<Maybe>, script: Script, c: nat) {
    plan != [] && noted != [] && noted[0].Absent? && script(c).Fails? && ReadsMissing(script(c + 1))
  }

  /** A family of runs that end with "changed aliases were restored" although the first alias,
      when its write takes effect, was not. */
  ghost predicate HiddenRun(
    plan: seq<Item>, stables: seq<Maybe>, aliases: seq<Maybe>, tags: Tags, script: Script, c: nat)
    requires |stables| == |plan|
  {
    VersionsWork(plan, stables, tags, script, c) && HidesFirst(plan, aliases, script, AliasCall(plan, stables, c))
  }

  lemma FirstStops(plan: seq<Item>, noted: seq<Maybe>, script: Script, c: nat)
    requires |noted| == |plan|
    ensures HidesFirst(plan, noted, script, c) ==> Due(plan, noted, 0) && !Reaches(plan, noted, script, c, |plan|)
  {
    if HidesFirst(plan, noted, script, c) { StopsAt(plan, noted, script, c, 0); }
  }

  lemma WorksOn(plan: seq<Item>, stables: seq<Maybe>, aliases: seq<Maybe>, mid: Tags, was: Tags, script: Script, c: nat)
    requires |stables| == |aliases| == |plan| && AliasesKept(plan, mid, was)
    ensures Works(plan, stables, aliases, was, script, c) ==>
              AliasesWork(plan, aliases, mid, script, AliasCall(plan, stables, c))
  {
    ComposeAliases(plan, aliases, script, c, was, mid, mid);
  }

  // --------------------------------------------------------------- the failing runs

  function BaseItem(): Item { Item("new", Ref(Base, "1.0.0-canary"), Ref(Base, "1.0.0"), Ref(Base, "latest")) }

  lemma BaseIsDistinct()
    ensures Distinct([BaseItem()]) && BaseItem().canary != BaseItem().stable && BaseItem().canary != BaseItem().alias
  {
    assert |BaseItem().canary.tag| == 12 && |BaseItem().stable.tag| == 5 && |BaseItem().alias.tag| == 6;
  }

  lemma OnePasses(item: Item, tags: Tags, script: Script)
    requires SourcePasses(item, tags, script(0), script(1))
    requires StablePasses(item, tags, script(2)) && AliasPasses(item, tags, script(3))
    ensures PreflightPasses([item], tags, script, 0)
    ensures StableNotes([item], tags, script, 2) == [Note(Answer(script(2), tags, item.stable, true))]
    ensures AliasNotes([item], tags, script, 3) == [Note(Answer(script(3), tags, item.alias, true))]
  {
    assert [item][..0] == [];
  }

  /** The "not found" test is textual: an outage that reads like a missing tag lets the
      preflight pass over an existing version tag, and the promotion then moves it. */
  method OutageMovesVersionTag() returns (was: Tags, now: Tags)
    ensures !VersionsKept([BaseItem()], now, was)
  {
    var item := BaseItem();
    BaseIsDistinct();
    was := map[item.canary := "new", item.stable := "old"];
    var reg := new Registry(was, k => if k == 2 then Fails(false, true) else Fine);
    var p := new Promoter([item], reg);
    OnePasses(item, was, reg.script);
    var o := p.Release();
    now := reg.tags;
    assert p.plan[0] == item;
    assert Lookup(now, item.stable) == Is("new") && Lookup(was, item.stable) == Is("old");
  }

  /** The same test in the rollback: the alias write is applied and reported as failed, the
      look at it afterwards fails like a missing tag, and "changed aliases were restored" is
      reported with a new alias in place. */
  method RestoredIsNotRestored() returns (o: Outcome, was: Tags, now: Tags)
    ensures o == Restored && !AliasesKept([BaseItem()], now, was)
  {
    var item := BaseItem();
    BaseIsDistinct();
    was := map[item.canary := "new"];
    var script := k => if k == 6 then Fails(true, false) else if k == 7 then Fails(false, true) else Fine;
    var reg := new Registry(was, script);
    var p := new Promoter([item], reg);
    OnePasses(item, was, reg.script);
    var _ := p.Preflight();
    HiddenBase(p.plan, p.stableDigest, p.aliasDigest, was, reg.script);
    assert HiddenRun(p.plan, p.stableDigest, p.aliasDigest, reg.tags, reg.script, reg.calls);
    o := p.Promote();
    now := reg.tags;
    StrayedIsNotKept(p.plan, p.stableDigest, p.aliasDigest, reg.script, 4, now, was);
  }

  lemma StrayedIsNotKept(
    plan: seq<Item>, stables: seq<Maybe>, aliases: seq<Maybe>, script: Script, c: nat, now: Tags, was: Tags)
    requires |stables| == |aliases| == |plan| && BothPhases(plan, stables, aliases, script, c, now, was, Restored)
    requires AliasesRight(plan, aliases, was) && Strays(plan, aliases, script, AliasCall(plan, stables, c), was)
    ensures !AliasesKept(plan, now, was)
  {
  }

  lemma HiddenBase(plan: seq<Item>, stables: seq<Maybe>, aliases: seq<Maybe>, tags: Tags, script: Script)
    requires plan == [BaseItem()] && stables == [Absent] && aliases == [Absent]
    requires plan[0].alias !in tags && script(4).Fine? && script(5).Fine?
    requires script(6) == Fails(true, false) && script(7) == Fails(false, true)
    ensures HiddenRun(plan, stables, aliases, tags, script, 4) && AliasesRight(plan, aliases, tags)
    ensures Strays(plan, aliases, script, AliasCall(plan, stables, 4), tags)
  {
    assert Earlier(plan, stables, 1) == 1;
    assert Writes(plan, aliases, script, 6, 0);
  }
}
