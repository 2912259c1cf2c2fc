/** Release promotion (infra/scripts/promote-release-images.py) against a registry that may
    refuse any call, apply a write and still report an error, write another digest than the
    one asked for, or report an outage in words that read like a missing tag. */
module Promotion {

  type Digest = string

  datatype Package =
    | Base
    | Proxy
    | Orchestrator
    | SocketProxy
    | NodeBuild
    | PythonBuild
    | RustBuild
    | Node
    | Python
    | Rust

  datatype Ref = Ref(package: Package, tag: string)

  datatype Maybe = Absent | Is(digest: Digest)

  datatype Item = Item(expected: Digest, canary: Ref, stable: Ref, alias: Ref)

  type Tags = map<Ref, Digest>

  function Lookup(tags: Tags, r: Ref): Maybe { if r in tags then Is(tags[r]) else Absent }

  // ------------------------------------------------------------------- the plan

  /** A row of PROMOTIONS; canary and version tags share one suffix, the alias is "latest" with it. */
  datatype Row = Row(package: Package, suffix: string)

  function Rows(): seq<Row> {
    [ Row(Base, ""), Row(Proxy, ""), Row(Orchestrator, ""), Row(SocketProxy, ""),
      Row(NodeBuild, "-24"), Row(NodeBuild, "-22"), Row(PythonBuild, "-3.12"), Row(RustBuild, "-stable"),
      Row(Node, "-24"), Row(Node, "-22"), Row(Python, "-3.12"), Row(Rust, "-stable") ]
  }

  function ItemFor(row: Row, release: string, digest: Digest): Item {
    Item(digest,
         Ref(row.package, release + "-canary" + row.suffix),
         Ref(row.package, release + row.suffix),
         Ref(row.package, "latest" + row.suffix))
  }

  /** `load_plan`, given the manifest's digests in the order of the table. */
  function PlanFor(release: string, digests: seq<Digest>): seq<Item>
    requires |digests| == |Rows()|
  {
    seq(|digests|, i requires 0 <= i < |digests| => ItemFor(Rows()[i], release, digests[i]))
  }

  /** No two writes of a promotion aim at the same tag for different purposes. */
  ghost predicate Distinct(plan: seq<Item>) {
    && (forall i, j :: 0 <= i < j < |plan| ==> plan[i].stable != plan[j].stable && plan[i].alias != plan[j].alias)
    && (forall i, j :: 0 <= i < |plan| && 0 <= j < |plan| ==> plan[i].stable != plan[j].alias)
  }

  lemma RowsDiffer(i: nat, j: nat)
    requires i < j < 12
    ensures Rows()[i].package != Rows()[j].package || Rows()[i].suffix != Rows()[j].suffix
  {
  }

  lemma PrefixCancels(p: string, a: string, b: string)
    requires p + a == p + b
    ensures a == b
  {
    assert (p + a)[|p|..] == a && (p + b)[|p|..] == b;
  }

  /** A semantic version starts with a digit, so the table's targets never collide. */
  lemma PlanIsDistinct(release: string, digests: seq<Digest>)
    requires |digests| == |Rows()| && release != "" && '0' <= release[0] <= '9'
    ensures Distinct(PlanFor(release, digests))
  {
    var plan := PlanFor(release, digests);
    forall i, j | 0 <= i < j < |plan| ensures plan[i].stable != plan[j].stable && plan[i].alias != plan[j].alias {
      RowsDiffer(i, j);
      var a, b := Rows()[i].suffix, Rows()[j].suffix;
      if release + a == release + b { PrefixCancels(release, a, b); }
      if "latest" + a == "latest" + b { PrefixCancels("latest", a, b); }
    }
    forall i, j | 0 <= i < |plan| && 0 <= j < |plan| ensures plan[i].stable != plan[j].alias {
      assert plan[i].stable.tag[0] == release[0] && plan[j].alias.tag[0] == 'l';
    }
  }

  // --------------------------------------------------------------- the registry

  datatype Reply = Fine | Odd(digest: Digest) | Fails(applied: bool, looksMissing: bool)

  datatype Found = Got(digest: Digest) | Missing | Error

  /** A write attempt and the tags just before it. */
  datatype Write = Write(ref: Ref, before: Tags)

  /** The registry's answer to its k-th call. */
  type Script = nat -> Reply

  /** The next n calls work. */
  ghost predicate FineFor(script: Script, from: nat, n: nat) { forall k :: from <= k < from + n ==> script(k).Fine? }

  /** A failure whose text the script takes for a missing tag. */
  predicate ReadsMissing(r: Reply) { r.Fails? && r.looksMissing }

  /** `inspect_digest`: a failure that reads like a missing tag counts as one where a missing
      tag is acceptable. */
  function Answer(r: Reply, tags: Tags, ref: Ref, missingOk: bool): Found {
    if r.Fails? then (if missingOk && r.looksMissing then Missing else Error)
    else if ref in tags then Got(tags[ref])
    else if missingOk then Missing else Error
  }

  /** The write takes effect, reported or not. */
  predicate Lands(r: Reply) { r.Fails? ==> r.applied }

  /** The digest it leaves. */
  function Landed(r: Reply, digest: Digest): Digest { if r.Odd? then r.digest else digest }

  function AfterCreate(r: Reply, tags: Tags, ref: Ref, digest: Digest): Tags {
    if Lands(r) then tags[ref := Landed(r, digest)] else tags
  }

  class Registry {
    var tags: Tags
    const script: Script
    var calls: nat
    ghost var writes: seq<Write>

    constructor (tags: Tags, script: Script)
      ensures this.tags == tags && this.script == script && calls == 0 && writes == []
    {
      this.tags, this.script, calls, writes := tags, script, 0, [];
    }

    method Next() returns (r: Reply)
      modifies this`calls
      ensures r == script(old(calls)) && calls == old(calls) + 1
    {
      r := script(calls);
      calls := calls + 1;
    }

    method Inspect(ref: Ref, missingOk: bool) returns (f: Found)
      modifies this`calls
      ensures f == Answer(script(old(calls)), tags, ref, missingOk) && calls == old(calls) + 1
    {
      var r := Next();
      f := Answer(r, tags, ref, missingOk);
    }

    /** `create_tag` */
    method Create(ref: Ref, digest: Digest) returns (ok: bool)
      modifies this`tags, this`calls, this`writes
      ensures tags == AfterCreate(script(old(calls)), old(tags), ref, digest)
      ensures writes == old(writes) + [Write(ref, old(tags))]
      ensures calls == old(calls) + 1 && (ok <==> !script(old(calls)).Fails?)
    {
      writes := writes + [Write(ref, tags)];
      var r := Next();
      match r {
        case Fine => tags := tags[ref := digest]; ok := true;
        case Odd(d) => tags := tags[ref := d]; ok := true;
        case Fails(applied, _) =>
          if applied { tags := tags[ref := digest]; }
          ok := false;
      }
    }
  }

  /** Only this tag differs. */
  ghost predicate OnlyAt(ref: Ref, now: Tags, was: Tags) { forall r :: r != ref ==> Lookup(now, r) == Lookup(was, r) }

  // -------------------------------------------------------------- the promotion

  datatype Outcome = Refused | VersionFailed | Restored | Incomplete | Promoted

  ghost predicate AllStable(plan: seq<Item>, tags: Tags) {
    forall i :: 0 <= i < |plan| ==> Lookup(tags, plan[i].stable) == Is(plan[i].expected)
  }

  ghost predicate AllAliased(plan: seq<Item>, tags: Tags) {
    forall i :: 0 <= i < |plan| ==> Lookup(tags, plan[i].alias) == Is(plan[i].expected)
  }

  /** Every alias is as it was. */
  ghost predicate AliasesKept(plan: seq<Item>, now: Tags, was: Tags) {
    forall i :: 0 <= i < |plan| ==> Lookup(now, plan[i].alias) == Lookup(was, plan[i].alias)
  }

  /** No version tag that existed points anywhere else. */
  ghost predicate VersionsKept(plan: seq<Item>, now: Tags, was: Tags) {
    forall i :: 0 <= i < |plan| && plan[i].stable in was ==> Lookup(now, plan[i].stable) == Lookup(was, plan[i].stable)
  }

  /** Every version tag that exists is right. */
  ghost predicate ExistingAreRight(plan: seq<Item>, tags: Tags) {
    forall i :: 0 <= i < |plan| && plan[i].stable in tags ==> tags[plan[i].stable] == plan[i].expected
  }

  ghost predicate IsAlias(plan: seq<Item>, r: Ref) { exists i :: 0 <= i < |plan| && plan[i].alias == r }

  /** Only the plan's tags differ. */
  ghost predicate OthersKept(plan: seq<Item>, now: Tags, was: Tags) {
    forall r :: (forall i :: 0 <= i < |plan| ==> r != plan[i].stable && r != plan[i].alias) ==>
        Lookup(now, r) == Lookup(was, r)
  }

  /** Every alias write came after the whole version set was in place, and it still was. */
  ghost predicate AliasesLast(plan: seq<Item>, writes: seq<Write>) {
    forall k :: 0 <= k < |writes| && IsAlias(plan, writes[k].ref) ==> AllStable(plan, writes[k].before)
  }

  // -------------------------------------------------------------- the preflight

  function Note(f: Found): Maybe { if f.Got? then Is(f.digest) else Absent }

  ghost predicate SourcePasses(it: Item, tags: Tags, source: Reply, canary: Reply) {
    source.Fine? && Answer(canary, tags, it.canary, false) == Got(it.expected)
  }

  ghost predicate StablePasses(it: Item, tags: Tags, reply: Reply) {
    var f := Answer(reply, tags, it.stable, true);
    f.Missing? || f == Got(it.expected)
  }

  ghost predicate AliasPasses(it: Item, tags: Tags, reply: Reply) { !Answer(reply, tags, it.alias, true).Error? }

  ghost predicate SourcesPass(plan: seq<Item>, tags: Tags, script: Script, n: nat) {
    var m := |plan| - 1;
    || plan == []
    || (SourcesPass(plan[..m], tags, script, n)
        && SourcePasses(plan[m], tags, script(n + 2 * m), script(n + 2 * m + 1)))
  }

  ghost predicate StablesPass(plan: seq<Item>, tags: Tags, script: Script, n: nat) {
    var m := |plan| - 1;
    plan == [] || (StablesPass(plan[..m], tags, script, n) && StablePasses(plan[m], tags, script(n + m)))
  }

  ghost predicate AliasesPass(plan: seq<Item>, tags: Tags, script: Script, n: nat) {
    var m := |plan| - 1;
    plan == [] || (AliasesPass(plan[..m], tags, script, n) && AliasPasses(plan[m], tags, script(n + m)))
  }

  /** What the preflight writes down, answer by answer. */
  function StableNotes(plan: seq<Item>, tags: Tags, script: Script, n: nat): (ns: seq<Maybe>)
    ensures |ns| == |plan|
  {
    var m := |plan| - 1;
    if plan == [] then []
    else StableNotes(plan[..m], tags, script, n) + [Note(Answer(script(n + m), tags, plan[m].stable, true))]
  }

  function AliasNotes(plan: seq<Item>, tags: Tags, script: Script, n: nat): (ns: seq<Maybe>)
    ensures |ns| == |plan|
  {
    var m := |plan| - 1;
    if plan == [] then []
    else AliasNotes(plan[..m], tags, script, n) + [Note(Answer(script(n + m), tags, plan[m].alias, true))]
  }

  lemma {:induction false} StableAt(plan: seq<Item>, tags: Tags, script: Script, n: nat, i: nat)
    requires i < |plan|
    ensures StableNotes(plan, tags, script, n)[i] == Note(Answer(script(n + i), tags, plan[i].stable, true))
    ensures StablesPass(plan, tags, script, n) ==> StablePasses(plan[i], tags, script(n + i))
  {
    if i < |plan| - 1 { StableAt(plan[..|plan| - 1], tags, script, n, i); }
  }

  lemma {:induction false} AliasAt(plan: seq<Item>, tags: Tags, script: Script, n: nat, i: nat)
    requires i < |plan|
    ensures AliasNotes(plan, tags, script, n)[i] == Note(Answer(script(n + i), tags, plan[i].alias, true))
    ensures AliasesPass(plan, tags, script, n) ==> AliasPasses(plan[i], tags, script(n + i))
  {
    if i < |plan| - 1 { AliasAt(plan[..|plan| - 1], tags, script, n, i); }
  }

  /** Every answer the preflight gets is acceptable. */
  ghost predicate PreflightPasses(plan: seq<Item>, tags: Tags, script: Script, n: nat) {
    && SourcesPass(plan, tags, script, n)
    && StablesPass(plan, tags, script, n + 2 * |plan|)
    && AliasesPass(plan, tags, script, n + 3 * |plan|)
  }

  /** No answer about an existing version tag, or alias, reads like a missing one. */
  ghost predicate TruthfulVersions(plan: seq<Item>, tags: Tags, script: Script, n: nat) {
    forall i :: 0 <= i < |plan| && plan[i].stable in tags ==> !ReadsMissing(script(n + 2 * |plan| + i))
  }

  ghost predicate TruthfulAliases(plan: seq<Item>, tags: Tags, script: Script, n: nat) {
    forall i :: 0 <= i < |plan| && plan[i].alias in tags ==> !ReadsMissing(script(n + 3 * |plan| + i))
  }

  ghost predicate AbsentOrRight(plan: seq<Item>, noted: seq<Maybe>) {
    |noted| == |plan| && forall i :: 0 <= i < |plan| ==> noted[i] == Absent || noted[i] == Is(plan[i].expected)
  }

  /** What is noted is what is there. */
  ghost predicate StablesAs(plan: seq<Item>, noted: seq<Maybe>, tags: Tags) {
    |noted| == |plan| && forall i :: 0 <= i < |plan| ==> noted[i] == Lookup(tags, plan[i].stable)
  }

  ghost predicate AliasesAs(plan: seq<Item>, noted: seq<Maybe>, tags: Tags) {
    |noted| == |plan| && forall i :: 0 <= i < |plan| ==> noted[i] == Lookup(tags, plan[i].alias)
  }

  /** What is noted as present is there. */
  ghost predicate StablesRight(plan: seq<Item>, noted: seq<Maybe>, tags: Tags) {
    |noted| == |plan| && forall i :: 0 <= i < |plan| && noted[i].Is? ==> noted[i] == Lookup(tags, plan[i].stable)
  }

  ghost predicate AliasesRight(plan: seq<Item>, noted: seq<Maybe>, tags: Tags) {
    |noted| == |plan| && forall i :: 0 <= i < |plan| && noted[i].Is? ==> noted[i] == Lookup(tags, plan[i].alias)
  }

  /** What passing notes say: nothing that is not there, and all that is there exactly when
      no answer about an existing tag read like a missing one. */
  ghost predicate NotesTell(
    plan: seq<Item>, stables: seq<Maybe>, aliases: seq<Maybe>, tags: Tags, script: Script, n: nat)
  {
    && AbsentOrRight(plan, stables) && StablesRight(plan, stables, tags) && AliasesRight(plan, aliases, tags)
    && (TruthfulVersions(plan, tags, script, n) <==> StablesAs(plan, stables, tags))
    && (TruthfulAliases(plan, tags, script, n) <==> AliasesAs(plan, aliases, tags))
  }

  lemma StableNotesTell(plan: seq<Item>, tags: Tags, script: Script, n: nat)
    requires StablesPass(plan, tags, script, n + 2 * |plan|)
    ensures var ns := StableNotes(plan, tags, script, n + 2 * |plan|);
            && AbsentOrRight(plan, ns) && StablesRight(plan, ns, tags)
            && (TruthfulVersions(plan, tags, script, n) <==> StablesAs(plan, ns, tags))
  {
    var ns := StableNotes(plan, tags, script, n + 2 * |plan|);
    forall i | 0 <= i < |plan|
      ensures ns[i] == Absent || (ns[i] == Is(plan[i].expected) && ns[i] == Lookup(tags, plan[i].stable))
      ensures ns[i] == Lookup(tags, plan[i].stable) <==>
                !(plan[i].stable in tags && ReadsMissing(script(n + 2 * |plan| + i)))
    {
      StableAt(plan, tags, script, n + 2 * |plan|, i);
    }
  }

  lemma AliasNotesTell(plan: seq<Item>, tags: Tags, script: Script, n: nat)
    requires AliasesPass(plan, tags, script, n + 3 * |plan|)
    ensures var ns := AliasNotes(plan, tags, script, n + 3 * |plan|);
            AliasesRight(plan, ns, tags) && (TruthfulAliases(plan, tags, script, n) <==> AliasesAs(plan, ns, tags))
  {
    var ns := AliasNotes(plan, tags, script, n + 3 * |plan|);
    forall i | 0 <= i < |plan|
      ensures ns[i].Is? ==> ns[i] == Lookup(tags, plan[i].alias)
      ensures ns[i] == Lookup(tags, plan[i].alias) <==>
                !(plan[i].alias in tags && ReadsMissing(script(n + 3 * |plan| + i)))
    {
      AliasAt(plan, tags, script, n + 3 * |plan|, i);
    }
  }

  lemma PassingNotesTell(plan: seq<Item>, tags: Tags, script: Script, n: nat)
    requires PreflightPasses(plan, tags, script, n)
    ensures var stables := StableNotes(plan, tags, script, n + 2 * |plan|);
            NotesTell(plan, stables, AliasNotes(plan, tags, script, n + 3 * |plan|), tags, script, n)
  {
    StableNotesTell(plan, tags, script, n);
    AliasNotesTell(plan, tags, script, n);
  }
}
