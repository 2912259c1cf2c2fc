/** The create-request decoder of the socket proxy (internal/proxy/validate.go). Section 4 of
    RFC 8259 leaves the meaning of duplicate names open; this decoder accepts only bodies on
    which first-wins, last-wins, exact and case-folding readers all agree. */
module CreateDecoder {

  datatype Token =
    | OpenObject
    | CloseObject
    | OpenArray
    | CloseArray
    | Text(s: string)
    | Number(n: string)
    | Flag(b: bool)
    | Null
  {
    predicate Delimiter() { OpenObject? || CloseObject? || OpenArray? || CloseArray? }
    predicate Closes() { CloseObject? || CloseArray? }
  }

  /** A JSON document as written: members in order, duplicates included. */
  datatype Json = Leaf(token: Token) | Array(items: seq<Json>) | Object(members: seq<Member>)

  datatype Member = Member(key: string, value: Json)

  /** Each rune goes to the least of the runes it folds to; `fold` is that table. */
  type Fold = char -> char

  function FoldName(fold: Fold, s: string): string { seq(|s|, i requires 0 <= i < |s| => fold(s[i])) }

  // ------------------------------------------------------------ what is accepted

  predicate FoldUnique(fold: Fold, ms: seq<Member>) {
    forall i, j :: 0 <= i < j < |ms| ==> FoldName(fold, ms[i].key) != FoldName(fold, ms[j].key)
  }

  const MAX_DEPTH: nat := 64

  /** A value standing at this depth is well formed, nests no deeper than the limit, and has
      no two keys of one object equal under folding. */
  predicate Unambiguous(fold: Fold, d: Json, depth: nat) {
    && depth <= MAX_DEPTH
    && match d
       case Leaf(t) => !t.Delimiter()
       case Array(items) => forall i :: 0 <= i < |items| ==> Unambiguous(fold, items[i], depth + 1)
       case Object(ms) =>
         FoldUnique(fold, ms) && forall i :: 0 <= i < |ms| ==> Unambiguous(fold, ms[i].value, depth + 1)
  }

  /** A path of child positions leads to a value of the document. */
  predicate HasPath(d: Json, path: seq<nat>)
    decreases |path|
  {
    path == [] ||
    match d
    case Leaf(_) => false
    case Array(items) => path[0] < |items| && HasPath(items[path[0]], path[1..])
    case Object(ms) => path[0] < |ms| && HasPath(ms[path[0]].value, path[1..])
  }

  lemma {:induction false} NestingIsBounded(fold: Fold, d: Json, depth: nat, path: seq<nat>)
    requires Unambiguous(fold, d, depth) && HasPath(d, path)
    ensures depth + |path| <= 64
    decreases |path|
  {
    if path != [] {
      match d
      case Array(items) => NestingIsBounded(fold, items[path[0]], depth + 1, path[1..]);
      case Object(ms) => NestingIsBounded(fold, ms[path[0]].value, depth + 1, path[1..]);
    }
  }

  /** At every level: leaves are no delimiters, and no two keys of an object fold alike. */
  predicate UniqueThroughout(fold: Fold, d: Json) {
    match d
    case Leaf(t) => !t.Delimiter()
    case Array(items) => forall i :: 0 <= i < |items| ==> UniqueThroughout(fold, items[i])
    case Object(ms) => FoldUnique(fold, ms) && forall i :: 0 <= i < |ms| ==> UniqueThroughout(fold, ms[i].value)
  }

  /** No value lies deeper than this. */
  ghost predicate Shallow(d: Json, most: int) { forall path :: HasPath(d, path) ==> |path| <= most }

  lemma ChildIsShallow(d: Json, child: Json, k: nat, most: int)
    requires Shallow(d, most) && ChildAt(d, child, k)
    ensures Shallow(child, most - 1)
  {
    forall path | HasPath(child, path) ensures |path| <= most - 1 {
      assert ([k] + path)[1..] == path;
      assert HasPath(d, [k] + path);
    }
  }

  /** Exactly the documents with unique keys throughout and at most 64 levels of nesting are
      unambiguous. */
  lemma {:induction false} UnambiguousExactly(fold: Fold, d: Json, depth: nat)
    ensures Unambiguous(fold, d, depth) <==> UniqueThroughout(fold, d) && Shallow(d, 64 - depth)
  {
    if Unambiguous(fold, d, depth) {
      UniqueIfUnambiguous(fold, d, depth);
      forall path | HasPath(d, path) ensures |path| <= 64 - depth { NestingIsBounded(fold, d, depth, path); }
    }
    if UniqueThroughout(fold, d) && Shallow(d, 64 - depth) { UnambiguousIfShallow(fold, d, depth); }
  }

  lemma {:induction false} UniqueIfUnambiguous(fold: Fold, d: Json, depth: nat)
    requires Unambiguous(fold, d, depth)
    ensures UniqueThroughout(fold, d)
  {
    match d
    case Leaf(_) =>
    case Array(items) =>
      forall i | 0 <= i < |items| ensures UniqueThroughout(fold, items[i]) {
        UniqueIfUnambiguous(fold, items[i], depth + 1);
      }
    case Object(ms) =>
      forall i | 0 <= i < |ms| ensures UniqueThroughout(fold, ms[i].value) {
        UniqueIfUnambiguous(fold, ms[i].value, depth + 1);
      }
  }

  lemma ShallowHere(d: Json, most: int)
    requires Shallow(d, most)
    ensures 0 <= most
  {
    assert HasPath(d, []);
  }

  predicate ChildAt(d: Json, child: Json, k: nat) {
    || (d.Array? && k < |d.items| && child == d.items[k])
    || (d.Object? && k < |d.members| && child == d.members[k].value)
  }

  lemma {:induction false} UnambiguousIfShallow(fold: Fold, d: Json, depth: nat)
    requires UniqueThroughout(fold, d) && Shallow(d, 64 - depth)
    ensures Unambiguous(fold, d, depth)
    decreases d, 1
  {
    ShallowHere(d, 64 - depth);
    match d
    case Leaf(_) =>
    case Array(items) =>
      forall i | 0 <= i < |items| ensures Unambiguous(fold, items[i], depth + 1) {
        UnambiguousChild(fold, d, items[i], i, depth);
      }
    case Object(ms) =>
      forall i | 0 <= i < |ms| ensures Unambiguous(fold, ms[i].value, depth + 1) {
        UnambiguousChild(fold, d, ms[i].value, i, depth);
      }
  }

  lemma {:induction false} UnambiguousChild(fold: Fold, d: Json, child: Json, k: nat, depth: nat)
    requires UniqueThroughout(fold, child) && ChildAt(d, child, k) && Shallow(d, 64 - depth)
    ensures Unambiguous(fold, child, depth + 1)
    decreases d, 0
  {
    ChildIsShallow(d, child, k, 64 - depth);
    UnambiguousIfShallow(fold, child, depth + 1);
  }

  // ------------------------------------------------------------------ the grammar

  function Render(d: Json): seq<Token> {
    match d
    case Leaf(t) => [t]
    case Array(items) => [OpenArray] + RenderItems(items) + [CloseArray]
    case Object(ms) => [OpenObject] + RenderMembers(ms) + [CloseObject]
  }

  function RenderItems(items: seq<Json>): seq<Token> {
    if items == [] then [] else Render(items[0]) + RenderItems(items[1..])
  }

  function RenderMembers(ms: seq<Member>): seq<Token> {
    if ms == [] then [] else [Text(ms[0].key)] + Render(ms[0].value) + RenderMembers(ms[1..])
  }

  /** Arrays and objects are written in order. */
  lemma {:induction false} ItemsInOrder(a: seq<Json>, b: seq<Json>)
    ensures RenderItems(a + b) == RenderItems(a) + RenderItems(b)
  {
    if a == [] { assert a + b == b; }
    else { assert (a + b)[1..] == a[1..] + b; ItemsInOrder(a[1..], b); }
  }

  lemma {:induction false} MembersInOrder(a: seq<Member>, b: seq<Member>)
    ensures RenderMembers(a + b) == RenderMembers(a) + RenderMembers(b)
  {
    if a == [] { assert a + b == b; }
    else { assert (a + b)[1..] == a[1..] + b; MembersInOrder(a[1..], b); }
  }

  datatype Parsed = Fail | Ok(doc: Json, rest: seq<Token>)

  /** `uniqueJSONValue` as a function of the tokens still to come. */
  function ParseValue(fold: Fold, ts: seq<Token>, depth: nat): (r: Parsed)
    ensures r.Ok? ==> |r.rest| < |ts|
    decreases |ts|, 0
  {
    if depth > MAX_DEPTH || ts == [] then Fail
    else match ts[0]
      case OpenObject => ParseMembers(fold, ts[1..], depth, [], {})
      case OpenArray => ParseItems(fold, ts[1..], depth, [])
      case t => if t.Delimiter() then Fail else Ok(Leaf(t), ts[1..])
  }

  function ParseMembers(fold: Fold, ts: seq<Token>, depth: nat, acc: seq<Member>, seen: set<string>): (r: Parsed)
    ensures r.Ok? ==> |r.rest| < |ts|
    decreases |ts|, 1
  {
    if ts == [] then Fail
    else if ts[0].Closes() then (if ts[0].CloseObject? then Ok(Object(acc), ts[1..]) else Fail)
    else if !ts[0].Text? || FoldName(fold, ts[0].s) in seen then Fail
    else match ParseValue(fold, ts[1..], depth + 1)
      case Fail => Fail
      case Ok(v, rest) => ParseMembers(fold, rest, depth, acc + [Member(ts[0].s, v)], seen + {FoldName(fold, ts[0].s)})
  }

  function ParseItems(fold: Fold, ts: seq<Token>, depth: nat, acc: seq<Json>): (r: Parsed)
    ensures r.Ok? ==> |r.rest| < |ts|
    decreases |ts|, 1
  {
    if ts == [] then Fail
    else if ts[0].Closes() then (if ts[0].CloseArray? then Ok(Array(acc), ts[1..]) else Fail)
    else match ParseValue(fold, ts, depth + 1)
      case Fail => Fail
      case Ok(v, rest) => ParseItems(fold, rest, depth, acc + [v])
  }

  ghost predicate Folds(fold: Fold, ms: seq<Member>, seen: set<string>) {
    && (forall i :: 0 <= i < |ms| ==> FoldName(fold, ms[i].key) in seen)
    && (forall f :: f in seen ==> exists i :: 0 <= i < |ms| && FoldName(fold, ms[i].key) == f)
  }

  ghost predicate GoodMembers(fold: Fold, ms: seq<Member>, depth: nat) {
    FoldUnique(fold, ms) && forall i :: 0 <= i < |ms| ==> Unambiguous(fold, ms[i].value, depth)
  }

  ghost predicate GoodItems(fold: Fold, items: seq<Json>, depth: nat) {
    forall i :: 0 <= i < |items| ==> Unambiguous(fold, items[i], depth)
  }

  lemma FoldsMore(fold: Fold, ms: seq<Member>, seen: set<string>, m: Member)
    requires Folds(fold, ms, seen)
    ensures Folds(fold, ms + [m], seen + {FoldName(fold, m.key)})
    ensures FoldUnique(fold, ms) && FoldName(fold, m.key) !in seen ==> FoldUnique(fold, ms + [m])
    ensures FoldUnique(fold, ms + [m]) ==> FoldName(fold, m.key) !in seen
  {
    var more := ms + [m];
    forall f | f in seen + {FoldName(fold, m.key)}
      ensures exists i :: 0 <= i < |more| && FoldName(fold, more[i].key) == f
    {
      if f in seen {
        var i :| 0 <= i < |ms| && FoldName(fold, ms[i].key) == f;
        assert more[i] == ms[i];
      } else {
        assert more[|ms|] == m;
      }
    }
    assert more[|ms|] == m && forall i :: 0 <= i < |ms| ==> more[i] == ms[i];
    if FoldName(fold, m.key) in seen {
      var i :| 0 <= i < |ms| && FoldName(fold, ms[i].key) == FoldName(fold, m.key);
      assert FoldName(fold, more[i].key) == FoldName(fold, more[|ms|].key);
    }
  }

  /** What the parser accepts is the rendering of an unambiguous document. */
  lemma {:induction false} ValueSound(fold: Fold, ts: seq<Token>, depth: nat)
    requires ParseValue(fold, ts, depth).Ok?
    ensures var r := ParseValue(fold, ts, depth); ts == Render(r.doc) + r.rest && Unambiguous(fold, r.doc, depth)
    decreases |ts|, 0
  {
    var r := ParseValue(fold, ts, depth);
    match ts[0] {
      case OpenObject => MembersSound(fold, ts[1..], depth, [], {}); ObjectRendered(ts, r);
      case OpenArray => ItemsSound(fold, ts[1..], depth, []); ArrayRendered(ts, r);
      case _ =>
    }
  }

  lemma ObjectRendered(ts: seq<Token>, r: Parsed)
    requires ts != [] && ts[0].OpenObject? && r.Ok? && r.doc.Object?
    requires ts[1..] == RenderMembers(r.doc.members[0..]) + [CloseObject] + r.rest
    ensures ts == Render(r.doc) + r.rest
  {
    assert r.doc.members[0..] == r.doc.members;
    assert ts == [OpenObject] + ts[1..];
  }

  lemma ArrayRendered(ts: seq<Token>, r: Parsed)
    requires ts != [] && ts[0].OpenArray? && r.Ok? && r.doc.Array?
    requires ts[1..] == RenderItems(r.doc.items[0..]) + [CloseArray] + r.rest
    ensures ts == Render(r.doc) + r.rest
  {
    assert r.doc.items[0..] == r.doc.items;
    assert ts == [OpenArray] + ts[1..];
  }

  /** The tokens are the members from `acc` on, the end of the object, and the rest. */
  ghost predicate MembersRead(fold: Fold, ts: seq<Token>, depth: nat, acc: seq<Member>, r: Parsed) {
    && r.Ok? && r.doc.Object? && GoodMembers(fold, r.doc.members, depth + 1) && acc <= r.doc.members
    && ts == RenderMembers(r.doc.members[|acc|..]) + [CloseObject] + r.rest
  }

  lemma {:induction false} MembersSound(fold: Fold, ts: seq<Token>, depth: nat, acc: seq<Member>, seen: set<string>)
    requires depth <= MAX_DEPTH && Folds(fold, acc, seen) && GoodMembers(fold, acc, depth + 1)
    requires ParseMembers(fold, ts, depth, acc, seen).Ok?
    ensures MembersRead(fold, ts, depth, acc, ParseMembers(fold, ts, depth, acc, seen))
    decreases |ts|, 1
  {
    if !ts[0].Closes() {
      var v := ParseValue(fold, ts[1..], depth + 1);
      ValueSound(fold, ts[1..], depth + 1);
      var m := Member(ts[0].s, v.doc);
      FoldsMore(fold, acc, seen, m);
      MembersSound(fold, v.rest, depth, acc + [m], seen + {FoldName(fold, m.key)});
      MembersStep(fold, ts, depth, ParseMembers(fold, ts, depth, acc, seen), v, acc, m);
    }
  }

  lemma MembersStep(fold: Fold, ts: seq<Token>, depth: nat, r: Parsed, v: Parsed, acc: seq<Member>, m: Member)
    requires v.Ok? && MembersRead(fold, v.rest, depth, acc + [m], r)
    requires ts != [] && ts[0] == Text(m.key) && ts[1..] == Render(m.value) + v.rest
    ensures MembersRead(fold, ts, depth, acc, r)
  {
    var tail := r.doc.members[|acc|..];
    assert tail[0] == (acc + [m])[|acc|] && tail[1..] == r.doc.members[|acc| + 1..];
  }

  lemma {:induction false} ItemsSound(fold: Fold, ts: seq<Token>, depth: nat, acc: seq<Json>)
    requires depth <= MAX_DEPTH && GoodItems(fold, acc, depth + 1)
    requires ParseItems(fold, ts, depth, acc).Ok?
    ensures var r := ParseItems(fold, ts, depth, acc);
            && r.doc.Array? && GoodItems(fold, r.doc.items, depth + 1) && acc <= r.doc.items
            && ts == RenderItems(r.doc.items[|acc|..]) + [CloseArray] + r.rest
    decreases |ts|, 1
  {
    if !ts[0].Closes() {
      var v := ParseValue(fold, ts, depth + 1);
      ValueSound(fold, ts, depth + 1);
      ItemsSound(fold, v.rest, depth, acc + [v.doc]);
      var r := ParseItems(fold, ts, depth, acc);
      var tail := r.doc.items[|acc|..];
      assert tail[0] == (acc + [v.doc])[|acc|] && tail[1..] == r.doc.items[|acc| + 1..];
    }
  }

  lemma RenderStarts(d: Json)
    requires d.Leaf? ==> !d.token.Delimiter()
    ensures Render(d) != [] && !Render(d)[0].Closes()
  {
  }

  /** Every unambiguous document is accepted, and read back as it was written. */
  lemma {:induction false} ValueComplete(fold: Fold, d: Json, depth: nat, rest: seq<Token>)
    requires Unambiguous(fold, d, depth)
    ensures ParseValue(fold, Render(d) + rest, depth) == Ok(d, rest)
    decreases d, 0
  {
    var ts := Render(d) + rest;
    match d
    case Leaf(t) => assert ts[1..] == rest;
    case Object(ms) =>
      assert ts[1..] == RenderMembers(ms) + [CloseObject] + rest;
      MembersComplete(fold, d, 0, depth, {}, rest);
      assert ms[0..] == ms && ms[..0] == [];
    case Array(items) =>
      assert ts[1..] == RenderItems(items) + [CloseArray] + rest;
      ItemsComplete(fold, d, 0, depth, rest);
      assert items[0..] == items && items[..0] == [];
  }

  lemma {:induction false} MembersComplete(fold: Fold, d: Json, k: nat, depth: nat, seen: set<string>, rest: seq<Token>)
    requires d.Object? && k <= |d.members| && Unambiguous(fold, d, depth) && Folds(fold, d.members[..k], seen)
    ensures var ts := RenderMembers(d.members[k..]) + [CloseObject] + rest;
            ParseMembers(fold, ts, depth, d.members[..k], seen) == Ok(d, rest)
    decreases d, 0, |d.members| - k
  {
    var ms := d.members;
    var ts := RenderMembers(ms[k..]) + [CloseObject] + rest;
    if k == |ms| {
      assert ms[..k] == ms && ts == [CloseObject] + rest;
    } else {
      var after := RenderMembers(ms[k + 1..]) + [CloseObject] + rest;
      assert ms[k..][0] == ms[k] && ms[k..][1..] == ms[k + 1..];
      assert ts[0] == Text(ms[k].key) && ts[1..] == Render(ms[k].value) + after;
      ValueComplete(fold, ms[k].value, depth + 1, after);
      assert ms[..k + 1] == ms[..k] + [ms[k]];
      FoldsMore(fold, ms[..k], seen, ms[k]);
      MembersComplete(fold, d, k + 1, depth, seen + {FoldName(fold, ms[k].key)}, rest);
    }
  }

  lemma {:induction false} ItemsComplete(fold: Fold, d: Json, k: nat, depth: nat, rest: seq<Token>)
    requires d.Array? && k <= |d.items| && Unambiguous(fold, d, depth)
    ensures ParseItems(fold, RenderItems(d.items[k..]) + [CloseArray] + rest, depth, d.items[..k]) == Ok(d, rest)
    decreases d, 0, |d.items| - k
  {
    var items := d.items;
    var ts := RenderItems(items[k..]) + [CloseArray] + rest;
    if k == |items| {
      assert items[..k] == items && ts == [CloseArray] + rest;
    } else {
      var after := RenderItems(items[k + 1..]) + [CloseArray] + rest;
      assert items[k..][0] == items[k] && items[k..][1..] == items[k + 1..];
      assert ts == Render(items[k]) + after;
      RenderStarts(items[k]);
      ValueComplete(fold, items[k], depth + 1, after);
      assert items[..k + 1] == items[..k] + [items[k]];
      ItemsComplete(fold, d, k + 1, depth, rest);
    }
  }
}
