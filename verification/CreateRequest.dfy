/** `decodeCreate` (internal/proxy/validate.go): the token reader that refuses ambiguity, the
    exact field check and the typed reading, in order. */
module CreateRequest {
  import opened CreateDecoder
  import opened CreateSchema
  import opened CreateMeaning

  /** The body is one unambiguous document that means this value. */
  ghost predicate Says(fold: Fold, ts: seq<Token>, d: Json, s: Schema, v: Typed) {
    ts == Render(d) && Unambiguous(fold, d, 0) && Means(d, s, v)
  }

  datatype Decoded = Refused | Accepted(value: Typed)

  /** json.Decoder over a body: the tokens not yet returned. A key that is not a string and a
      delimiter that does not match are the tokenizer's own errors. */
  class Tokens {
    var rest: seq<Token>

    constructor (ts: seq<Token>)
      ensures rest == ts
    {
      rest := ts;
    }

    method Next() returns (ok: bool, t: Token)
      modifies this
      ensures ok == (old(rest) != [])
      ensures if ok then t == old(rest)[0] && rest == old(rest)[1..] else rest == old(rest)
    {
      if rest == [] { return false, Null; }
      ok, t, rest := true, rest[0], rest[1..];
    }

    predicate More() reads this { rest != [] && !rest[0].Closes() }
  }

  /** `uniqueJSONValue` */
  method UniqueValue(dec: Tokens, fold: Fold, depth: nat) returns (r: Parsed)
    modifies dec
    ensures r == ParseValue(fold, old(dec.rest), depth)
    ensures r.Ok? ==> dec.rest == r.rest
    decreases |dec.rest|, 0
  {
    if depth > MAX_DEPTH { return Fail; }
    var ok, token := dec.Next();
    if !ok { return Fail; }
    match token {
      case OpenObject => r := UniqueMembers(dec, fold, depth);
      case OpenArray => r := UniqueItems(dec, fold, depth);
      case CloseObject => r := Fail;
      case CloseArray => r := Fail;
      case _ => r := Ok(Leaf(token), dec.rest);
    }
  }

  method UniqueMembers(dec: Tokens, fold: Fold, depth: nat) returns (r: Parsed)
    modifies dec
    ensures r == ParseMembers(fold, old(dec.rest), depth, [], {})
    ensures r.Ok? ==> dec.rest == r.rest
    decreases |dec.rest|, 1
  {
    var members: seq<Member> := [];
    var seen: set<string> := {};
    while dec.More()
      invariant |dec.rest| <= |old(dec.rest)|
      invariant ParseMembers(fold, dec.rest, depth, members, seen) == ParseMembers(fold, old(dec.rest), depth, [], {})
      decreases |dec.rest|
    {
      var _, key := dec.Next();
      if !key.Text? || FoldName(fold, key.s) in seen { return Fail; }
      seen := seen + {FoldName(fold, key.s)};
      var value := UniqueValue(dec, fold, depth + 1);
      if value.Fail? { return Fail; }
      members := members + [Member(key.s, value.doc)];
    }
    var ok, close := dec.Next();
    if !ok || !close.CloseObject? { return Fail; }
    r := Ok(Object(members), dec.rest);
  }

  method UniqueItems(dec: Tokens, fold: Fold, depth: nat) returns (r: Parsed)
    modifies dec
    ensures r == ParseItems(fold, old(dec.rest), depth, [])
    ensures r.Ok? ==> dec.rest == r.rest
    decreases |dec.rest|, 1
  {
    var list: seq<Json> := [];
    while dec.More()
      invariant |dec.rest| <= |old(dec.rest)|
      invariant ParseItems(fold, dec.rest, depth, list) == ParseItems(fold, old(dec.rest), depth, [])
      decreases |dec.rest|
    {
      var value := UniqueValue(dec, fold, depth + 1);
      if value.Fail? { return Fail; }
      list := list + [value.doc];
    }
    var ok, close := dec.Next();
    if !ok || !close.CloseArray? { return Fail; }
    r := Ok(Array(list), dec.rest);
  }

  /** `decodeCreate`: it accepts exactly the bodies that say something under the schema, returns
      what they say, and every reader gets the same. */
  method DecodeCreate(ts: seq<Token>, fold: Fold, s: Schema) returns (r: Decoded, ghost doc: Json)
    requires Sound(fold, s)
    ensures r.Accepted? ==> Says(fold, ts, doc, s, r.value)
    ensures r.Accepted? ==> forall p :: Read(fold, p, doc, s) == r.value
    ensures r.Refused? ==> forall d, v :: !Says(fold, ts, d, s, v)
  {
    var dec := new Tokens(ts);
    var parsed := UniqueValue(dec, fold, 0);
    OnlyDocument(fold, ts, s);
    doc := Leaf(Null);
    if parsed.Fail? || parsed.rest != [] { return Refused, doc; }
    doc := parsed.doc;
    if !Exactly(parsed.doc, s) { return Refused, doc; }
    var value := Read(fold, UNMARSHAL, parsed.doc, s);
    if !WellTyped(value) { return Refused, doc; }
    ValueSound(fold, ts, 0);
    ReadIsMeaning(fold, UNMARSHAL, doc, s, 0);
    forall p ensures Read(fold, p, doc, s) == value { ReadersAgree(fold, p, UNMARSHAL, doc, s, 0); }
    r := Accepted(value);
  }

  /** A body says at most one thing: what the parser and every reader make of it. */
  lemma OnlyDocument(fold: Fold, ts: seq<Token>, s: Schema)
    requires Sound(fold, s)
    ensures forall d, v :: Says(fold, ts, d, s, v) ==>
              && ParseValue(fold, ts, 0) == Ok(d, []) && Exactly(d, s)
              && Read(fold, UNMARSHAL, d, s) == v && WellTyped(v)
  {
    forall d, v | Says(fold, ts, d, s, v)
      ensures ParseValue(fold, ts, 0) == Ok(d, []) && Exactly(d, s) && Read(fold, UNMARSHAL, d, s) == v && WellTyped(v)
    {
      ValueComplete(fold, d, 0, []);
      assert Render(d) + [] == ts;
      MeaningIsRead(fold, UNMARSHAL, d, s, v, 0);
    }
  }
}
