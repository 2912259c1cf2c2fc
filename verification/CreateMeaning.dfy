/** What a typed create request says about its document, apart from any reader
    (internal/proxy/validate.go): the relation between the two, its agreement with every
    reader, and what stands at every path. */
module CreateMeaning {
  import opened CreateDecoder
  import opened CreateSchema

  /** JSON null leaves a value at zero. */
  predicate Unset(d: Json, v: Typed) { d == Leaf(Null) && v == Zero }

  /** The typed value is what the document says under the schema: scalars are their tokens,
      lists keep their order, tables have exactly the document's keys, a record has every
      member at the field it is spelled like and nothing else, and raw parts are verbatim. */
  ghost predicate Means(d: Json, s: Schema, v: Typed)
    decreases d, s
  {
    match s
    case RawOf => v == Verbatim(d)
    case PointerTo(t) => if d == Leaf(Null) then v == Zero else Means(d, t, v)
    case StringOf => Unset(d, v) || (d.Leaf? && d.token.Text? && v == Scalar(d.token))
    case BoolOf => Unset(d, v) || (d.Leaf? && d.token.Flag? && v == Scalar(d.token))
    case IntOf => Unset(d, v) || (d.Leaf? && d.token.Number? && v == Scalar(d.token))
    case ListOf(t) => Unset(d, v) || MeansList(d, t, v)
    case MapOf(t) => Unset(d, v) || MeansTable(d, t, v)
    case Record(fs) => MeansRecord(d, fs, v)
  }

  ghost predicate MeansList(d: Json, t: Schema, v: Typed)
    decreases d, t, 0
  {
    && d.Array? && v.Many? && |v.items| == |d.items|
    && forall i :: 0 <= i < |d.items| ==> Means(d.items[i], t, v.items[i])
  }

  ghost predicate MeansTable(d: Json, t: Schema, v: Typed)
    decreases d, t, 0
  {
    && d.Object? && v.Table? && v.entries.Keys == Keys(d.members)
    && forall i :: 0 <= i < |d.members| ==>
         d.members[i].key in v.entries && Means(d.members[i].value, t, v.entries[d.members[i].key])
  }

  predicate IsField(key: string, fs: seq<Field>) { exists j :: 0 <= j < |fs| && fs[j].name == key }

  ghost predicate MeansRecord(d: Json, fs: seq<Field>, v: Typed)
    decreases d, fs, 0
  {
    && d.Object? && v.Struct? && |v.values| == |fs|
    && (forall i :: 0 <= i < |d.members| ==> IsField(d.members[i].key, fs))
    && (forall i, j :: 0 <= i < |d.members| && 0 <= j < |fs| && fs[j].name == d.members[i].key ==>
          Means(d.members[i].value, fs[j].schema, v.values[j]))
    && (forall j :: 0 <= j < |fs| && fs[j].name !in Keys(d.members) ==> v.values[j] == Zero)
  }

  // ------------------------------------------------------------ readers say what it means

  /** The member a reader picks for a key of the object is the one with that key. */
  lemma PicksExactly(fold: Fold, p: Policy, ms: seq<Member>, i: nat)
    requires FoldUnique(fold, ms) && i < |ms|
    ensures Pick(fold, p, ms, ms[i].key) == At(i)
  {
    var c := Pick(fold, p, ms, ms[i].key);
    assert Hit(fold, p, ms[i].key, ms[i].key);
    assert c.At? && FoldName(fold, ms[c.index].key) == FoldName(fold, ms[i].key);
    assert !(c.index < i) && !(i < c.index);
  }

  /** For a field spelled like no member of an exactly spelled object nothing is picked. */
  lemma PicksNothing(fold: Fold, p: Policy, ms: seq<Member>, fs: seq<Field>, j: nat)
    requires FieldsApart(fold, fs) && j < |fs| && fs[j].name !in Keys(ms)
    requires forall i :: 0 <= i < |ms| ==> IsField(ms[i].key, fs)
    ensures Pick(fold, p, ms, fs[j].name) == Nowhere
  {
    forall i | 0 <= i < |ms| ensures !Hit(fold, p, ms[i].key, fs[j].name) {
      var k :| 0 <= k < |fs| && fs[k].name == ms[i].key;
      assert ms[i].key in Keys(ms);
      SpelledKeyHits(fold, p, fs, ms[i].key, j, k);
    }
  }

  /** A value that means the document is what every reader gets, and the document is then
      exactly spelled and well typed. */
  lemma {:induction false} MeaningIsRead(fold: Fold, p: Policy, d: Json, s: Schema, v: Typed, depth: nat)
    requires Unambiguous(fold, d, depth) && Sound(fold, s) && Means(d, s, v)
    ensures Exactly(d, s) && Read(fold, p, d, s) == v && WellTyped(v)
    decreases d, s, 1
  {
    match s
    case PointerTo(t) => if d != Leaf(Null) { MeaningIsRead(fold, p, d, t, v, depth); }
    case ListOf(t) => if !Unset(d, v) { ListIsRead(fold, p, d, t, v, depth); }
    case MapOf(t) => if !Unset(d, v) { TableIsRead(fold, p, d, t, v, depth); }
    case Record(fs) => RecordIsRead(fold, p, d, fs, v, depth);
    case _ =>
  }

  lemma {:induction false} ListIsRead(fold: Fold, p: Policy, d: Json, t: Schema, v: Typed, depth: nat)
    requires Unambiguous(fold, d, depth) && Sound(fold, t) && MeansList(d, t, v)
    ensures Exactly(d, ListOf(t)) && Read(fold, p, d, ListOf(t)) == v && WellTyped(v)
    decreases d, t, 1
  {
    forall i | 0 <= i < |d.items|
      ensures Exactly(d.items[i], t) && Read(fold, p, d.items[i], t) == v.items[i] && WellTyped(v.items[i])
    {
      MeaningIsRead(fold, p, d.items[i], t, v.items[i], depth + 1);
    }
  }

  lemma {:induction false} EntryIsRead(fold: Fold, p: Policy, d: Json, t: Schema, v: Typed, depth: nat, i: nat)
    requires Unambiguous(fold, d, depth) && Sound(fold, t) && MeansTable(d, t, v) && i < |d.members|
    ensures Exactly(d.members[i].value, t)
    ensures ReadEntry(fold, p, d, d.members[i].key, t) == v.entries[d.members[i].key]
    ensures WellTyped(v.entries[d.members[i].key])
    decreases d, t, 0
  {
    PicksExactly(fold, Policy(true, p.last), d.members, i);
    MeaningIsRead(fold, p, d.members[i].value, t, v.entries[d.members[i].key], depth + 1);
  }

  lemma {:induction false} TableIsRead(fold: Fold, p: Policy, d: Json, t: Schema, v: Typed, depth: nat)
    requires Unambiguous(fold, d, depth) && Sound(fold, t) && MeansTable(d, t, v)
    ensures Exactly(d, MapOf(t)) && Read(fold, p, d, MapOf(t)) == v && WellTyped(v)
    decreases d, t, 1
  {
    forall i | 0 <= i < |d.members| ensures Exactly(d.members[i].value, t) {
      EntryIsRead(fold, p, d, t, v, depth, i);
    }
    forall k | k in Keys(d.members) ensures ReadEntry(fold, p, d, k, t) == v.entries[k] && WellTyped(v.entries[k]) {
      var i :| 0 <= i < |d.members| && d.members[i].key == k;
      EntryIsRead(fold, p, d, t, v, depth, i);
    }
    var read := Read(fold, p, d, MapOf(t));
    assert read.Table? && read.entries == v.entries;
  }

  lemma {:induction false} FieldIsRead(fold: Fold, p: Policy, d: Json, fs: seq<Field>, v: Typed, depth: nat, j: nat)
    requires Unambiguous(fold, d, depth) && Sound(fold, Record(fs)) && MeansRecord(d, fs, v) && j < |fs|
    ensures ReadField(fold, p, d, fs[j]) == v.values[j] && WellTyped(v.values[j])
    decreases d, fs, 0
  {
    if fs[j].name in Keys(d.members) {
      var i :| 0 <= i < |d.members| && d.members[i].key == fs[j].name;
      PicksExactly(fold, p, d.members, i);
      MeaningIsRead(fold, p, d.members[i].value, fs[j].schema, v.values[j], depth + 1);
    } else {
      PicksNothing(fold, p, d.members, fs, j);
    }
  }

  lemma {:induction false} RecordIsRead(fold: Fold, p: Policy, d: Json, fs: seq<Field>, v: Typed, depth: nat)
    requires Unambiguous(fold, d, depth) && Sound(fold, Record(fs)) && MeansRecord(d, fs, v)
    ensures Exactly(d, Record(fs)) && Read(fold, p, d, Record(fs)) == v && WellTyped(v)
    decreases d, fs, 1
  {
    forall j | 0 <= j < |fs| ensures ReadField(fold, p, d, fs[j]) == v.values[j] && WellTyped(v.values[j]) {
      FieldIsRead(fold, p, d, fs, v, depth, j);
    }
    forall i | 0 <= i < |d.members|
      ensures SpelledIn(d.members[i], fs)
    {
      assert IsField(d.members[i].key, fs);
      var j :| 0 <= j < |fs| && fs[j].name == d.members[i].key;
      MeaningIsRead(fold, p, d.members[i].value, fs[j].schema, v.values[j], depth + 1);
    }
    var read := Read(fold, p, d, Record(fs));
    assert read.Struct? && read.values == v.values;
  }

  /** What a reader gets from an exactly spelled, well typed document is what it means. */
  lemma {:induction false} ReadIsMeaning(fold: Fold, p: Policy, d: Json, s: Schema, depth: nat)
    requires Unambiguous(fold, d, depth) && Sound(fold, s) && Exactly(d, s) && WellTyped(Read(fold, p, d, s))
    ensures Means(d, s, Read(fold, p, d, s))
    decreases d, s, 1
  {
    match s
    case PointerTo(t) => if d != Leaf(Null) { ReadIsMeaning(fold, p, d, t, depth); }
    case ListOf(t) => if d.Array? { ReadIsList(fold, p, d, t, depth); }
    case MapOf(t) => if d.Object? { ReadIsTable(fold, p, d, t, depth); }
    case Record(fs) => ReadIsRecord(fold, p, d, fs, depth);
    case _ =>
  }

  lemma {:induction false} ReadIsList(fold: Fold, p: Policy, d: Json, t: Schema, depth: nat)
    requires Unambiguous(fold, d, depth) && Sound(fold, t) && Exactly(d, ListOf(t)) && d.Array?
    requires WellTyped(Read(fold, p, d, ListOf(t)))
    ensures MeansList(d, t, Read(fold, p, d, ListOf(t)))
    decreases d, t, 1
  {
    var v := Read(fold, p, d, ListOf(t));
    forall i | 0 <= i < |d.items| ensures Means(d.items[i], t, v.items[i]) {
      assert v.items[i] == Read(fold, p, d.items[i], t);
      ReadIsMeaning(fold, p, d.items[i], t, depth + 1);
    }
  }

  lemma {:induction false} ReadIsTable(fold: Fold, p: Policy, d: Json, t: Schema, depth: nat)
    requires Unambiguous(fold, d, depth) && Sound(fold, t) && Exactly(d, MapOf(t)) && d.Object?
    requires WellTyped(Read(fold, p, d, MapOf(t)))
    ensures MeansTable(d, t, Read(fold, p, d, MapOf(t)))
    decreases d, t, 1
  {
    var v := Read(fold, p, d, MapOf(t));
    forall i | 0 <= i < |d.members|
      ensures d.members[i].key in v.entries && Means(d.members[i].value, t, v.entries[d.members[i].key])
    {
      var k := d.members[i].key;
      assert k in Keys(d.members);
      PicksExactly(fold, Policy(true, p.last), d.members, i);
      assert v.entries[k] == ReadEntry(fold, p, d, k, t) == Read(fold, p, d.members[i].value, t);
      ReadIsMeaning(fold, p, d.members[i].value, t, depth + 1);
    }
  }

  lemma {:induction false} ReadIsField(fold: Fold, p: Policy, d: Json, fs: seq<Field>, depth: nat, i: nat, j: nat)
    requires Unambiguous(fold, d, depth) && Sound(fold, Record(fs)) && Exactly(d, Record(fs))
    requires i < |d.members| && j < |fs| && fs[j].name == d.members[i].key && WellTyped(ReadField(fold, p, d, fs[j]))
    ensures Means(d.members[i].value, fs[j].schema, ReadField(fold, p, d, fs[j]))
    decreases d, fs, 0
  {
    PicksExactly(fold, p, d.members, i);
    assert SpelledIn(d.members[i], fs);
    var k :| 0 <= k < |fs| && fs[k].name == d.members[i].key && Exactly(d.members[i].value, fs[k].schema);
    SpelledKeyHits(fold, p, fs, d.members[i].key, j, k);
    ReadIsMeaning(fold, p, d.members[i].value, fs[j].schema, depth + 1);
  }

  lemma {:induction false} ReadIsRecord(fold: Fold, p: Policy, d: Json, fs: seq<Field>, depth: nat)
    requires Unambiguous(fold, d, depth) && Sound(fold, Record(fs)) && Exactly(d, Record(fs))
    requires WellTyped(Read(fold, p, d, Record(fs)))
    ensures MeansRecord(d, fs, Read(fold, p, d, Record(fs)))
    decreases d, fs, 1
  {
    var v := Read(fold, p, d, Record(fs));
    forall i | 0 <= i < |d.members| ensures IsField(d.members[i].key, fs) {
      assert SpelledIn(d.members[i], fs);
    }
    forall i, j | 0 <= i < |d.members| && 0 <= j < |fs| && fs[j].name == d.members[i].key
      ensures Means(d.members[i].value, fs[j].schema, v.values[j])
    {
      assert v.values[j] == ReadField(fold, p, d, fs[j]);
      ReadIsField(fold, p, d, fs, depth, i, j);
    }
    forall j | 0 <= j < |fs| && fs[j].name !in Keys(d.members) ensures v.values[j] == Zero {
      assert v.values[j] == ReadField(fold, p, d, fs[j]);
      PicksNothing(fold, p, d.members, fs, j);
    }
  }

  // ---------------------------------------------------------------------- along paths

  datatype Step = Index(i: nat) | Name(k: string)

  datatype Spot = Off | There(doc: Json, schema: Schema)

  datatype Holding = Nothing | Holds(value: Typed)

  /** Where in a sequence of fields, or of members, a name stands. */
  function FieldAt(fs: seq<Field>, name: string): (j: nat)
    ensures j <= |fs| && (j < |fs| ==> fs[j].name == name)
    ensures forall k :: 0 <= k < j ==> fs[k].name != name
  {
    if fs == [] || fs[0].name == name then 0
    else
      assert forall k :: 0 <= k < |fs[1..]| ==> fs[1..][k] == fs[k + 1];
      FieldAt(fs[1..], name) + 1
  }

  function MemberAt(ms: seq<Member>, key: string): (i: nat)
    ensures i <= |ms| && (i < |ms| ==> ms[i].key == key)
    ensures forall k :: 0 <= k < i ==> ms[k].key != key
  {
    if ms == [] || ms[0].key == key then 0
    else
      assert forall k :: 0 <= k < |ms[1..]| ==> ms[1..][k] == ms[k + 1];
      MemberAt(ms[1..], key) + 1
  }

  /** The part of the document at a path, with the schema that governs it. */
  function Walk(d: Json, s: Schema, path: seq<Step>): Spot
    decreases |path|, s
  {
    if s.PointerTo? && d != Leaf(Null) then Walk(d, s.elem, path)
    else if path == [] then There(d, s)
    else if s.ListOf? && path[0].Index? && d.Array? && path[0].i < |d.items| then
      Walk(d.items[path[0].i], s.elem, path[1..])
    else if path[0].Name? && d.Object? && MemberAt(d.members, path[0].k) < |d.members| then
      var x := d.members[MemberAt(d.members, path[0].k)].value;
      if s.MapOf? then Walk(x, s.elem, path[1..])
      else if s.Record? && FieldAt(s.fields, path[0].k) < |s.fields| then
        Walk(x, s.fields[FieldAt(s.fields, path[0].k)].schema, path[1..])
      else Off
    else Off
  }

  /** The part of the typed value at a path: list items by index, table entries by key, record
      values by field name. */
  function Find(v: Typed, s: Schema, path: seq<Step>): Holding
    decreases |path|, s
  {
    if s.PointerTo? && v != Zero then Find(v, s.elem, path)
    else if path == [] then Holds(v)
    else if s.ListOf? && path[0].Index? && v.Many? && path[0].i < |v.items| then
      Find(v.items[path[0].i], s.elem, path[1..])
    else if s.MapOf? && path[0].Name? && v.Table? && path[0].k in v.entries then
      Find(v.entries[path[0].k], s.elem, path[1..])
    else if s.Record? && path[0].Name? && v.Struct? && |v.values| == |s.fields|
            && FieldAt(s.fields, path[0].k) < |s.fields| then
      var j := FieldAt(s.fields, path[0].k);
      Find(v.values[j], s.fields[j].schema, path[1..])
    else Nothing
  }

  lemma MeansNonzero(d: Json, s: Schema, v: Typed)
    requires Means(d, s, v) && d != Leaf(Null)
    ensures v != Zero
    decreases s
  {
    if s.PointerTo? { MeansNonzero(d, s.elem, v); }
  }

  /** At every path of the document that its schema describes, the value found by the same
      indices, keys and field names is what the document says there. */
  lemma {:induction false} PathsAreRead(d: Json, s: Schema, v: Typed, path: seq<Step>)
    requires Means(d, s, v) && Walk(d, s, path).There?
    ensures Find(v, s, path).Holds? && Means(Walk(d, s, path).doc, Walk(d, s, path).schema, Find(v, s, path).value)
    decreases |path|, s
  {
    if s.PointerTo? && d != Leaf(Null) {
      MeansNonzero(d, s, v);
      PathsAreRead(d, s.elem, v, path);
    } else if path != [] {
      match s
      case ListOf(t) => PathsAreRead(d.items[path[0].i], t, v.items[path[0].i], path[1..]);
      case MapOf(t) =>
        PathsAreRead(d.members[MemberAt(d.members, path[0].k)].value, t, v.entries[path[0].k], path[1..]);
      case Record(fs) =>
        var j := FieldAt(fs, path[0].k);
        PathsAreRead(d.members[MemberAt(d.members, path[0].k)].value, fs[j].schema, v.values[j], path[1..]);
    }
  }

  ghost predicate ZeroWhereAbsent(ms: seq<Member>, fs: seq<Field>, v: Typed) {
    && v.Struct? && |v.values| == |fs|
    && forall j :: 0 <= j < |fs| && fs[j].name !in Keys(ms) ==> v.values[j] == Zero
  }

  /** In particular every scalar of the document is found where it stands, and a record field
      that no member is spelled like is zero. */
  lemma LeavesAreRead(d: Json, s: Schema, v: Typed, path: seq<Step>)
    requires Means(d, s, v) && Walk(d, s, path).There?
    ensures var x := Walk(d, s, path); var y := Find(v, s, path);
            && y.Holds?
            && (x.schema.RawOf? ==> y.value == Verbatim(x.doc))
            && (!x.schema.RawOf? && x.doc.Leaf? ==>
                  y.value == if x.doc.token == Null then Zero else Scalar(x.doc.token))
            && (x.schema.Record? ==> x.doc.Object? && ZeroWhereAbsent(x.doc.members, x.schema.fields, y.value))
  {
    PathsAreRead(d, s, v, path);
    WalkEndsPlain(d, s, path);
  }

  lemma {:induction false} WalkEndsPlain(d: Json, s: Schema, path: seq<Step>)
    requires Walk(d, s, path).There?
    ensures Walk(d, s, path).schema.PointerTo? ==> Walk(d, s, path).doc == Leaf(Null)
    decreases |path|, s
  {
    if s.PointerTo? {
      if d != Leaf(Null) { WalkEndsPlain(d, s.elem, path); }
    } else if path != [] {
      if s.ListOf? { WalkEndsPlain(d.items[path[0].i], s.elem, path[1..]); }
      else {
        var x := d.members[MemberAt(d.members, path[0].k)].value;
        WalkEndsPlain(x, if s.MapOf? then s.elem else s.fields[FieldAt(s.fields, path[0].k)].schema, path[1..]);
      }
    }
  }
}
