/** The typed side of the create-request decoder (internal/proxy/validate.go): the exact
    field check, the readers it must keep in agreement, and `decodeCreate` itself. */
module CreateSchema {
  import opened CreateDecoder

  datatype Schema =
    | StringOf
    | BoolOf
    | IntOf
    | RawOf
    | ListOf(elem: Schema)
    | MapOf(elem: Schema)
    | PointerTo(elem: Schema)
    | Record(fields: seq<Field>)

  datatype Field = Field(name: string, schema: Schema)

  // --------------------------------------------------------------------- readers

  /** How a reader matches keys with fields and which of several matches it keeps. */
  datatype Policy = Policy(exact: bool, last: bool)

  datatype Typed =
    | Zero
    | Scalar(token: Token)
    | Verbatim(doc: Json)
    | Many(items: seq<Typed>)
    | Table(entries: map<string, Typed>)
    | Struct(values: seq<Typed>)
    | Mismatch

  predicate Hit(fold: Fold, p: Policy, key: string, name: string) {
    if p.exact then key == name else FoldName(fold, key) == FoldName(fold, name)
  }

  datatype Choice = Nowhere | At(index: nat)

  /** The first or the last member that hits the name. */
  function Pick(fold: Fold, p: Policy, ms: seq<Member>, name: string): (c: Choice)
    ensures c.At? ==> c.index < |ms| && Hit(fold, p, ms[c.index].key, name)
    ensures c.Nowhere? ==> forall i :: 0 <= i < |ms| ==> !Hit(fold, p, ms[i].key, name)
  {
    if ms == [] then Nowhere
    else if p.last then
      (if Hit(fold, p, ms[|ms| - 1].key, name) then At(|ms| - 1) else Pick(fold, p, ms[..|ms| - 1], name))
    else if Hit(fold, p, ms[0].key, name) then At(0)
    else match Pick(fold, p, ms[1..], name)
      case Nowhere => Nowhere
      case At(i) => assert ms[1..][i] == ms[i + 1]; At(i + 1)
  }

  function Keys(ms: seq<Member>): set<string> { set i | 0 <= i < |ms| :: ms[i].key }

  /** What a reader with this policy makes of a document. JSON null leaves a value at zero. */
  function Read(fold: Fold, p: Policy, d: Json, s: Schema): Typed
    decreases d, s
  {
    match s
    case RawOf => Verbatim(d)
    case PointerTo(t) => if d == Leaf(Null) then Zero else Read(fold, p, d, t)
    case StringOf => if d == Leaf(Null) then Zero else if d.Leaf? && d.token.Text? then Scalar(d.token) else Mismatch
    case BoolOf => if d == Leaf(Null) then Zero else if d.Leaf? && d.token.Flag? then Scalar(d.token) else Mismatch
    case IntOf => if d == Leaf(Null) then Zero else if d.Leaf? && d.token.Number? then Scalar(d.token) else Mismatch
    case ListOf(t) =>
      if d == Leaf(Null) then Zero
      else if !d.Array? then Mismatch
      else Many(seq(|d.items|, i requires 0 <= i < |d.items| => Read(fold, p, d.items[i], t)))
    case MapOf(t) =>
      if d == Leaf(Null) then Zero
      else if !d.Object? then Mismatch
      else Table(map k | k in Keys(d.members) :: ReadEntry(fold, p, d, k, t))
    case Record(fs) =>
      if !d.Object? then Mismatch
      else Struct(seq(|fs|, i requires 0 <= i < |fs| => ReadField(fold, p, d, fs[i])))
  }

  /** Map keys are matched exactly by every reader. */
  function ReadEntry(fold: Fold, p: Policy, d: Json, key: string, t: Schema): Typed
    requires d.Object?
    decreases d, t, 0
  {
    match Pick(fold, Policy(true, p.last), d.members, key)
    case Nowhere => Zero
    case At(i) => Read(fold, p, d.members[i].value, t)
  }

  function ReadField(fold: Fold, p: Policy, d: Json, f: Field): Typed
    requires d.Object?
    decreases d, f, 0
  {
    match Pick(fold, p, d.members, f.name)
    case Nowhere => Zero
    case At(i) => Read(fold, p, d.members[i].value, f.schema)
  }

  // -------------------------------------------------------------- the exact check

  /** `exactJSONFields` */
  predicate Exactly(d: Json, s: Schema)
    decreases d, s
  {
    match s
    case PointerTo(t) => d == Leaf(Null) || Exactly(d, t)
    case Record(fs) =>
      d.Object? && forall i :: 0 <= i < |d.members| ==> SpelledIn(d.members[i], fs)
    case MapOf(t) => d.Object? ==> forall i :: 0 <= i < |d.members| ==> Exactly(d.members[i].value, t)
    case ListOf(t) => d.Array? ==> forall i :: 0 <= i < |d.items| ==> Exactly(d.items[i], t)
    case _ => true
  }

  /** The member is spelled like a field, and fits it. */
  predicate SpelledIn(m: Member, fs: seq<Field>)
    decreases m, fs
  {
    exists j :: 0 <= j < |fs| && fs[j].name == m.key && Exactly(m.value, fs[j].schema)
  }

  /** No two of the fields have one name under folding. */
  predicate FieldsApart(fold: Fold, fs: seq<Field>) {
    forall i, j :: 0 <= i < j < |fs| ==> FoldName(fold, fs[i].name) != FoldName(fold, fs[j].name)
  }

  /** No record has two fields with one name under folding. */
  predicate Sound(fold: Fold, s: Schema) {
    match s
    case PointerTo(t) => Sound(fold, t)
    case ListOf(t) => Sound(fold, t)
    case MapOf(t) => Sound(fold, t)
    case Record(fs) =>
      FieldsApart(fold, fs) && forall i :: 0 <= i < |fs| ==> Sound(fold, fs[i].schema)
    case _ => true
  }

  // ---------------------------------------------------- every reader says the same

  /** At most one member can hit, so first and last are the same one. */
  lemma PickAgrees(fold: Fold, p: Policy, q: Policy, ms: seq<Member>, name: string)
    requires FoldUnique(fold, ms)
    requires forall i :: 0 <= i < |ms| ==> (Hit(fold, p, ms[i].key, name) <==> Hit(fold, q, ms[i].key, name))
    ensures Pick(fold, p, ms, name) == Pick(fold, q, ms, name)
  {
    var a, b := Pick(fold, p, ms, name), Pick(fold, q, ms, name);
    if a.At? && b.At? {
      assert FoldName(fold, ms[a.index].key) == FoldName(fold, ms[b.index].key);
      assert !(a.index < b.index) && !(b.index < a.index);
    }
  }

  /** A key spelled like some field hits another field's name under no policy. */
  lemma SpelledKeyHits(fold: Fold, p: Policy, fs: seq<Field>, key: string, i: nat, j: nat)
    requires FieldsApart(fold, fs) && i < |fs| && j < |fs| && key == fs[j].name
    ensures Hit(fold, p, key, fs[i].name) <==> i == j
  {
    if i < j { assert FoldName(fold, fs[i].name) != FoldName(fold, fs[j].name); }
    if j < i { assert FoldName(fold, fs[j].name) != FoldName(fold, fs[i].name); }
  }

  /** On a document that passes both checks every reader yields the same typed value. */
  lemma {:induction false} ReadersAgree(fold: Fold, p: Policy, q: Policy, d: Json, s: Schema, depth: nat)
    requires Unambiguous(fold, d, depth) && Exactly(d, s) && Sound(fold, s)
    ensures Read(fold, p, d, s) == Read(fold, q, d, s)
    decreases d, s, 1
  {
    match s
    case PointerTo(t) => if d != Leaf(Null) { ReadersAgree(fold, p, q, d, t, depth); }
    case ListOf(t) => if d.Array? { ListsAgree(fold, p, q, d, t, depth); }
    case MapOf(t) => if d.Object? { MapsAgree(fold, p, q, d, t, depth); }
    case Record(fs) => RecordsAgree(fold, p, q, d, fs, depth);
    case _ =>
  }

  lemma {:induction false} ListsAgree(fold: Fold, p: Policy, q: Policy, d: Json, t: Schema, depth: nat)
    requires d.Array? && Unambiguous(fold, d, depth) && Exactly(d, ListOf(t)) && Sound(fold, t)
    ensures Read(fold, p, d, ListOf(t)) == Read(fold, q, d, ListOf(t))
    decreases d, t, 1
  {
    forall i | 0 <= i < |d.items| ensures Read(fold, p, d.items[i], t) == Read(fold, q, d.items[i], t) {
      ReadersAgree(fold, p, q, d.items[i], t, depth + 1);
    }
  }

  lemma {:induction false} MapsAgree(fold: Fold, p: Policy, q: Policy, d: Json, t: Schema, depth: nat)
    requires d.Object? && Unambiguous(fold, d, depth) && Exactly(d, MapOf(t)) && Sound(fold, t)
    ensures Read(fold, p, d, MapOf(t)) == Read(fold, q, d, MapOf(t))
    decreases d, t, 1
  {
    forall k | k in Keys(d.members) ensures ReadEntry(fold, p, d, k, t) == ReadEntry(fold, q, d, k, t) {
      EntriesAgree(fold, p, q, d, k, t, depth);
    }
  }

  lemma {:induction false} RecordsAgree(fold: Fold, p: Policy, q: Policy, d: Json, fs: seq<Field>, depth: nat)
    requires Unambiguous(fold, d, depth) && Exactly(d, Record(fs)) && Sound(fold, Record(fs))
    ensures Read(fold, p, d, Record(fs)) == Read(fold, q, d, Record(fs))
    decreases d, fs, 1
  {
    forall i | 0 <= i < |fs| ensures ReadField(fold, p, d, fs[i]) == ReadField(fold, q, d, fs[i]) {
      FieldsAgree(fold, p, q, d, fs, i, depth);
    }
  }

  lemma {:induction false} EntriesAgree(fold: Fold, p: Policy, q: Policy, d: Json, key: string, t: Schema, depth: nat)
    requires d.Object? && Unambiguous(fold, d, depth) && Exactly(d, MapOf(t)) && Sound(fold, t)
    ensures ReadEntry(fold, p, d, key, t) == ReadEntry(fold, q, d, key, t)
    decreases d, t, 0
  {
    PickAgrees(fold, Policy(true, p.last), Policy(true, q.last), d.members, key);
    match Pick(fold, Policy(true, p.last), d.members, key)
    case Nowhere =>
    case At(i) => ReadersAgree(fold, p, q, d.members[i].value, t, depth + 1);
  }

  lemma {:induction false} FieldsAgree(fold: Fold, p: Policy, q: Policy, d: Json, fs: seq<Field>, i: nat, depth: nat)
    requires d.Object? && Unambiguous(fold, d, depth) && Exactly(d, Record(fs)) && Sound(fold, Record(fs)) && i < |fs|
    ensures ReadField(fold, p, d, fs[i]) == ReadField(fold, q, d, fs[i])
    decreases d, fs, 0
  {
    var ms := d.members;
    forall m | 0 <= m < |ms| ensures Hit(fold, p, ms[m].key, fs[i].name) <==> Hit(fold, q, ms[m].key, fs[i].name) {
      assert SpelledIn(ms[m], fs);
      var j :| 0 <= j < |fs| && fs[j].name == ms[m].key && Exactly(ms[m].value, fs[j].schema);
      SpelledKeyHits(fold, p, fs, ms[m].key, i, j);
      SpelledKeyHits(fold, q, fs, ms[m].key, i, j);
    }
    PickAgrees(fold, p, q, ms, fs[i].name);
    match Pick(fold, p, ms, fs[i].name)
    case Nowhere =>
    case At(m) =>
      assert SpelledIn(ms[m], fs);
      var j :| 0 <= j < |fs| && fs[j].name == ms[m].key && Exactly(ms[m].value, fs[j].schema);
      SpelledKeyHits(fold, p, fs, ms[m].key, i, j);
      ReadersAgree(fold, p, q, ms[m].value, fs[i].schema, depth + 1);
  }

  // ------------------------------------------------------------------ well typed

  predicate WellTyped(v: Typed) {
    match v
    case Mismatch => false
    case Many(items) => forall i :: 0 <= i < |items| ==> WellTyped(items[i])
    case Table(entries) => forall k :: k in entries ==> WellTyped(entries[k])
    case Struct(values) => forall i :: 0 <= i < |values| ==> WellTyped(values[i])
    case _ => true
  }

  /** json.Unmarshal: keys match under folding and the last one wins. */
  const UNMARSHAL := Policy(false, true)

  // ------------------------------------------------------------------ the schemas

  function Strings(): Schema { ListOf(StringOf) }

  function StringTable(): Schema { MapOf(StringOf) }

  function HostConfigFields(): seq<Field> {
    [ Field("Privileged", BoolOf), Field("CapAdd", Strings()), Field("CapDrop", Strings()),
      Field("Devices", ListOf(RawOf)), Field("PidMode", StringOf), Field("NetworkMode", StringOf),
      Field("IpcMode", StringOf), Field("UTSMode", StringOf), Field("UsernsMode", StringOf),
      Field("Sysctls", StringTable()), Field("SecurityOpt", Strings()), Field("Binds", Strings()),
      Field("Memory", IntOf), Field("NanoCpus", IntOf), Field("PidsLimit", IntOf),
      Field("ReadonlyRootfs", BoolOf), Field("AutoRemove", BoolOf), Field("Tmpfs", StringTable()) ]
  }

  function NetworkingFields(): seq<Field> { [Field("EndpointsConfig", MapOf(Record([Field("Aliases", Strings())])))] }

  function ContainerFields(): seq<Field> {
    [ Field("Image", StringOf), Field("User", StringOf), Field("Env", Strings()), Field("Cmd", Strings()),
      Field("Entrypoint", Strings()), Field("Labels", StringTable()), Field("HostConfig", Record(HostConfigFields())),
      Field("NetworkingConfig", PointerTo(Record(NetworkingFields()))) ]
  }

  function NetworkFields(): seq<Field> {
    [ Field("Name", StringOf), Field("Driver", StringOf), Field("Internal", BoolOf),
      Field("Attachable", BoolOf), Field("Labels", StringTable()) ]
  }

  /** The fold table leaves A to Z, each the least rune of its class, where they are. */
  ghost predicate KeepsCapitals(fold: Fold) { forall c: char :: 'A' <= c <= 'Z' ==> fold(c) == c }

  ghost predicate MarksApart(fs: seq<Field>) {
    && (forall i :: 0 <= i < |fs| ==> fs[i].name != "" && 'A' <= fs[i].name[0] <= 'Z')
    && (forall i, j :: 0 <= i < j < |fs| ==> |fs[i].name| != |fs[j].name| || fs[i].name[0] != fs[j].name[0])
  }

  /** Names that differ in length or initial capital stay apart under folding. */
  lemma MarksTellApart(fold: Fold, fs: seq<Field>)
    requires KeepsCapitals(fold) && MarksApart(fs)
    ensures FieldsApart(fold, fs)
  {
    forall i, j | 0 <= i < j < |fs| ensures FoldName(fold, fs[i].name) != FoldName(fold, fs[j].name) {
      assert FoldName(fold, fs[i].name)[0] == fs[i].name[0] && FoldName(fold, fs[j].name)[0] == fs[j].name[0];
      assert |FoldName(fold, fs[i].name)| == |fs[i].name| && |FoldName(fold, fs[j].name)| == |fs[j].name|;
    }
  }

  lemma HostConfigCapitals(i: nat)
    requires i < 18
    ensures HostConfigFields()[i].name != "" && 'A' <= HostConfigFields()[i].name[0] <= 'Z'
  {
  }

  lemma HostConfigPair(i: nat, j: nat)
    requires i < j < 18
    ensures || |HostConfigFields()[i].name| != |HostConfigFields()[j].name|
            || HostConfigFields()[i].name[0] != HostConfigFields()[j].name[0]
  {
  }

  lemma HostConfigPlain(fold: Fold, i: nat)
    requires i < 18
    ensures Sound(fold, HostConfigFields()[i].schema)
  {
  }

  lemma HostConfigApart(fs: seq<Field>)
    requires fs == HostConfigFields()
    ensures MarksApart(fs)
  {
    forall i | 0 <= i < |fs| ensures fs[i].name != "" && 'A' <= fs[i].name[0] <= 'Z' { HostConfigCapitals(i); }
    forall i, j | 0 <= i < j < |fs|
      ensures |fs[i].name| != |fs[j].name| || fs[i].name[0] != fs[j].name[0]
    {
      HostConfigPair(i, j);
    }
  }

  lemma HostConfigSound(fold: Fold, fs: seq<Field>)
    requires KeepsCapitals(fold) && fs == HostConfigFields()
    ensures Sound(fold, Record(fs))
  {
    HostConfigApart(fs);
    MarksTellApart(fold, fs);
    forall i | 0 <= i < |fs| ensures Sound(fold, fs[i].schema) { HostConfigPlain(fold, i); }
  }

  lemma ContainerPair(i: nat, j: nat)
    requires i < j < 8
    ensures || |ContainerFields()[i].name| != |ContainerFields()[j].name|
            || ContainerFields()[i].name[0] != ContainerFields()[j].name[0]
  {
  }

  lemma ContainerCapitals(i: nat)
    requires i < 8
    ensures ContainerFields()[i].name != "" && 'A' <= ContainerFields()[i].name[0] <= 'Z'
  {
  }

  lemma ContainerApart(fs: seq<Field>)
    requires fs == ContainerFields()
    ensures MarksApart(fs)
  {
    forall i | 0 <= i < |fs| ensures fs[i].name != "" && 'A' <= fs[i].name[0] <= 'Z' { ContainerCapitals(i); }
    forall i, j | 0 <= i < j < |fs|
      ensures |fs[i].name| != |fs[j].name| || fs[i].name[0] != fs[j].name[0]
    {
      ContainerPair(i, j);
    }
  }

  lemma NetworkApart()
    ensures MarksApart(NetworkFields()) && MarksApart(NetworkingFields())
  {
  }

  lemma NetworkingSound(fold: Fold)
    requires KeepsCapitals(fold)
    ensures Sound(fold, Record(NetworkingFields())) && Sound(fold, Record(NetworkFields()))
  {
    NetworkApart();
    MarksTellApart(fold, NetworkFields());
    MarksTellApart(fold, NetworkingFields());
  }

  /** The two request schemas have no fields that folding could confuse. */
  lemma SchemasSound(fold: Fold)
    requires KeepsCapitals(fold)
    ensures Sound(fold, Record(ContainerFields())) && Sound(fold, Record(NetworkFields()))
  {
    HostConfigSound(fold, HostConfigFields());
    NetworkingSound(fold);
    ContainerApart(ContainerFields());
    MarksTellApart(fold, ContainerFields());
  }
}
