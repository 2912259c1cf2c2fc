/** The Kubernetes backend (internal/kube/client.go, internal/backend/kube/kube.go): the
    ordered creation of a spawn's seven objects, discovery of what a crash left behind, and
    deletion confirmed by listing. The API may refuse any call, apply a create and still
    report an error, and take its time over a delete. */
module KubeBackend {

  datatype Kind = Pod | Service | NetworkPolicy | Secret

  datatype Role = RunnerRole | ProxyRole | OtherRole

  datatype Label = NoLabel | Label(value: string)

  datatype OwnerRef = OwnerRef(toSecret: bool, name: string)

  datatype Key = Key(kind: Kind, name: string)

  /** The labels and owners of an object; an absent scope or repository label reads as "". */
  datatype Meta = Meta(scope: string, spawn: Label, role: Role, repo: string, owners: seq<OwnerRef>)

  type Objects = map<Key, Meta>

  /** `spawnResourceName` */
  function ResourceName(kind: string, id: string): string { "rs-" + kind + "-" + id }

  function SecretOf(id: string): string { ResourceName("secret", id) }

  /** `expectedSpawnResourceRole` */
  predicate ExpectedRole(k: Key, id: string, role: Role) {
    match k.kind
    case Pod =>
      || (k.name == ResourceName("runner", id) && role.RunnerRole?)
      || (k.name == ResourceName("proxy", id) && role.ProxyRole?)
    case Service => k.name == ResourceName("proxy-svc", id) && role.ProxyRole?
    case NetworkPolicy =>
      || (k.name == ResourceName("runner-egress", id) && role.RunnerRole?)
      || (k.name == ResourceName("proxy-egress", id) && role.ProxyRole?)
      || (k.name == ResourceName("proxy-ingress", id) && role.ProxyRole?)
    case Secret => k.name == SecretOf(id) && role.ProxyRole?
  }

  /** `appendSpawnResource`: the object is one the spawn's own creation makes. An empty
      wanted repository accepts any non-empty one. */
  predicate Exact(k: Key, m: Meta, id: string, repo: string) {
    && ExpectedRole(k, id, m.role)
    && m.repo != "" && (repo == "" || m.repo == repo)
    && forall o :: o in m.owners ==> o.toSecret && o.name == SecretOf(id)
  }

  predicate OfSpawn(m: Meta, scope: string, id: string) { m.scope == scope && m.spawn == Label(id) }

  predicate OfScope(m: Meta, scope: string) { m.scope == scope && m.spawn.Label? }

  // ------------------------------------------------------------------- creation

  datatype Created = Created(key: Key, meta: Meta)

  function Owned(scope: string, id: string, repo: string, role: Role): Meta {
    Meta(scope, Label(id), role, repo, [OwnerRef(true, SecretOf(id))])
  }

  /** The seven creates of `ApplySpawn`, in order. */
  function Plan(scope: string, id: string, repo: string): seq<Created> {
    [ Created(Key(Secret, SecretOf(id)), Meta(scope, Label(id), ProxyRole, repo, [])),
      Created(Key(Service, ResourceName("proxy-svc", id)), Owned(scope, id, repo, ProxyRole)),
      Created(Key(NetworkPolicy, ResourceName("runner-egress", id)), Owned(scope, id, repo, RunnerRole)),
      Created(Key(NetworkPolicy, ResourceName("proxy-egress", id)), Owned(scope, id, repo, ProxyRole)),
      Created(Key(NetworkPolicy, ResourceName("proxy-ingress", id)), Owned(scope, id, repo, ProxyRole)),
      Created(Key(Pod, ResourceName("proxy", id)), Owned(scope, id, repo, ProxyRole)),
      Created(Key(Pod, ResourceName("runner", id)), Owned(scope, id, repo, RunnerRole)) ]
  }

  function With(o: Objects, plan: seq<Created>): Objects {
    if plan == [] then o else With(o, plan[..|plan| - 1])[plan[|plan| - 1].key := plan[|plan| - 1].meta]
  }

  /** A namespace of the cluster. */
  class Api {
    var objects: Objects
    /** Objects whose deletion was asked for; they, and what a doomed Secret owns, go in time. */
    var doomed: set<Key>
    /** Some call reported an error. */
    ghost var refused: bool

    method Create(c: Created) returns (ok: bool)
      modifies this`objects, this`refused
      ensures refused == (old(refused) || !ok)
      ensures objects == old(objects) || (c.key !in old(objects) && objects == old(objects)[c.key := c.meta])
      ensures ok ==> c.key !in old(objects) && objects == old(objects)[c.key := c.meta]
    {
      if c.key in objects { refused := true; return false; }
      var applied: bool := *;
      var reported: bool := *;
      if applied { objects := objects[c.key := c.meta]; }
      ok := applied && reported;
      refused := refused || !ok;
    }

    method Get(k: Key) returns (ok: bool)
      modifies this`refused
      ensures refused == (old(refused) || !ok)
      ensures ok ==> k in objects
    {
      ok := *;
      ok := ok && k in objects;
      refused := refused || !ok;
    }

    /** Lists a kind under a selector, each object once, in any order. */
    method List(kind: Kind, scope: string, id: Label) returns (ok: bool, items: seq<Key>)
      modifies this`refused
      ensures refused == (old(refused) || !ok)
      ensures ok ==> forall k :: k in items <==> k in objects && k.kind == kind && Selected(objects[k], scope, id)
    {
      ok := *;
      refused := refused || !ok;
      items := [];
      var rest := set k | k in objects && k.kind == kind && Selected(objects[k], scope, id);
      while rest != {}
        invariant forall k :: k in objects && k.kind == kind && Selected(objects[k], scope, id) <==>
                  k in items || k in rest
      {
        var k :| k in rest;
        items := items + [k];
        rest := rest - {k};
      }
    }

    /** A delete without an error is accepted; one with an error may be, too. */
    method Delete(k: Key) returns (ok: bool)
      modifies this`doomed, this`refused
      ensures refused == (old(refused) || !ok)
      ensures doomed == old(doomed) || doomed == old(doomed) + {k}
      ensures ok ==> k in doomed
    {
      var accepted: bool := *;
      if accepted { doomed := doomed + {k}; }
      ok := *;
      ok := ok && accepted;
      refused := refused || !ok;
    }

    /** Time passes: some doomed objects and dependents of doomed Secrets disappear. */
    method Elapse()
      modifies this`objects
      ensures objects.Keys <= old(objects).Keys && forall k :: k in objects ==> objects[k] == old(objects)[k]
      ensures forall k :: k in old(objects) && k !in objects ==> Perishable(k, old(objects)[k], doomed)
    {
      var rest := set k | k in objects && Perishable(k, objects[k], doomed);
      while rest != {}
        invariant objects.Keys <= old(objects).Keys && forall k :: k in objects ==> objects[k] == old(objects)[k]
        invariant forall k :: k in rest ==> k in old(objects) && Perishable(k, old(objects)[k], doomed)
        invariant forall k :: k in old(objects) && k !in objects ==> Perishable(k, old(objects)[k], doomed)
      {
        var k :| k in rest;
        var now: bool := *;
        if now { objects := objects - {k}; }
        rest := rest - {k};
      }
    }
  }

  predicate Selected(m: Meta, scope: string, id: Label) {
    m.scope == scope && (if id.Label? then m.spawn == id else m.spawn.Label?)
  }

  predicate Perishable(k: Key, m: Meta, doomed: set<Key>) {
    k in doomed || exists o :: o in m.owners && o.toSecret && Key(Secret, o.name) in doomed
  }

  /** ApplySpawn leaves exactly a prefix of the plan, whatever fails, and all of it on success. */
  method ApplySpawn(a: Api, scope: string, id: string, repo: string) returns (ok: bool, ghost made: nat)
    modifies a`objects, a`refused
    ensures !ok ==> a.refused
    ensures made <= 7 && a.objects == With(old(a.objects), Plan(scope, id, repo)[..made])
    ensures forall j :: 0 <= j < made ==> Plan(scope, id, repo)[j].key !in old(a.objects)
    ensures ok ==> made == 7
  {
    var plan := Plan(scope, id, repo);
    made := 0;
    var k := 0;
    while k < 7
      invariant 0 <= k <= 7 && made == k
      invariant a.objects == With(old(a.objects), plan[..made])
      invariant forall j :: 0 <= j < made ==> plan[j].key !in old(a.objects)
      invariant forall x :: x in old(a.objects) ==> x in a.objects
    {
      ghost var before := a.objects;
      var created := a.Create(plan[k]);
      assert plan[..k + 1][..k] == plan[..k];
      made := if a.objects == before then k else k + 1;
      if !created { return false, made; }
      if k == 0 {
        var fetched := a.Get(plan[0].key);
        if !fetched { return false, made; }
      }
      k := k + 1;
    }
    assert plan[..7] == plan;
    ok := true;
  }

  // ------------------------------------------------------------------ discovery

  datatype SpawnRef = SpawnRef(id: string, runnerPod: string, secret: string, repo: string)

  function RefOf(id: string, repo: string): SpawnRef { SpawnRef(id, ResourceName("runner", id), SecretOf(id), repo) }

  /** The object is one that creating the spawn it is labelled for would make. */
  predicate Proper(k: Key, m: Meta) { m.spawn.Label? && m.spawn.value != "" && Exact(k, m, m.spawn.value, "") }

  function InScope(o: Objects, scope: string): set<Key> { set k | k in o && OfScope(o[k], scope) }

  /** Every labelled object in scope is one some spawn's creation makes, and the objects of
      one spawn agree on the repository. */
  ghost predicate Discoverable(o: Objects, scope: string) {
    && (forall k :: k in o && OfScope(o[k], scope) ==> Proper(k, o[k]))
    && (forall j, k :: j in o && k in o && OfScope(o[j], scope) && OfScope(o[k], scope) && o[j].spawn == o[k].spawn ==>
          o[j].repo == o[k].repo)
  }

  /** The references found cover exactly the objects seen so far. */
  ghost predicate Found(refs: map<string, SpawnRef>, o: Objects, seen: set<Key>) {
    && (forall k :: k in seen ==>
          && k in o && o[k].spawn.Label? && o[k].spawn.value in refs
          && refs[o[k].spawn.value] == RefOf(o[k].spawn.value, o[k].repo))
    && (forall id :: id in refs ==> exists k :: k in seen && k in o && o[k].spawn == Label(id))
  }

  /** `mergeDiscoveredSpawn` */
  datatype Merge = Refused | Merged(refs: map<string, SpawnRef>)

  function MergeOne(refs: map<string, SpawnRef>, k: Key, m: Meta): Merge
    requires m.spawn.Label?
  {
    var id := m.spawn.value;
    if id == "" || !Exact(k, m, id, "") then Refused
    else if id in refs then
      (if refs[id] == RefOf(id, m.repo) then Merged(refs) else Refused)
    else Merged(refs[id := RefOf(id, m.repo)])
  }

  lemma MergeFinds(refs: map<string, SpawnRef>, o: Objects, seen: set<Key>, k: Key)
    requires Found(refs, o, seen) && k in o && o[k].spawn.Label? && MergeOne(refs, k, o[k]).Merged?
    ensures Found(MergeOne(refs, k, o[k]).refs, o, seen + {k})
    ensures Proper(k, o[k])
  {
    var out := MergeOne(refs, k, o[k]).refs;
    forall id | id in out ensures exists j :: j in seen + {k} && j in o && o[j].spawn == Label(id) {
      if id in refs {
        var j :| j in seen && j in o && o[j].spawn == Label(id);
        assert j in seen + {k};
      } else {
        assert k in seen + {k} && o[k].spawn == Label(id);
      }
    }
  }

  /** A refused merge means the namespace holds something no creation of one repository's spawn makes. */
  lemma MergeRefuses(refs: map<string, SpawnRef>, o: Objects, seen: set<Key>, k: Key, scope: string)
    requires Found(refs, o, seen) && k in o && OfScope(o[k], scope) && MergeOne(refs, k, o[k]).Refused?
    requires forall j :: j in seen ==> j in o && OfScope(o[j], scope)
    ensures !Discoverable(o, scope)
  {
    var id := o[k].spawn.value;
    if Proper(k, o[k]) {
      var j :| j in seen && j in o && o[j].spawn == Label(id);
      assert refs[id] == RefOf(id, o[j].repo);
      assert o[j].repo != o[k].repo && OfScope(o[j], scope);
    }
  }

  /** Agreement on the references gives agreement on the repository. */
  lemma FoundAgrees(refs: map<string, SpawnRef>, o: Objects, scope: string, seen: set<Key>)
    requires Found(refs, o, seen)
    requires forall k :: k in o && OfScope(o[k], scope) ==> k in seen
    requires forall k :: k in seen ==> k in o && Proper(k, o[k])
    ensures Discoverable(o, scope)
  {
    forall j, k | j in o && k in o && OfScope(o[j], scope) && OfScope(o[k], scope) && o[j].spawn == o[k].spawn
      ensures o[j].repo == o[k].repo
    {
      assert j in seen && k in seen;
    }
  }

  /** `ListSpawnsInNamespace`. With the API answering, it succeeds exactly when everything in
      scope is discoverable, and then returns one reference per spawn that has any object. */
  method ListSpawns(a: Api, scope: string) returns (ok: bool, refs: map<string, SpawnRef>, ghost answered: bool)
    modifies a`refused
    ensures (ok ==> answered) && (old(a.refused) || !answered <==> a.refused)
    ensures answered ==> (ok <==> Discoverable(a.objects, scope))
    ensures ok ==> Found(refs, a.objects, InScope(a.objects, scope))
  {
    refs := map[];
    answered := true;
    var kinds := [Secret, Pod, Service, NetworkPolicy];
    ghost var seen: set<Key> := {};
    var n := 0;
    while n < 4
      invariant 0 <= n <= 4 && answered && a.refused == old(a.refused)
      invariant seen == set k | k in a.objects && OfScope(a.objects[k], scope) && k.kind in kinds[..n]
      invariant Found(refs, a.objects, seen)
      invariant forall k :: k in seen ==> Proper(k, a.objects[k])
    {
      var listed, items := a.List(kinds[n], scope, NoLabel);
      if !listed { return false, map[], false; }
      var merged;
      merged, refs, seen := MergeKind(a, scope, refs, items, seen);
      if !merged { return false, map[], true; }
      assert kinds[..n + 1] == kinds[..n] + [kinds[n]];
      n := n + 1;
    }
    forall k | k in a.objects && OfScope(a.objects[k], scope) ensures k in seen {
      KindListed(kinds, k.kind);
    }
    assert seen == InScope(a.objects, scope);
    FoundAgrees(refs, a.objects, scope, seen);
    ok := true;
  }

  lemma KindListed(kinds: seq<Kind>, k: Kind)
    requires |kinds| == 4 && {kinds[0], kinds[1], kinds[2], kinds[3]} == {Pod, Service, NetworkPolicy, Secret}
    ensures k in kinds[..4]
  {
    assert k in {kinds[0], kinds[1], kinds[2], kinds[3]};
  }

  method MergeKind(a: Api, scope: string, refs: map<string, SpawnRef>, items: seq<Key>, ghost seen: set<Key>)
    returns (ok: bool, out: map<string, SpawnRef>, ghost all: set<Key>)
    requires Found(refs, a.objects, seen)
    requires forall k :: k in seen ==> k in a.objects && OfScope(a.objects[k], scope) && Proper(k, a.objects[k])
    requires forall k :: k in items ==> k in a.objects && OfScope(a.objects[k], scope)
    ensures ok ==> Found(out, a.objects, all)
    ensures ok ==> forall k :: k in all <==> k in seen || k in items
    ensures ok ==> forall k :: k in all ==> Proper(k, a.objects[k])
    ensures !ok ==> !Discoverable(a.objects, scope)
  {
    out := refs;
    all := seen;
    var i := 0;
    while i < |items|
      invariant 0 <= i <= |items|
      invariant Found(out, a.objects, all)
      invariant forall k :: k in all <==> k in seen || k in items[..i]
      invariant forall k :: k in all ==> Proper(k, a.objects[k])
    {
      var k := items[i];
      var merge := MergeOne(out, k, a.objects[k]);
      if merge.Refused? {
        MergeRefuses(out, a.objects, all, k, scope);
        return false, map[], {};
      }
      MergeFinds(out, a.objects, all, k);
      out := merge.refs;
      all := all + {k};
      i := i + 1;
    }
    ok := true;
  }

  // ------------------------------------------------------------------- deletion

  ghost predicate AllExact(o: Objects, scope: string, id: string, repo: string) {
    forall k :: k in o && OfSpawn(o[k], scope, id) ==> Exact(k, o[k], id, repo)
  }

  /** `listExactSpawnResources`: with the API answering, it succeeds exactly when every
      object labelled for the spawn is exact, and returns them all. */
  method ListExact(a: Api, scope: string, id: string, repo: string)
    returns (ok: bool, found: seq<Key>, ghost answered: bool)
    modifies a`refused
    ensures (ok ==> answered) && (old(a.refused) || !answered <==> a.refused)
    ensures answered ==> (ok <==> AllExact(a.objects, scope, id, repo))
    ensures ok ==> forall k :: k in found <==> k in a.objects && OfSpawn(a.objects[k], scope, id)
  {
    found := [];
    answered := true;
    var kinds := [Pod, Service, NetworkPolicy, Secret];
    var n := 0;
    while n < 4
      invariant 0 <= n <= 4 && answered && a.refused == old(a.refused)
      invariant forall k :: k in found <==> k in a.objects && OfSpawn(a.objects[k], scope, id) && k.kind in kinds[..n]
      invariant forall k :: k in found ==> Exact(k, a.objects[k], id, repo)
    {
      var listed, items := a.List(kinds[n], scope, Label(id));
      if !listed { return false, [], false; }
      var exact := AppendExact(a, id, repo, items);
      if !exact { return false, [], true; }
      found := found + items;
      assert kinds[..n + 1] == kinds[..n] + [kinds[n]];
      n := n + 1;
    }
    forall k | k in a.objects && OfSpawn(a.objects[k], scope, id) ensures k in found {
      KindListed(kinds, k.kind);
    }
    ok := true;
  }

  method AppendExact(a: Api, id: string, repo: string, items: seq<Key>) returns (ok: bool)
    requires forall k :: k in items ==> k in a.objects
    ensures ok <==> forall k :: k in items ==> Exact(k, a.objects[k], id, repo)
  {
    var i := 0;
    while i < |items|
      invariant 0 <= i <= |items|
      invariant forall k :: k in items[..i] ==> Exact(k, a.objects[k], id, repo)
    {
      if !Exact(items[i], a.objects[items[i]], id, repo) { return false; }
      i := i + 1;
    }
    ok := true;
  }

  /** What an attempt to delete a spawn may ask to be deleted. */
  ghost predicate Targets(more: set<Key>, doomed: set<Key>, o: Objects, scope: string, id: string, repo: string) {
    forall k :: k in more && k !in doomed ==> k in o && OfSpawn(o[k], scope, id) && Exact(k, o[k], id, repo)
  }

  /** Later objects are earlier ones, less some that were doomed. */
  ghost predicate Shrunk(now: Objects, was: Objects, doomed: set<Key>) {
    && (forall k :: k in now ==> k in was && now[k] == was[k])
    && (forall k :: k in was && k !in now ==> Perishable(k, was[k], doomed))
  }

  /** Another spawn's object, not already on its way out. */
  ghost predicate Bystander(k: Key, m: Meta, id: string, doomed: set<Key>) {
    Proper(k, m) && m.spawn != Label(id) && !Perishable(k, m, doomed)
  }

  ghost predicate Gone(o: Objects, scope: string, id: string) { forall k :: k in o ==> !OfSpawn(o[k], scope, id) }

  lemma SecretsTellApart(a: string, b: string)
    requires SecretOf(a) == SecretOf(b)
    ensures a == b
  {
    assert |"rs-secret-"| == 10;
    assert SecretOf(a)[10..] == a && SecretOf(b)[10..] == b;
  }

  lemma BystandersStay(
    now: Objects, was: Objects, before: set<Key>, after: set<Key>, scope: string, id: string, repo: string, k: Key)
    requires Shrunk(now, was, after) && Targets(after, before, was, scope, id, repo)
    requires k in was && Bystander(k, was[k], id, before)
    ensures k in now && now[k] == was[k]
  {
    if Perishable(k, was[k], after) {
      if k !in after {
        var o :| o in was[k].owners && o.toSecret && Key(Secret, o.name) in after;
        assert o.name == SecretOf(was[k].spawn.value);
        if Key(Secret, o.name) !in before {
          assert Exact(Key(Secret, o.name), was[Key(Secret, o.name)], id, repo);
          SecretsTellApart(id, was[k].spawn.value);
        }
      }
    }
  }

  lemma ShrinksOn(last: Objects, now: Objects, was: Objects, before: set<Key>, after: set<Key>)
    requires Shrunk(now, was, before) && before <= after
    requires forall k :: k in last ==> k in now && last[k] == now[k]
    requires forall k :: k in now && k !in last ==> Perishable(k, now[k], after)
    ensures Shrunk(last, was, after)
  {
    forall k | k in was && k !in last ensures Perishable(k, was[k], after) {
      if k !in now { PerishableMore(k, was[k], before, after); }
    }
  }

  lemma PerishableMore(k: Key, m: Meta, doomed: set<Key>, more: set<Key>)
    requires Perishable(k, m, doomed) && doomed <= more
    ensures Perishable(k, m, more)
  {
    if k !in doomed {
      var o :| o in m.owners && o.toSecret && Key(Secret, o.name) in doomed;
      assert Key(Secret, o.name) in more;
    }
  }

  /** The delete calls of `DeleteSpawnScoped`, with time passing between them. */
  method DeleteEach(a: Api, found: seq<Key>) returns (ok: bool)
    modifies a`objects, a`doomed, a`refused
    ensures Shrunk(a.objects, old(a.objects), a.doomed)
    ensures old(a.doomed) <= a.doomed && forall k :: k in a.doomed ==> k in old(a.doomed) || k in found
    ensures old(a.refused) || !ok <==> a.refused
    ensures ok ==> forall i :: 0 <= i < |found| ==> found[i] in a.doomed
  {
    var i := 0;
    while i < |found|
      invariant 0 <= i <= |found|
      invariant Shrunk(a.objects, old(a.objects), a.doomed)
      invariant old(a.doomed) <= a.doomed && forall k :: k in a.doomed ==> k in old(a.doomed) || k in found
      invariant a.refused == old(a.refused) && forall j :: 0 <= j < i ==> found[j] in a.doomed
    {
      ghost var now, before := a.objects, a.doomed;
      var deleted := a.Delete(found[i]);
      a.Elapse();
      ShrinksOn(a.objects, now, old(a.objects), before, a.doomed);
      if !deleted { return false; }
      i := i + 1;
    }
    ok := true;
  }

  /** `waitForSpawnDeleted`: lists until nothing is left, an error, or the context ends. */
  method ConfirmDeleted(a: Api, scope: string, id: string, repo: string, ticks: nat) returns (ok: bool)
    modifies a`objects, a`refused
    ensures Shrunk(a.objects, old(a.objects), a.doomed) && (old(a.refused) ==> a.refused)
    ensures ok ==> Gone(a.objects, scope, id)
    ensures !ok && AllExact(old(a.objects), scope, id, repo) && !a.refused ==> !Gone(a.objects, scope, id)
  {
    var t := ticks;
    while true
      invariant Shrunk(a.objects, old(a.objects), a.doomed) && (old(a.refused) ==> a.refused)
      decreases t
    {
      var listed, found, _ := ListExact(a, scope, id, repo);
      if !listed { return false; }
      if found == [] { return true; }
      if t == 0 {
        assert found[0] in a.objects && OfSpawn(a.objects[found[0]], scope, id);
        return false;
      }
      ghost var now := a.objects;
      a.Elapse();
      ShrinksOn(a.objects, now, old(a.objects), a.doomed, a.doomed);
      t := t - 1;
    }
  }

  /** The identity is consistent and every labelled object is exact. */
  ghost predicate Deletable(o: Objects, scope: string, secret: string, id: string, repo: string) {
    id != "" && repo != "" && secret == "rs-secret-" + id && AllExact(o, scope, id, repo)
  }

  /** The deletion of every object of the spawn was accepted. */
  ghost predicate AskedFor(o: Objects, doomed: set<Key>, scope: string, id: string) {
    forall k :: k in o && OfSpawn(o[k], scope, id) ==> k in doomed
  }

  /** `DeleteSpawnScoped`: success means none of the spawn's objects was left at the
      confirming list; no other spawn's object is touched, whatever happens. */
  method DeleteSpawn(a: Api, scope: string, secret: string, id: string, repo: string, ticks: nat) returns (ok: bool)
    modifies a`objects, a`doomed, a`refused
    ensures ok ==> Gone(a.objects, scope, id)
    ensures (old(a.refused) ==> a.refused) && (Deletable(old(a.objects), scope, secret, id, repo) && !a.refused ==>
              AskedFor(old(a.objects), a.doomed, scope, id) && (ok <==> Gone(a.objects, scope, id)))
    ensures Shrunk(a.objects, old(a.objects), a.doomed) && old(a.doomed) <= a.doomed
    ensures Targets(a.doomed, old(a.doomed), old(a.objects), scope, id, repo)
    ensures forall k :: k in old(a.objects) && Bystander(k, old(a.objects)[k], id, old(a.doomed)) ==>
                          k in a.objects && a.objects[k] == old(a.objects)[k]
    ensures secret != SecretOf(id) || id == "" || repo == "" ==> !ok && a.doomed == old(a.doomed)
  {
    if id == "" || repo == "" || secret != SecretOf(id) { return false; }
    var listed, found, _ := ListExact(a, scope, id, repo);
    if !listed { return false; }
    ok := DeleteEach(a, found);
    if ok {
      ghost var now := a.objects;
      ok := ConfirmDeleted(a, scope, id, repo, ticks);
      ShrinksOn(a.objects, now, old(a.objects), a.doomed, a.doomed);
    }
    forall k | k in old(a.objects) && Bystander(k, old(a.objects)[k], id, old(a.doomed))
      ensures k in a.objects && a.objects[k] == old(a.objects)[k]
    {
      BystandersStay(a.objects, old(a.objects), old(a.doomed), a.doomed, scope, id, repo, k);
    }
  }
}
