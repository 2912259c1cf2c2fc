/** What the Kubernetes backend promises the worker (internal/backend/kube/kube.go), and
    recovery after crashes: a namespace holding any prefixes of any spawns' creations is
    listed exactly and can be deleted exactly. */
module KubeRecovery {
  import opened KubeBackend

  // ----------------------------------------------------------- the backend contract

  datatype Handle = NoHandle | Handle(scope: string, id: string, repo: string, secret: string)

  lemma PlanIsExact(scope: string, id: string, repo: string, j: nat)
    requires j < 7 && repo != ""
    ensures OfSpawn(Plan(scope, id, repo)[j].meta, scope, id)
    ensures Exact(Plan(scope, id, repo)[j].key, Plan(scope, id, repo)[j].meta, id, repo)
  {
  }

  lemma PlanKeysDiffer(scope: string, id: string, repo: string, i: nat, j: nat)
    requires i < j < 7
    ensures Plan(scope, id, repo)[i].key != Plan(scope, id, repo)[j].key
  {
    assert ResourceName("runner-egress", id)[3] == 'r' && ResourceName("runner", id)[3] == 'r';
    assert ResourceName("proxy-egress", id)[3] == 'p' && ResourceName("proxy-egress", id)[9] == 'e';
    assert ResourceName("proxy-ingress", id)[3] == 'p' && ResourceName("proxy-ingress", id)[9] == 'i';
    assert ResourceName("proxy", id)[3] == 'p';
  }

  /** The plan's objects, and only they, are added. */
  lemma {:induction false} WithAt(o: Objects, plan: seq<Created>, k: Key)
    ensures k in With(o, plan) <==> k in o || exists j :: 0 <= j < |plan| && plan[j].key == k
    ensures (forall j :: 0 <= j < |plan| ==> plan[j].key != k) ==> (k in With(o, plan) ==> With(o, plan)[k] == o[k])
    ensures k in With(o, plan) && (exists j :: 0 <= j < |plan| && plan[j].key == k) ==>
              exists j :: 0 <= j < |plan| && plan[j] == Created(k, With(o, plan)[k])
  {
    if plan != [] {
      var n := |plan| - 1;
      WithAt(o, plan[..n], k);
      assert forall j :: 0 <= j < n ==> plan[..n][j] == plan[j];
      if plan[n].key == k { assert plan[n] == Created(k, With(o, plan)[k]); }
    }
  }

  /** Every object in the namespace after a partial creation is an old one or a planned one. */
  lemma AddedIsPlanned(o: Objects, scope: string, id: string, repo: string, n: nat, k: Key)
    requires n <= 7
    requires k in With(o, Plan(scope, id, repo)[..n])
    ensures (k in o && With(o, Plan(scope, id, repo)[..n])[k] == o[k])
            || exists j :: 0 <= j < n && Plan(scope, id, repo)[j] == Created(k, With(o, Plan(scope, id, repo)[..n])[k])
  {
    var plan := Plan(scope, id, repo);
    WithAt(o, plan[..n], k);
    if exists j :: 0 <= j < n && plan[..n][j].key == k {
      var j :| 0 <= j < n && plan[..n][j] == Created(k, With(o, plan[..n])[k]);
      assert plan[j] == Created(k, With(o, plan[..n])[k]);
    }
  }

  lemma PlannedIsAdded(o: Objects, scope: string, id: string, repo: string, n: nat, j: nat)
    requires j < n <= 7
    ensures Plan(scope, id, repo)[j].key in With(o, Plan(scope, id, repo)[..n])
    ensures With(o, Plan(scope, id, repo)[..n])[Plan(scope, id, repo)[j].key] == Plan(scope, id, repo)[j].meta
  {
    var plan := Plan(scope, id, repo);
    var k := plan[j].key;
    assert plan[..n][j].key == k;
    WithAt(o, plan[..n], k);
    var i :| 0 <= i < n && plan[..n][i] == Created(k, With(o, plan[..n])[k]);
    if i < j { PlanKeysDiffer(scope, id, repo, i, j); }
    if j < i { PlanKeysDiffer(scope, id, repo, j, i); }
  }

  /** Everything Spawn made that is still there carries the labels its handle names. */
  ghost predicate Covered(now: Objects, was: Objects, scope: string, id: string) {
    forall k :: k in now ==> (k in was && now[k] == was[k]) || OfSpawn(now[k], scope, id)
  }

  /** `Spawn`'s API part: an error without a handle leaves nothing of the spawn; an error
      with a handle leaves only objects that the handle's labels select, each of which the
      exact delete accepts; success leaves all seven. */
  method Spawn(a: Api, scope: string, id: string, repo: string, ticks: nat) returns (ok: bool, h: Handle)
    requires repo != ""
    modifies a
    ensures ok ==> h.Handle? && forall j :: 0 <= j < 7 ==> Present(a.objects, Plan(scope, id, repo)[j])
    ensures !ok ==> a.refused
    ensures h == NoHandle || h == Handle(scope, id, repo, SecretOf(id))
    ensures h == NoHandle ==> Gone(a.objects, scope, id)
    ensures Covered(a.objects, old(a.objects), scope, id)
    ensures AllExact(old(a.objects), scope, id, repo) ==> AllExact(a.objects, scope, id, repo)
    ensures forall k :: k in old(a.objects) && Bystander(k, old(a.objects)[k], id, old(a.doomed)) ==>
                          k in a.objects && a.objects[k] == old(a.objects)[k]
  {
    ghost var made;
    ok, made := ApplySpawn(a, scope, id, repo);
    h := Handle(scope, id, repo, SecretOf(id));
    ghost var mid := a.objects;
    forall k | k in mid
      ensures || (k in old(a.objects) && mid[k] == old(a.objects)[k])
              || (OfSpawn(mid[k], scope, id) && Exact(k, mid[k], id, repo))
    {
      CreatedExactly(old(a.objects), scope, id, repo, made, k);
    }
    forall k | k in old(a.objects) ensures k in mid && mid[k] == old(a.objects)[k] {
      WithAt(old(a.objects), Plan(scope, id, repo)[..made], k);
    }
    if !ok {
      var cleaned := DeleteSpawn(a, scope, SecretOf(id), id, repo, ticks);
      if cleaned { h := NoHandle; }
      return;
    }
    forall j | 0 <= j < 7 ensures Present(a.objects, Plan(scope, id, repo)[j]) {
      PlannedIsAdded(old(a.objects), scope, id, repo, 7, j);
    }
  }

  lemma CreatedExactly(o: Objects, scope: string, id: string, repo: string, n: nat, k: Key)
    requires n <= 7 && repo != ""
    requires k in With(o, Plan(scope, id, repo)[..n])
    ensures var now := With(o, Plan(scope, id, repo)[..n])[k];
            (k in o && now == o[k]) || (OfSpawn(now, scope, id) && Exact(k, now, id, repo))
  {
    AddedIsPlanned(o, scope, id, repo, n, k);
    var now := With(o, Plan(scope, id, repo)[..n])[k];
    if !(k in o && now == o[k]) {
      var j :| 0 <= j < n && Plan(scope, id, repo)[j] == Created(k, now);
      PlanIsExact(scope, id, repo, j);
    }
  }

  /** `Teardown` of a handle, retried while it fails: when it reports success nothing of the
      spawn is left, and no try touches another spawn or makes the exact delete refuse. */
  method RetryTeardown(a: Api, h: Handle, tries: nat, ticks: nat) returns (ok: bool)
    requires h.Handle?
    modifies a
    ensures ok ==> Gone(a.objects, h.scope, h.id)
    ensures tries > 0 && Deletable(old(a.objects), h.scope, h.secret, h.id, h.repo) && !a.refused ==>
              AskedFor(old(a.objects), a.doomed, h.scope, h.id) && (ok <==> Gone(a.objects, h.scope, h.id))
    ensures AllExact(old(a.objects), h.scope, h.id, h.repo) ==> AllExact(a.objects, h.scope, h.id, h.repo)
    ensures forall k :: k in old(a.objects) && Bystander(k, old(a.objects)[k], h.id, old(a.doomed)) ==>
                          k in a.objects && a.objects[k] == old(a.objects)[k]
  {
    ok := false;
    var t := 0;
    while t < tries && !ok
      invariant 0 <= t <= tries
      invariant ok ==> Gone(a.objects, h.scope, h.id)
      invariant t == 0 ==> a.objects == old(a.objects)
      invariant t > 0 && Deletable(old(a.objects), h.scope, h.secret, h.id, h.repo) && !a.refused ==>
                  AskedFor(old(a.objects), a.doomed, h.scope, h.id) && (ok <==> Gone(a.objects, h.scope, h.id))
      invariant Shrunk(a.objects, old(a.objects), a.doomed) && old(a.doomed) <= a.doomed
      invariant Targets(a.doomed, old(a.doomed), old(a.objects), h.scope, h.id, h.repo)
    {
      ghost var now, doomed := a.objects, a.doomed;
      ok := DeleteSpawn(a, h.scope, h.secret, h.id, h.repo, ticks);
      ShrinksOn(a.objects, now, old(a.objects), doomed, a.doomed);
      AskedOnce(old(a.objects), now, doomed, a.doomed, h.scope, h.id);
      t := t + 1;
    }
    forall k | k in old(a.objects) && Bystander(k, old(a.objects)[k], h.id, old(a.doomed))
      ensures k in a.objects && a.objects[k] == old(a.objects)[k]
    {
      BystandersStay(a.objects, old(a.objects), old(a.doomed), a.doomed, h.scope, h.id, h.repo, k);
    }
  }

  lemma AskedOnce(was: Objects, now: Objects, doomed: set<Key>, more: set<Key>, scope: string, id: string)
    requires doomed <= more
    ensures AskedFor(was, doomed, scope, id) ==> AskedFor(was, more, scope, id)
    ensures now == was && AskedFor(now, more, scope, id) ==> AskedFor(was, more, scope, id)
  {
  }

  // ----------------------------------------------------------------- what names say

  /** The seven objects of a spawn, by kind and name. */
  lemma PlanNames(scope: string, id: string, repo: string)
    ensures var plan := Plan(scope, id, repo);
            && |plan| == 7
            && plan[0].key == Key(Secret, "rs-secret-" + id) && plan[1].key == Key(Service, "rs-proxy-svc-" + id)
            && plan[2].key == Key(NetworkPolicy, "rs-runner-egress-" + id)
            && plan[3].key == Key(NetworkPolicy, "rs-proxy-egress-" + id)
            && plan[4].key == Key(NetworkPolicy, "rs-proxy-ingress-" + id)
            && plan[5].key == Key(Pod, "rs-proxy-" + id) && plan[6].key == Key(Pod, "rs-runner-" + id)
  {
    assert "rs-" + "secret" + "-" == "rs-secret-" && "rs-" + "proxy-svc" + "-" == "rs-proxy-svc-";
    assert "rs-" + "runner-egress" + "-" == "rs-runner-egress-" && "rs-" + "proxy-egress" + "-" == "rs-proxy-egress-";
    assert "rs-" + "proxy-ingress" + "-" == "rs-proxy-ingress-";
    assert "rs-" + "proxy" + "-" == "rs-proxy-" && "rs-" + "runner" + "-" == "rs-runner-";
  }

  /** A reference names the runner Pod and the Secret that the spawn's creation makes. */
  lemma RefNamesPlan(scope: string, id: string, repo: string)
    ensures RefOf(id, repo).id == id && RefOf(id, repo).repo == repo
    ensures Plan(scope, id, repo)[0].key == Key(Secret, RefOf(id, repo).secret)
    ensures Plan(scope, id, repo)[6].key == Key(Pod, RefOf(id, repo).runnerPod)
  {
  }

  /** An object is exact for a spawn exactly when the spawn's creation makes an object of that
      kind, name and role, its repository is named and wanted, and every owner it has is the
      spawn's Secret. */
  lemma ExactIsPlanned(k: Key, m: Meta, scope: string, id: string, repo: string)
    ensures Exact(k, m, id, repo) <==>
              && (exists j :: 0 <= j < 7 && IsPlanned(k, m.role, Plan(scope, id, m.repo)[j]))
              && m.repo != "" && (repo == "" || m.repo == repo)
              && forall o :: o in m.owners ==> o == OwnerRef(true, "rs-secret-" + id)
  {
    PlanNames(scope, id, m.repo);
    var plan := Plan(scope, id, m.repo);
    assert ExpectedRole(k, id, m.role) <==>
      || IsPlanned(k, m.role, plan[0]) || IsPlanned(k, m.role, plan[1]) || IsPlanned(k, m.role, plan[2])
      || IsPlanned(k, m.role, plan[3]) || IsPlanned(k, m.role, plan[4]) || IsPlanned(k, m.role, plan[5])
      || IsPlanned(k, m.role, plan[6]);
  }

  predicate IsPlanned(k: Key, role: Role, c: Created) { c.key == k && c.meta.role == role }

  // ------------------------------------------------------------- crashes and recovery

  /** How far the creation of a spawn got before the process died. */
  datatype Cut = Cut(repo: string, made: nat)

  /** The labelled objects in scope are exactly these prefixes of these spawns' creations. */
  ghost predicate Crashed(o: Objects, scope: string, cuts: map<string, Cut>) {
    && (forall id :: id in cuts ==> id != "" && cuts[id].repo != "" && cuts[id].made <= 7)
    && (forall k :: k in o && OfScope(o[k], scope) ==> InCut(k, o[k], scope, cuts))
    && (forall id, j :: id in cuts && 0 <= j < cuts[id].made && cuts[id].made <= 7 ==>
          Present(o, Plan(scope, id, cuts[id].repo)[j]))
  }

  ghost predicate InCut(k: Key, m: Meta, scope: string, cuts: map<string, Cut>) {
    && m.spawn.Label? && m.spawn.value in cuts && cuts[m.spawn.value].made <= 7
    && var id := m.spawn.value;
       exists j :: 0 <= j < cuts[id].made && Plan(scope, id, cuts[id].repo)[j] == Created(k, m)
  }

  predicate Present(o: Objects, c: Created) { c.key in o && o[c.key] == c.meta }

  /** One more creation, cut anywhere, keeps the description. */
  lemma CrashAdds(o: Objects, scope: string, cuts: map<string, Cut>, id: string, repo: string, n: nat)
    requires Crashed(o, scope, cuts) && id !in cuts && id != "" && repo != "" && n <= 7
    requires forall j :: 0 <= j < n ==> Plan(scope, id, repo)[j].key !in o
    ensures Crashed(With(o, Plan(scope, id, repo)[..n]), scope, cuts[id := Cut(repo, n)])
  {
    var plan, now, more := Plan(scope, id, repo), With(o, Plan(scope, id, repo)[..n]), cuts[id := Cut(repo, n)];
    forall k | k in now && OfScope(now[k], scope) ensures InCut(k, now[k], scope, more) {
      AddedIsPlanned(o, scope, id, repo, n, k);
      if k in o && now[k] == o[k] {
        assert InCut(k, o[k], scope, cuts);
      }
    }
    forall i, j | i in more && 0 <= j < more[i].made && more[i].made <= 7
      ensures Present(now, Plan(scope, i, more[i].repo)[j])
    {
      if i == id {
        PlannedIsAdded(o, scope, id, repo, n, j);
      } else {
        assert Present(o, Plan(scope, i, cuts[i].repo)[j]);
        StaysPresent(o, plan[..n], Plan(scope, i, cuts[i].repo)[j]);
      }
    }
  }

  lemma StaysPresent(o: Objects, plan: seq<Created>, c: Created)
    requires Present(o, c) && forall j :: 0 <= j < |plan| ==> plan[j].key !in o
    ensures Present(With(o, plan), c)
  {
    WithAt(o, plan, c.key);
  }

  lemma CutIsProper(k: Key, m: Meta, scope: string, cuts: map<string, Cut>)
    requires InCut(k, m, scope, cuts) && m.spawn.value != "" && cuts[m.spawn.value].repo != ""
    ensures Proper(k, m) && m.repo == cuts[m.spawn.value].repo
    ensures Exact(k, m, m.spawn.value, m.repo)
  {
    var id, repo := m.spawn.value, cuts[m.spawn.value].repo;
    var j :| 0 <= j < cuts[id].made && Plan(scope, id, repo)[j] == Created(k, m);
    PlanIsExact(scope, id, repo, j);
  }

  /** Whatever prefixes crashes left, listing succeeds when the API answers, and deletion of
      each spawn meets only exact objects. */
  lemma CrashesAreDiscoverable(o: Objects, scope: string, cuts: map<string, Cut>)
    requires Crashed(o, scope, cuts)
    ensures Discoverable(o, scope)
    ensures forall id :: id in cuts ==> AllExact(o, scope, id, cuts[id].repo)
  {
    forall k | k in o && OfScope(o[k], scope)
      ensures Proper(k, o[k]) && o[k].repo == cuts[o[k].spawn.value].repo && Exact(k, o[k], o[k].spawn.value, o[k].repo)
    {
      CutIsProper(k, o[k], scope, cuts);
    }
  }

  /** The listing names exactly the spawns with at least one object, each with the names
      and repository its creation used. */
  lemma ListingIsExact(o: Objects, scope: string, cuts: map<string, Cut>, refs: map<string, SpawnRef>)
    requires Crashed(o, scope, cuts) && Found(refs, o, InScope(o, scope))
    ensures refs == map id | id in cuts && cuts[id].made > 0 :: RefOf(id, cuts[id].repo)
  {
    forall id | id in refs ensures id in cuts && cuts[id].made > 0 && refs[id] == RefOf(id, cuts[id].repo) {
      var k :| k in InScope(o, scope) && k in o && o[k].spawn == Label(id);
      CutIsProper(k, o[k], scope, cuts);
    }
    forall id | id in cuts && cuts[id].made > 0 ensures id in refs {
      var c := Plan(scope, id, cuts[id].repo)[0];
      assert Present(o, c);
      assert OfScope(o[c.key], scope) && c.key in InScope(o, scope);
    }
  }

  /** In whatever crashes left, the Secret of every object's spawn is there and deleting it
      reaches the object. */
  lemma CascadeReachesAll(o: Objects, scope: string, cuts: map<string, Cut>, k: Key)
    requires Crashed(o, scope, cuts) && k in o && OfScope(o[k], scope)
    ensures var secret := Key(Secret, SecretOf(o[k].spawn.value));
            secret in o && OfSpawn(o[secret], scope, o[k].spawn.value) && Perishable(k, o[k], {secret})
  {
    var id := o[k].spawn.value;
    var repo := cuts[id].repo;
    var j :| 0 <= j < cuts[id].made && Plan(scope, id, repo)[j] == Created(k, o[k]);
    assert Present(o, Plan(scope, id, repo)[0]);
    if j > 0 { assert OwnerRef(true, SecretOf(id)) in o[k].owners; }
  }

  /** A teardown stopped anywhere leaves a namespace that recovery still accepts. */
  lemma TeardownKeepsDiscoverable(now: Objects, was: Objects, doomed: set<Key>, scope: string)
    requires Discoverable(was, scope) && Shrunk(now, was, doomed)
    ensures Discoverable(now, scope)
  {
    forall k | k in now && OfScope(now[k], scope) ensures Proper(k, now[k]) { assert k in was && now[k] == was[k]; }
  }

  /** The recovery of a namespace: list, then tear down each spawn found. With the API
      answering, the listing succeeds exactly when the namespace is discoverable, as crashed
      creations and teardowns leave it; success leaves no labelled object in scope. */
  method Recover(a: Api, scope: string, ghost cuts: map<string, Cut>, ticks: nat)
    returns (ok: bool, listed: bool, refs: map<string, SpawnRef>, ghost answered: bool)
    modifies a
    ensures answered ==> (listed <==> Discoverable(old(a.objects), scope))
    ensures listed ==> answered && Found(refs, old(a.objects), InScope(old(a.objects), scope))
    ensures listed && Crashed(old(a.objects), scope, cuts) ==>
              refs == map id | id in cuts && cuts[id].made > 0 :: RefOf(id, cuts[id].repo)
    ensures ok ==> listed && InScope(a.objects, scope) == {}
    ensures Discoverable(old(a.objects), scope) && !a.refused ==> listed && (ok <==> InScope(a.objects, scope) == {})
    ensures !listed ==> !ok && a.objects == old(a.objects) && a.doomed == old(a.doomed)
    ensures Shrunk(a.objects, old(a.objects), a.doomed)
    ensures Discoverable(old(a.objects), scope) ==> Discoverable(a.objects, scope)
  {
    listed, refs, answered := ListSpawns(a, scope);
    if !listed { return false, false, refs, answered; }
    ListedIsExact(a.objects, scope, cuts, refs);
    ghost var was := a.objects;
    FoundAreDeletable(a.objects, scope, refs);
    ok := TeardownEach(a, scope, refs, ticks);
    if !ok && !a.refused {
      var id :| id in refs && !Gone(a.objects, scope, id);
      var k :| k in a.objects && OfSpawn(a.objects[k], scope, id);
      assert k in InScope(a.objects, scope);
    }
    if ok { NothingLeft(a.objects, was, a.doomed, scope, refs); }
    TeardownKeepsDiscoverable(a.objects, was, a.doomed, scope);
  }

  lemma ListedIsExact(o: Objects, scope: string, cuts: map<string, Cut>, refs: map<string, SpawnRef>)
    requires Found(refs, o, InScope(o, scope))
    ensures Crashed(o, scope, cuts) ==> refs == map id | id in cuts && cuts[id].made > 0 :: RefOf(id, cuts[id].repo)
  {
    if Crashed(o, scope, cuts) { ListingIsExact(o, scope, cuts, refs); }
  }

  method TeardownEach(a: Api, scope: string, refs: map<string, SpawnRef>, ticks: nat) returns (ok: bool)
    modifies a
    ensures Shrunk(a.objects, old(a.objects), a.doomed)
    ensures ok ==> forall id :: id in refs ==> Gone(a.objects, scope, id)
    ensures old(a.refused) ==> a.refused
    ensures !ok && AllDeletable(old(a.objects), scope, refs) && !a.refused ==>
              exists id :: id in refs && !Gone(a.objects, scope, id)
  {
    var rest := refs.Keys;
    while rest != {}
      invariant rest <= refs.Keys
      invariant Shrunk(a.objects, old(a.objects), a.doomed)
      invariant forall id :: id in refs && id !in rest ==> Gone(a.objects, scope, id)
      invariant old(a.refused) ==> a.refused
    {
      var id :| id in rest;
      ghost var now, doomed := a.objects, a.doomed;
      StillDeletable(old(a.objects), now, doomed, scope, refs, id);
      var done := DeleteSpawn(a, scope, refs[id].secret, id, refs[id].repo, ticks);
      ShrinksOn(a.objects, now, old(a.objects), doomed, a.doomed);
      if !done { return false; }
      forall i | i in refs && i !in rest ensures Gone(a.objects, scope, i) {
        GoneStays(now, a.objects, a.doomed, scope, i);
      }
      rest := rest - {id};
    }
    ok := true;
  }

  ghost predicate AllDeletable(o: Objects, scope: string, refs: map<string, SpawnRef>) {
    forall id :: id in refs ==> Deletable(o, scope, refs[id].secret, id, refs[id].repo)
  }

  lemma StillDeletable(
    was: Objects, now: Objects, doomed: set<Key>, scope: string, refs: map<string, SpawnRef>, id: string)
    requires Shrunk(now, was, doomed) && id in refs
    ensures AllDeletable(was, scope, refs) ==> Deletable(now, scope, refs[id].secret, id, refs[id].repo)
  {
  }

  /** Every reference of a discoverable namespace can be deleted exactly. */
  lemma FoundAreDeletable(o: Objects, scope: string, refs: map<string, SpawnRef>)
    requires Discoverable(o, scope) && Found(refs, o, InScope(o, scope))
    ensures AllDeletable(o, scope, refs)
  {
    forall id | id in refs ensures Deletable(o, scope, refs[id].secret, id, refs[id].repo) {
      var j :| j in InScope(o, scope) && j in o && o[j].spawn == Label(id);
      assert Proper(j, o[j]);
      assert "rs-" + "secret" + "-" == "rs-secret-";
      forall k | k in o && OfSpawn(o[k], scope, id) ensures Exact(k, o[k], id, refs[id].repo) {
        assert k in InScope(o, scope) && Proper(k, o[k]);
      }
    }
  }

  lemma GoneStays(was: Objects, now: Objects, doomed: set<Key>, scope: string, id: string)
    requires Shrunk(now, was, doomed) && Gone(was, scope, id)
    ensures Gone(now, scope, id)
  {
  }

  lemma NothingLeft(now: Objects, was: Objects, doomed: set<Key>, scope: string, refs: map<string, SpawnRef>)
    requires Shrunk(now, was, doomed) && Found(refs, was, InScope(was, scope))
    requires forall id :: id in refs ==> Gone(now, scope, id)
    ensures InScope(now, scope) == {}
  {
    forall k | k in now ensures !OfScope(now[k], scope) {
      if OfScope(now[k], scope) {
        assert k in InScope(was, scope);
        assert OfSpawn(now[k], scope, now[k].spawn.value);
      }
    }
  }
}
