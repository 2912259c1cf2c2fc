/** The compose backend (internal/backend/compose/compose.go over internal/docker/spawn.go):
    creation with rollback, and teardown of exactly what a handle names. The daemon may
    refuse any call, and may apply a create or a delete and still report an error. */
module ComposeBackend {

  type Id = nat

  datatype Role = Proxy | Runner

  /** What happened to a create: `Lost` is applied at the daemon but reported as an error. */
  datatype CreateReply = Created | Refused | Lost

  datatype DeleteReply = Deleted | NotDeleted | DeletedUnreported

  class Daemon {
    var containers: set<Id>
    var networks: set<Id>
    var nextId: Id
    var started: set<Id>
    /** How the daemon will answer the coming creates; refused when it runs out. */
    var script: seq<CreateReply>
    /** Some create since construction was applied but reported as an error. */
    ghost var lost: bool
    /** Some call since construction reported an error. */
    ghost var refused: bool

    ghost predicate Valid()
      reads this
    {
      forall i :: i in containers || i in networks ==> i < nextId
    }

    constructor (script: seq<CreateReply>)
      ensures Valid() && containers == {} && networks == {} && !lost && !refused && this.script == script
    {
      containers, networks, started, nextId, lost, refused := {}, {}, {}, 0, false, false;
      this.script := script;
    }

    method NextReply() returns (reply: CreateReply)
      modifies this`script
      ensures reply == (if old(script) == [] then Refused else old(script)[0])
      ensures script == (if old(script) == [] then [] else old(script)[1..])
    {
      if script == [] { return Refused; }
      reply := script[0];
      script := script[1..];
    }

    method CreateContainer() returns (ok: bool, id: Id)
      requires Valid()
      modifies this
      ensures Valid() && networks == old(networks) && nextId == old(nextId) + 1 && id == old(nextId)
      ensures ok ==> containers == old(containers) + {id} && lost == old(lost)
      ensures !ok ==> || (containers == old(containers) && lost == old(lost))
                      || (containers == old(containers) + {id} && lost)
      ensures lost == (old(lost) || (old(script) != [] && old(script)[0].Lost?))
      ensures refused == (old(refused) || !ok) && ok == (old(script) != [] && old(script)[0].Created?)
      ensures script == (if old(script) == [] then [] else old(script)[1..])
    {
      var reply := NextReply();
      id := nextId;
      nextId := nextId + 1;
      refused := refused || !reply.Created?;
      match reply
      case Created =>
        containers := containers + {id};
        ok := true;
      case Refused => ok := false;
      case Lost =>
        containers, lost := containers + {id}, true;
        ok := false;
    }

    method CreateNetwork() returns (ok: bool, id: Id)
      requires Valid()
      modifies this
      ensures Valid() && containers == old(containers) && nextId == old(nextId) + 1 && id == old(nextId)
      ensures ok ==> networks == old(networks) + {id} && lost == old(lost)
      ensures !ok ==> || (networks == old(networks) && lost == old(lost))
                      || (networks == old(networks) + {id} && lost)
      ensures lost == (old(lost) || (old(script) != [] && old(script)[0].Lost?))
      ensures refused == (old(refused) || !ok) && ok == (old(script) != [] && old(script)[0].Created?)
      ensures script == (if old(script) == [] then [] else old(script)[1..])
    {
      var reply := NextReply();
      id := nextId;
      nextId := nextId + 1;
      refused := refused || !reply.Created?;
      match reply
      case Created =>
        networks := networks + {id};
        ok := true;
      case Refused => ok := false;
      case Lost =>
        networks, lost := networks + {id}, true;
        ok := false;
    }

    method StartContainer(id: Id) returns (ok: bool)
      modifies this`refused, this`started
      ensures refused == (old(refused) || !ok)
      ensures started == old(started) + if ok then {id} else {}
    {
      ok := *;
      if ok { started := started + {id}; }
      refused := refused || !ok;
    }

    method DeleteContainer(id: Id, force: bool) returns (ok: bool)
      requires Valid()
      modifies this`containers, this`refused
      ensures Valid() && (containers == old(containers) - {id} || (!ok && containers == old(containers)))
      ensures refused == (old(refused) || !ok)
    {
      var reply: DeleteReply := *;
      if !reply.NotDeleted? { containers := containers - {id}; }
      ok := reply.Deleted?;
      refused := refused || !ok;
    }

    method DeleteNetwork(id: Id) returns (ok: bool)
      requires Valid()
      modifies this`networks, this`refused
      ensures Valid() && (networks == old(networks) - {id} || (!ok && networks == old(networks)))
      ensures refused == (old(refused) || !ok)
    {
      var reply: DeleteReply := *;
      if !reply.NotDeleted? { networks := networks - {id}; }
      ok := reply.Deleted?;
      refused := refused || !ok;
    }
  }

  /** The first of the next k answers that is not a success is a lost one. */
  predicate LosesCreate(script: seq<CreateReply>, k: nat) {
    k > 0 && script != [] && (script[0].Lost? || (script[0].Created? && LosesCreate(script[1..], k - 1)))
  }

  lemma LosesOneOfTwo(script: seq<CreateReply>)
    ensures LosesCreate(script, 2) <==>
              script != [] && (script[0].Lost? || (script[0].Created? && |script| > 1 && script[1].Lost?))
  {
    if script != [] { assert LosesCreate(script[1..], 1) <==> |script| > 1 && script[1].Lost?; }
  }

  /** `RolledBack` is an error after which every created container was deleted;
      `Incomplete` is SpawnRollbackError. */
  datatype Outcome = Started | RolledBack | Incomplete

  /** The rollback closure: delete every created container, in any order. */
  method Rollback(d: Daemon, created: map<Role, Id>) returns (complete: bool)
    requires d.Valid()
    modifies d`containers, d`refused
    ensures d.Valid() && (old(d.refused) ==> d.refused) && (!complete ==> d.refused)
    ensures old(d.containers) - created.Values <= d.containers <= old(d.containers)
    ensures complete ==> d.containers == old(d.containers) - created.Values
  {
    complete := true;
    var rest := created;
    ghost var gone: set<Id> := {};
    while rest != map[]
      invariant rest.Keys <= created.Keys && forall r :: r in rest ==> rest[r] == created[r]
      invariant gone == (set r | r in created && r !in rest :: created[r])
      invariant d.Valid() && (old(d.refused) ==> d.refused) && (!complete ==> d.refused)
      invariant old(d.containers) - created.Values <= d.containers <= old(d.containers)
      invariant complete ==> d.containers == old(d.containers) - gone
      decreases |rest|
    {
      var role :| role in rest;
      var ok := d.DeleteContainer(rest[role], true);
      if !ok { complete := false; }
      gone := gone + {rest[role]};
      rest := rest - {role};
    }
    assert gone == created.Values;
  }

  lemma ValuesOf(m: map<Role, Id>)
    ensures m.Values == (if Proxy in m then {m[Proxy]} else {}) + (if Runner in m then {m[Runner]} else {})
  {
    forall v | v in m.Values
      ensures v in (if Proxy in m then {m[Proxy]} else {}) + (if Runner in m then {m[Runner]} else {})
    {
      var r :| r in m && m[r] == v;
      match r { case Proxy => case Runner => }
    }
  }

  /** `docker.Spawn`: proxy, then runner, then start both; any failure rolls back. */
  method SpawnContainers(d: Daemon) returns (outcome: Outcome, created: map<Role, Id>)
    requires d.Valid() && !d.lost
    modifies d
    ensures d.Valid() && d.networks == old(d.networks)
    ensures old(d.containers) <= d.containers
    ensures forall i :: i in created.Values ==> i >= old(d.nextId)
    ensures outcome.Started? ==> !d.lost
    ensures !outcome.Started? ==> d.refused
    ensures outcome.Started? ==> created.Keys == {Proxy, Runner} && d.containers == old(d.containers) + created.Values
    ensures outcome.Started? ==> created[Proxy] != created[Runner] && created.Values <= d.started
    ensures !d.lost ==> d.containers <= old(d.containers) + created.Values
    ensures !d.lost && outcome.RolledBack? ==> d.containers == old(d.containers)
    ensures d.lost <==> LosesCreate(old(d.script), 2)
    ensures d.lost ==> exists i :: i in d.containers && i !in old(d.containers) && i !in created.Values
  {
    created := map[];
    LosesOneOfTwo(d.script);
    var ok, proxy := d.CreateContainer();
    if !ok {
      assert d.lost ==> proxy in d.containers;
      outcome := RolledBack;
      return;
    }
    created := created[Proxy := proxy];
    var runner;
    ok, runner := d.CreateContainer();
    if !ok {
      ValuesOf(created);
      ghost var before := d.containers;
      var complete := Rollback(d, created);
      assert runner in before ==> runner in d.containers && runner !in created.Values;
      assert d.lost ==> runner in before && runner !in old(d.containers);
      outcome := if complete then RolledBack else Incomplete;
      return;
    }
    created := created[Runner := runner];
    ValuesOf(created);
    ok := d.StartContainer(proxy);
    if ok { ok := d.StartContainer(runner); }
    if !ok {
      var complete := Rollback(d, created);
      outcome := if complete then RolledBack else Incomplete;
      return;
    }
    outcome := Started;
  }

  datatype Handle = NoHandle | Handle(network: Id, refs: map<Role, Id>)

  function CoveredContainers(h: Handle): set<Id> { if h.NoHandle? then {} else h.refs.Values }

  function CoveredNetworks(h: Handle): set<Id> { if h.NoHandle? then {} else {h.network} }

  /** What `Execute` relies on: an empty handle on an error means nothing is left, and a
      handle covers everything that may be left. */
  ghost predicate Contract(h: Handle, containers: set<Id>, networks: set<Id>) {
    containers <= CoveredContainers(h) && networks <= CoveredNetworks(h)
  }

  /** Compose's Spawn meets the backend contract exactly when the first of its three creates
      that does not succeed, if any, was not applied: a network or container whose create was
      applied and reported as an error is in no handle. */
  method Spawn(d: Daemon) returns (ok: bool, h: Handle)
    requires d.Valid() && !d.lost
    modifies d
    ensures d.Valid() && old(d.containers) <= d.containers && old(d.networks) <= d.networks
    ensures Contract(h, d.containers - old(d.containers), d.networks - old(d.networks)) <==>
              !LosesCreate(old(d.script), 3)
    ensures d.lost <==> LosesCreate(old(d.script), 3)
    ensures old(d.script) != [] && old(d.script)[0].Lost? ==> !ok && h.NoHandle?
    ensures ok ==> !d.lost && h.Handle? && h.refs.Keys == {Proxy, Runner}
    ensures !ok ==> d.refused
    ensures ok ==> d.containers == old(d.containers) + h.refs.Values && d.networks == old(d.networks) + {h.network}
    ensures ok ==> h.refs.Values <= d.started && h.refs[Proxy] != h.refs[Runner]
    ensures h.Handle? ==> h.network !in old(d.networks) && h.refs.Values !! old(d.containers)
  {
    var net;
    ok, net := d.CreateNetwork();
    if !ok {
      assert net !in old(d.networks) && (d.lost ==> net in d.networks - old(d.networks));
      return false, NoHandle;
    }
    assert net !in old(d.networks);
    var outcome, created := SpawnContainers(d);
    h := Handle(net, created);
    if outcome.Started? { return true, h; }
    ghost var spawned := d.containers;
    var deleted := d.DeleteNetwork(net);
    assert d.containers == spawned;
    if outcome.RolledBack? && deleted { h := NoHandle; }
    if d.lost {
      var i :| i in d.containers && i !in old(d.containers) && i !in created.Values;
      assert i in d.containers - old(d.containers);
    }
    ok := false;
  }

  /** The contract fails on a network that is created although the daemon's answer is lost:
      Spawn reports an error with an empty handle and the network stays. */
  method LostNetworkIsNotCovered() returns (h: Handle, containers: set<Id>, networks: set<Id>)
    ensures h.NoHandle? && !Contract(h, containers, networks)
  {
    var d := new Daemon([Lost]);
    assert LosesCreate([Lost], 3);
    var ok;
    ok, h := Spawn(d);
    containers, networks := d.containers, d.networks;
  }

  /** Teardown attempts every part of the handle. Success means all of it is gone; in any
      case nothing outside the handle is touched. */
  method Teardown(d: Daemon, h: Handle, force: bool) returns (ok: bool)
    requires d.Valid() && h.Handle?
    modifies d`containers, d`networks, d`refused
    ensures d.Valid()
    ensures old(d.containers) - CoveredContainers(h) <= d.containers <= old(d.containers)
    ensures old(d.networks) - CoveredNetworks(h) <= d.networks <= old(d.networks)
    ensures ok ==> d.containers !! CoveredContainers(h) && d.networks !! CoveredNetworks(h)
    ensures (old(d.refused) ==> d.refused) && (!ok ==> d.refused)
  {
    ok := true;
    var roles := [Runner, Proxy];
    for k := 0 to 2
      invariant d.Valid() && d.networks == old(d.networks) && (old(d.refused) ==> d.refused) && (!ok ==> d.refused)
      invariant old(d.containers) - CoveredContainers(h) <= d.containers <= old(d.containers)
      invariant ok ==> forall j :: 0 <= j < k && roles[j] in h.refs ==> h.refs[roles[j]] !in d.containers
    {
      var role := roles[k];
      if role in h.refs {
        var deleted := d.DeleteContainer(h.refs[role], role.Proxy? || force);
        if !deleted { ok := false; }
      }
    }
    assert ok ==> forall r :: r in h.refs ==> r == roles[0] || r == roles[1];
    var deleted := d.DeleteNetwork(h.network);
    if !deleted { ok := false; }
  }

  /** The exact retry: however often a failed teardown is repeated, success means that
      nothing the handle covers is left, and nothing else was touched. */
  method RetryTeardown(d: Daemon, h: Handle, attempts: nat) returns (ok: bool)
    requires d.Valid() && h.Handle?
    modifies d`containers, d`networks, d`refused
    ensures d.Valid()
    ensures old(d.containers) - CoveredContainers(h) <= d.containers <= old(d.containers)
    ensures old(d.networks) - CoveredNetworks(h) <= d.networks <= old(d.networks)
    ensures ok ==> d.containers !! CoveredContainers(h) && d.networks !! CoveredNetworks(h)
    ensures attempts > 0 && !ok ==> d.refused
  {
    ok := false;
    var left := attempts;
    while left > 0 && !ok
      invariant d.Valid() && (left < attempts && !ok ==> d.refused) && left <= attempts
      invariant old(d.containers) - CoveredContainers(h) <= d.containers <= old(d.containers)
      invariant old(d.networks) - CoveredNetworks(h) <= d.networks <= old(d.networks)
      invariant ok ==> d.containers !! CoveredContainers(h) && d.networks !! CoveredNetworks(h)
    {
      ok := Teardown(d, h, true);
      left := left - 1;
    }
  }
}
