/** Cold-start reconciliation (cmd/orchestrator/coldstart.go): everything is listed and
    classified before anything is deleted, registrations go before the stacks they belong
    to, and only what this scope owns and nobody uses is touched. */
module ColdStart {

  datatype Reply<T> = Failed | Body(value: T)

  datatype Container = Container(id: string, name: string, role: string, spawnId: string, repo: string)

  datatype Handle = Handle(
    spawnId: string,
    backend: string,
    scope: string,
    repo: string,
    namespace: string,
    secret: string,
    runnerPod: string,
    proxyPod: string,
    repoLabel: string)

  datatype Runner = Runner(id: int, name: string, status: string, busy: bool, labels: seq<string>)

  datatype Target = Target(repo: string, id: int)

  datatype Action =
    | ListBackend
    | ListRunners(repo: string)
    | DeleteRunner(target: Target, ok: bool)
    | DeleteStack(id: string, ok: bool)

  datatype Outcome = Stopped | DeleteFailed | Cleaned

  const OWNER_LABEL := "runsecure-jit"
  const SCOPE_LABEL_PREFIX := "runsecure-scope-"

  // -------------------------------------------------------------------- ownership

  predicate HasPrefix(s: string, p: string) { |p| <= |s| && s[..|p|] == p }

  predicate HasSuffix(s: string, p: string) { |p| <= |s| && s[|s| - |p|..] == p }

  function TrimSuffix(s: string, p: string): string { if HasSuffix(s, p) then s[..|s| - |p|] else s }

  function TrimPrefix(s: string, p: string): string { if HasPrefix(s, p) then s[|p|..] else s }

  /** `validJITRunnerName` */
  predicate ValidName(name: string) {
    HasPrefix(name, "rs-") && HasSuffix(name, "-runner") && |TrimSuffix(TrimPrefix(name, "rs-"), "-runner")| > 0
  }

  function RunnerName(spawnId: string): string { "rs-" + spawnId + "-runner" }

  /** The check accepts the names of non-empty spawn ids and one name more: in "rs-runner"
      prefix and suffix share their hyphen. */
  lemma ValidNames(name: string)
    ensures ValidName(name) <==> name == "rs-runner" || exists id: string :: id != "" && name == RunnerName(id)
  {
    if ValidName(name) && name != "rs-runner" {
      LongEnough(name);
      var id := name[3..|name| - 7];
      assert name == name[..3] + id + name[|name| - 7..];
      assert name == RunnerName(id);
      MiddleIsId(name, id);
    }
    if id: string :| id != "" && name == RunnerName(id) { SpawnNameIsValid(id); }
    if name == "rs-runner" { assert name[3..] == "runner" && name[2..] == "-runner" && |"runner"| < |"-runner"|; }
  }

  lemma LongEnough(name: string)
    requires ValidName(name)
    ensures |name| >= 10 || name == "rs-runner"
  {
    assert |"rs-"| == 3 && |"-runner"| == 7;
    assert name[0] == name[..3][0] == 'r' && name[1] == name[..3][1] == 's';
    assert name[|name| - 7] == name[|name| - 7..][0] == '-';
    if |name| == 9 { assert name == name[..2] + name[2..] && name[..2] == name[..3][..2] == "rs"; }
  }

  lemma MiddleIsId(name: string, id: string)
    requires ValidName(name) && name == RunnerName(id)
    ensures id != ""
  {
  }

  lemma SpawnNameIsValid(id: string)
    requires id != ""
    ensures ValidName(RunnerName(id))
  {
  }

  /** A registration of this scope carries both of its labels. */
  predicate Owned(scope: string, r: Runner) { "runsecure-jit" in r.labels && "runsecure-scope-" + scope in r.labels }

  /** `runnerHasLabel` */
  method HasLabel(r: Runner, wanted: string) returns (has: bool)
    ensures has <==> wanted in r.labels
  {
    for i := 0 to |r.labels|
      invariant forall j :: 0 <= j < i ==> r.labels[j] != wanted
    {
      if r.labels[i] == wanted { return true; }
    }
    return false;
  }

  /** The runner lets the cleanup go on: it is not ours, or it is ours, offline and idle. */
  predicate RunnerFine(scope: string, wanted: set<string>, r: Runner) {
    && (r.name in wanted ==> Owned(scope, r))
    && (Owned(scope, r) ==> ValidName(r.name) && r.id > 0 && r.status == "offline" && !r.busy)
  }

  ghost predicate RepoFine(scope: string, wanted: set<string>, reply: Reply<seq<Runner>>) {
    reply.Body? && forall i :: 0 <= i < |reply.value| ==> RunnerFine(scope, wanted, reply.value[i])
  }

  /** The target is a registration of ours that nothing uses. */
  ghost predicate Deletable(scope: string, runners: string -> Reply<seq<Runner>>, t: Target) {
    && runners(t.repo).Body?
    && IdleAmong(scope, runners(t.repo).value, t.id)
  }

  ghost predicate IdleAmong(scope: string, list: seq<Runner>, id: int) {
    exists i :: 0 <= i < |list| && IsIdleOwned(scope, list[i]) && list[i].id == id
  }

  predicate IsIdleOwned(scope: string, r: Runner) { Owned(scope, r) && r.status == "offline" && !r.busy && r.id > 0 }

  /** Every registration of ours in the repository is among the targets. */
  ghost predicate Covers(scope: string, repo: string, list: seq<Runner>, targets: seq<Target>) {
    forall i :: 0 <= i < |list| && Owned(scope, list[i]) ==> Target(repo, list[i].id) in targets
  }

  // -------------------------------------------------------------------- the traces

  predicate Listing(a: Action) { a.ListBackend? || a.ListRunners? }

  ghost predicate AllListings(t: seq<Action>) { forall i :: 0 <= i < |t| ==> Listing(t[i]) }

  /** Only these registrations were deleted. */
  ghost predicate RunnerDeletes(t: seq<Action>, targets: seq<Target>) {
    forall i :: 0 <= i < |t| ==> t[i].DeleteRunner? && t[i].target in targets
  }

  ghost predicate StackDeletes(t: seq<Action>, ids: seq<string>) {
    forall i :: 0 <= i < |t| ==> t[i].DeleteStack? && t[i].id in ids
  }

  /** Some delete in this part was refused. */
  predicate AnyFailed(t: seq<Action>) { exists i :: 0 <= i < |t| && Refused(t[i]) }

  predicate Refused(a: Action) { (a.DeleteRunner? || a.DeleteStack?) && !a.ok }

  function Rank(a: Action): nat {
    match a
    case DeleteRunner(_, _) => 1
    case DeleteStack(_, _) => 2
    case _ => 0
  }

  ghost predicate InOrder(t: seq<Action>) { forall i, j :: 0 <= i < j < |t| ==> Rank(t[i]) <= Rank(t[j]) }

  lemma PartsAreInOrder(a: seq<Action>, b: seq<Action>, c: seq<Action>, targets: seq<Target>, ids: seq<string>)
    requires AllListings(a) && RunnerDeletes(b, targets) && StackDeletes(c, ids)
    ensures InOrder(a + b + c)
  {
    var t := a + b + c;
    forall i | 0 <= i < |t| ensures Rank(t[i]) == if i < |a| then 0 else if i < |a| + |b| then 1 else 2 {
      assert t[i] == if i < |a| then a[i] else if i < |a| + |b| then b[i - |a|] else c[i - |a| - |b|];
    }
  }

  /** GitHub and the backend: what they list, and the calls made on them. */
  class Outside {
    const containers: Reply<seq<Container>>
    const handles: Reply<seq<Handle>>
    const runners: string -> Reply<seq<Runner>>
    var trace: seq<Action>

    constructor (containers: Reply<seq<Container>>, handles: Reply<seq<Handle>>, runners: string -> Reply<seq<Runner>>)
      ensures this.containers == containers && this.handles == handles && this.runners == runners && trace == []
    {
      this.containers, this.handles, this.runners, trace := containers, handles, runners, [];
    }

    method Note(a: Action)
      modifies this`trace
      ensures trace == old(trace) + [a]
    {
      trace := trace + [a];
    }
  }

  // --------------------------------------------------------------- registrations

  method ClassifyRepo(scope: string, wanted: set<string>, repo: string, list: seq<Runner>)
    returns (ok: bool, targets: seq<Target>)
    ensures ok <==> forall i :: 0 <= i < |list| ==> RunnerFine(scope, wanted, list[i])
    ensures ok ==> Covers(scope, repo, list, targets)
    ensures ok ==> forall k :: 0 <= k < |targets| ==> targets[k].repo == repo && IdleAmong(scope, list, targets[k].id)
  {
    targets := [];
    var n := 0;
    while n < |list|
      invariant 0 <= n <= |list|
      invariant forall i :: 0 <= i < n ==> RunnerFine(scope, wanted, list[i])
      invariant Covers(scope, repo, list[..n], targets)
      invariant forall k :: 0 <= k < |targets| ==> targets[k].repo == repo && IdleAmong(scope, list, targets[k].id)
    {
      var r := list[n];
      var jit := HasLabel(r, OWNER_LABEL);
      var scoped := HasLabel(r, SCOPE_LABEL_PREFIX + scope);
      var owned := jit && scoped;
      if r.name in wanted && !owned { return false, []; }
      if owned {
        if !ValidName(r.name) || r.id <= 0 { return false, []; }
        if r.status != "offline" || r.busy { return false, []; }
        assert IsIdleOwned(scope, list[n]);
        targets := targets + [Target(repo, r.id)];
      }
      n := n + 1;
    }
    assert list[..n] == list;
    ok := true;
  }

  ghost predicate AllFine(
    scope: string, configured: seq<string>, wanted: set<string>, runners: string -> Reply<seq<Runner>>)
  {
    forall i :: 0 <= i < |configured| && configured[i] != "" ==> RepoFine(scope, wanted, runners(configured[i]))
  }

  ghost predicate AllCovered(
    scope: string, configured: seq<string>, runners: string -> Reply<seq<Runner>>, targets: seq<Target>)
  {
    forall i :: 0 <= i < |configured| && configured[i] != "" && runners(configured[i]).Body? ==>
        Covers(scope, configured[i], runners(configured[i]).value, targets)
  }

  ghost predicate OnlyDeletable(
    scope: string, configured: seq<string>, runners: string -> Reply<seq<Runner>>, targets: seq<Target>)
  {
    forall k :: 0 <= k < |targets| ==> targets[k].repo in configured && Deletable(scope, runners, targets[k])
  }

  lemma CoversMore(scope: string, repo: string, list: seq<Runner>, targets: seq<Target>, more: seq<Target>)
    requires Covers(scope, repo, list, targets)
    ensures Covers(scope, repo, list, targets + more) && Covers(scope, repo, list, more + targets)
  {
  }

  lemma OnlyDeletableMore(
    scope: string, configured: seq<string>, runners: string -> Reply<seq<Runner>>, targets: seq<Target>,
    more: seq<Target>)
    requires OnlyDeletable(scope, configured, runners, targets) && OnlyDeletable(scope, configured, runners, more)
    ensures OnlyDeletable(scope, configured, runners, targets + more)
  {
  }

  /** One repository of the listing loop of `cleanupRecoveredRunnerRegistrations`. */
  method ListRepo(out: Outside, scope: string, configured: seq<string>, wanted: set<string>, repo: string)
    returns (ok: bool, targets: seq<Target>)
    requires repo in configured
    modifies out`trace
    ensures out.trace == old(out.trace) + [ListRunners(repo)]
    ensures ok <==> RepoFine(scope, wanted, out.runners(repo))
    ensures ok ==>
              && Covers(scope, repo, out.runners(repo).value, targets)
              && OnlyDeletable(scope, configured, out.runners, targets)
  {
    out.Note(ListRunners(repo));
    var reply := out.runners(repo);
    if reply.Failed? { return false, []; }
    ok, targets := ClassifyRepo(scope, wanted, repo, reply.value);
  }

  /** Every configured repository is listed and classified, once. */
  method ListRegistrations(out: Outside, scope: string, configured: seq<string>, wanted: set<string>)
    returns (ok: bool, targets: seq<Target>, ghost lists: seq<Action>)
    modifies out`trace
    ensures out.trace == old(out.trace) + lists && AllListings(lists)
    ensures ok <==> AllFine(scope, configured, wanted, out.runners)
    ensures ok ==>
              && AllCovered(scope, configured, out.runners, targets)
              && OnlyDeletable(scope, configured, out.runners, targets)
  {
    targets, lists := [], [];
    var seen: set<string> := {};
    var n := 0;
    while n < |configured|
      invariant 0 <= n <= |configured|
      invariant out.trace == old(out.trace) + lists && AllListings(lists)
      invariant forall i :: 0 <= i < n && configured[i] != "" ==> configured[i] in seen
      invariant forall r :: r in seen ==>
                RepoFine(scope, wanted, out.runners(r)) && Covers(scope, r, out.runners(r).value, targets)
      invariant OnlyDeletable(scope, configured, out.runners, targets)
    {
      var repo := configured[n];
      if repo != "" && repo !in seen {
        var fine, more;
        fine, more := ListRepo(out, scope, configured, wanted, repo);
        lists := lists + [ListRunners(repo)];
        if !fine { return false, [], lists; }
        forall r | r in seen + {repo} ensures Covers(scope, r, out.runners(r).value, targets + more) {
          if r in seen { CoversMore(scope, r, out.runners(r).value, targets, more); }
          else { CoversMore(scope, r, out.runners(r).value, more, targets); }
        }
        OnlyDeletableMore(scope, configured, out.runners, targets, more);
        targets, seen := targets + more, seen + {repo};
      }
      n := n + 1;
    }
    ok := true;
  }

  method DeleteRegistrations(out: Outside, targets: seq<Target>) returns (ok: bool, ghost made: seq<Action>)
    modifies out`trace
    ensures out.trace == old(out.trace) + made && RunnerDeletes(made, targets)
    ensures ok ==> forall k :: 0 <= k < |targets| ==> DeleteRunner(targets[k], true) in made
    ensures !ok ==> AnyFailed(made)
  {
    made := [];
    var n := 0;
    while n < |targets|
      invariant 0 <= n <= |targets|
      invariant out.trace == old(out.trace) + made && RunnerDeletes(made, targets)
      invariant forall k :: 0 <= k < n ==> DeleteRunner(targets[k], true) in made
    {
      var deleted: bool := *;
      out.Note(DeleteRunner(targets[n], deleted));
      made := made + [DeleteRunner(targets[n], deleted)];
      assert made[|made| - 1] == DeleteRunner(targets[n], deleted);
      if !deleted { return false, made; }
      n := n + 1;
    }
    ok := true;
  }

  method DeleteStacks(out: Outside, ids: seq<string>) returns (ok: bool, ghost made: seq<Action>)
    modifies out`trace
    ensures out.trace == old(out.trace) + made && StackDeletes(made, ids)
    ensures ok ==> forall k :: 0 <= k < |ids| ==> DeleteStack(ids[k], true) in made
    ensures !ok ==> AnyFailed(made)
  {
    made := [];
    var n := 0;
    while n < |ids|
      invariant 0 <= n <= |ids|
      invariant out.trace == old(out.trace) + made && StackDeletes(made, ids)
      invariant forall k :: 0 <= k < n ==> DeleteStack(ids[k], true) in made
    {
      var deleted: bool := *;
      out.Note(DeleteStack(ids[n], deleted));
      made := made + [DeleteStack(ids[n], deleted)];
      assert made[|made| - 1] == DeleteStack(ids[n], deleted);
      if !deleted { return false, made; }
      n := n + 1;
    }
    ok := true;
  }

  /** The trace of a cleanup, in its three parts. */
  datatype Parts = Parts(lists: seq<Action>, runners: seq<Action>, stacks: seq<Action>)
  {
    function All(): seq<Action> { lists + runners + stacks }
  }

  /** What the deletes of a cleanup may and must be, given the stacks it owns. */
  ghost predicate Sound(
    o: Outcome, p: Parts, scope: string, configured: seq<string>, runners: string -> Reply<seq<Runner>>,
    ids: seq<string>)
  {
    && AllListings(p.lists) && InOrder(p.All())
    && (forall i :: 0 <= i < |p.runners| ==>
          && p.runners[i].DeleteRunner? && p.runners[i].target.repo in configured
          && Deletable(scope, runners, p.runners[i].target))
    && StackDeletes(p.stacks, ids)
    && (o.Stopped? ==> p.runners == [] && p.stacks == [])
    && (o.DeleteFailed? ==> AnyFailed(p.runners) || AnyFailed(p.stacks))
    && (o.Cleaned? ==> (forall k :: 0 <= k < |ids| ==> DeleteStack(ids[k], true) in p.stacks))
    && (o.Cleaned? || p.stacks != [] ==>
          forall i :: 0 <= i < |configured| && configured[i] != "" && runners(configured[i]).Body? ==>
              RunnersGone(scope, configured[i], runners(configured[i]).value, p.runners))
  }

  /** Every registration of ours in this list was deleted. */
  ghost predicate RunnersGone(scope: string, repo: string, list: seq<Runner>, made: seq<Action>) {
    forall i :: 0 <= i < |list| && Owned(scope, list[i]) ==> DeleteRunner(Target(repo, list[i].id), true) in made
  }

  lemma TargetsGone(
    scope: string, configured: seq<string>, runners: string -> Reply<seq<Runner>>, targets: seq<Target>,
    made: seq<Action>)
    requires AllCovered(scope, configured, runners, targets)
    requires forall k :: 0 <= k < |targets| ==> DeleteRunner(targets[k], true) in made
    ensures forall i :: 0 <= i < |configured| && configured[i] != "" && runners(configured[i]).Body? ==>
              RunnersGone(scope, configured[i], runners(configured[i]).value, made)
  {
  }

  /** The common tail of both cleanups: registrations, then stacks. */
  method Clean(out: Outside, scope: string, configured: seq<string>, wanted: set<string>, ids: seq<string>)
    returns (o: Outcome, ghost p: Parts)
    requires out.trace == [ListBackend]
    modifies out`trace
    ensures out.trace == p.All() && Sound(o, p, scope, configured, out.runners, ids)
    ensures o.Stopped? <==> !AllFine(scope, configured, wanted, out.runners)
  {
    ghost var lists, made, gone := [], [], [];
    var ok, targets;
    ok, targets, lists := ListRegistrations(out, scope, configured, wanted);
    lists := [ListBackend] + lists;
    PartsAreInOrder(lists, [], [], targets, ids);
    if !ok { return Stopped, Parts(lists, [], []); }
    ok, made := DeleteRegistrations(out, targets);
    PartsAreInOrder(lists, made, [], targets, ids);
    if !ok { return DeleteFailed, Parts(lists, made, []); }
    TargetsGone(scope, configured, out.runners, targets, made);
    ok, gone := DeleteStacks(out, ids);
    PartsAreInOrder(lists, made, gone, targets, ids);
    return if ok then Cleaned else DeleteFailed, Parts(lists, made, gone);
  }

  // -------------------------------------------------------------- the two backends

  predicate SpawnRole(role: string) { role == "runner" || role == "proxy" }

  /** A container without a spawn id must not claim a spawn role; one with an id must, and a
      runner must carry the name and a configured repository of its spawn. */
  predicate ContainerFine(c: Container, configured: seq<string>) {
    if c.spawnId == "" then !SpawnRole(c.role)
    else SpawnRole(c.role) && (c.role == "runner" ==> c.repo in configured && c.name == RunnerName(c.spawnId))
  }

  ghost predicate ContainersFine(cs: seq<Container>, configured: seq<string>) {
    forall i :: 0 <= i < |cs| ==> ContainerFine(cs[i], configured)
  }

  /** The runner names the recovered containers stand for. */
  function WantedNames(cs: seq<Container>): set<string> {
    set i | 0 <= i < |cs| && cs[i].spawnId != "" && cs[i].role == "runner" :: cs[i].name
  }

  /** The ids of the containers with a spawn id, in order. */
  function OwnedIds(cs: seq<Container>): seq<string> {
    if cs == [] then []
    else if cs[|cs| - 1].spawnId != "" then OwnedIds(cs[..|cs| - 1]) + [cs[|cs| - 1].id] else OwnedIds(cs[..|cs| - 1])
  }

  lemma {:induction false} OwnedIdsAre(cs: seq<Container>, id: string)
    ensures id in OwnedIds(cs) <==> exists i :: 0 <= i < |cs| && cs[i].spawnId != "" && cs[i].id == id
  {
    if cs != [] {
      var n := |cs| - 1;
      OwnedIdsAre(cs[..n], id);
      assert forall i :: 0 <= i < n ==> cs[..n][i] == cs[i];
    }
  }

  method ClassifyContainers(cs: seq<Container>, configured: seq<string>)
    returns (ok: bool, wanted: set<string>, owned: seq<string>)
    ensures ok <==> ContainersFine(cs, configured)
    ensures ok ==> wanted == WantedNames(cs) && owned == OwnedIds(cs)
  {
    wanted, owned := {}, [];
    var n := 0;
    while n < |cs|
      invariant 0 <= n <= |cs| && forall i :: 0 <= i < n ==> ContainerFine(cs[i], configured)
      invariant wanted == WantedNames(cs[..n]) && owned == OwnedIds(cs[..n])
    {
      var c := cs[n];
      ContainersMore(cs, n);
      if c.spawnId == "" {
        if c.role == "runner" || c.role == "proxy" { return false, {}, []; }
      } else {
        if c.role != "runner" && c.role != "proxy" { return false, {}, []; }
        owned := owned + [c.id];
        if c.role == "runner" {
          var name := "rs-" + c.spawnId + "-runner";
          if c.repo !in configured || c.name != name { return false, {}, []; }
          wanted := wanted + {name};
        }
      }
      n := n + 1;
    }
    assert cs[..n] == cs;
    ok := true;
  }

  lemma ContainersMore(cs: seq<Container>, n: nat)
    requires n < |cs|
    ensures WantedNames(cs[..n + 1])
            == WantedNames(cs[..n]) + if cs[n].spawnId != "" && cs[n].role == "runner" then {cs[n].name} else {}
    ensures OwnedIds(cs[..n + 1]) == OwnedIds(cs[..n]) + if cs[n].spawnId != "" then [cs[n].id] else []
  {
    assert cs[..n + 1][..n] == cs[..n];
    assert forall i :: 0 <= i < n ==> cs[..n + 1][i] == cs[..n][i];
    assert cs[..n + 1][n] == cs[n];
  }

  /** Everything the Docker cleanup checks before it deletes. */
  ghost predicate DockerFine(out: Outside, scope: string, configured: seq<string>) {
    && out.containers.Body? && ContainersFine(out.containers.value, configured)
    && AllFine(scope, configured, WantedNames(out.containers.value), out.runners)
  }

  /** `cleanupRecoveredSpawns` */
  method CleanupDocker(out: Outside, scope: string, configured: seq<string>) returns (o: Outcome, ghost p: Parts)
    requires out.trace == []
    modifies out`trace
    ensures o.Stopped? <==> !DockerFine(out, scope, configured)
    ensures out.trace == p.All()
    ensures var ids := if out.containers.Body? then OwnedIds(out.containers.value) else [];
            Sound(o, p, scope, configured, out.runners, ids)
  {
    out.Note(ListBackend);
    PartsAreInOrder([ListBackend], [], [], [], []);
    if out.containers.Failed? { return Stopped, Parts([ListBackend], [], []); }
    var ok, wanted, owned := ClassifyContainers(out.containers.value, configured);
    if !ok { return Stopped, Parts([ListBackend], [], []); }
    o, p := Clean(out, scope, configured, wanted, owned);
  }

  /** Names and backend of a handle are those its spawn has. */
  predicate OwnNames(h: Handle) {
    && h.backend == "kube" && h.spawnId != ""
    && h.secret == "rs-secret-" + h.spawnId && h.runnerPod == "rs-runner-" + h.spawnId
  }

  /** The check of `validateRecoveredKubeHandles` on one handle; `labels` are those of the
      configured repositories. */
  predicate StrangeInScope(h: Handle, namespace: string, labels: set<string>) {
    || h.backend != "kube" || h.spawnId == "" || h.namespace != namespace
    || h.secret != "rs-secret-" + h.spawnId || h.runnerPod != "rs-runner-" + h.spawnId
    || h.repoLabel !in labels
  }

  /** The check of `validateRecoveredKubeHandlesForProjects` on one handle. */
  predicate StrangeForProjects(h: Handle, scope: string, namespaces: map<string, string>, labelOf: string -> string) {
    || h.repo !in namespaces || namespaces[h.repo] == "" || h.backend != "kube" || h.spawnId == ""
    || h.scope != scope || h.namespace != namespaces[h.repo] || h.repoLabel != labelOf(h.repo)
    || h.secret != "rs-secret-" + h.spawnId || h.runnerPod != "rs-runner-" + h.spawnId
    || (h.proxyPod != "" && h.proxyPod != "rs-proxy-" + h.spawnId)
  }

  /** Repository, namespace and label are one enrolment, and the names are the spawn's. */
  predicate FineForProjects(h: Handle, scope: string, namespaces: map<string, string>, labelOf: string -> string) {
    && OwnNames(h) && h.scope == scope
    && h.repo in namespaces && namespaces[h.repo] != "" && h.namespace == namespaces[h.repo]
    && h.repoLabel == labelOf(h.repo)
    && (h.proxyPod == "" || h.proxyPod == "rs-proxy-" + h.spawnId)
  }

  ghost predicate NoSpawnTwice(hs: seq<Handle>) {
    forall i, j :: 0 <= i < j < |hs| ==> hs[i].spawnId != hs[j].spawnId
  }

  /** Every handle is one this controller could have made, and no spawn occurs twice. */
  ghost predicate HandlesFine(hs: seq<Handle>, fine: Handle -> bool) {
    (forall i :: 0 <= i < |hs| ==> fine(hs[i])) && NoSpawnTwice(hs)
  }

  function SpawnIds(hs: seq<Handle>): seq<string> { seq(|hs|, i requires 0 <= i < |hs| => hs[i].spawnId) }

  function HandleNames(hs: seq<Handle>): set<string> { set i | 0 <= i < |hs| :: RunnerName(hs[i].spawnId) }

  lemma NamesMore(hs: seq<Handle>, n: nat)
    requires n < |hs|
    ensures HandleNames(hs[..n + 1]) == HandleNames(hs[..n]) + {RunnerName(hs[n].spawnId)}
  {
    forall d ensures d in HandleNames(hs[..n + 1]) <==> d in HandleNames(hs[..n]) || d == RunnerName(hs[n].spawnId) {
      NameIn(hs, n, d);
      NameIn(hs, n + 1, d);
      if d == RunnerName(hs[n].spawnId) { assert 0 <= n < n + 1; }
    }
  }

  lemma NameIn(hs: seq<Handle>, n: nat, d: string)
    requires n <= |hs|
    ensures d in HandleNames(hs[..n]) <==> exists i :: 0 <= i < n && RunnerName(hs[i].spawnId) == d
  {
    assert forall i :: 0 <= i < n ==> hs[..n][i] == hs[i];
    if i :| 0 <= i < n && RunnerName(hs[i].spawnId) == d { assert RunnerName(hs[..n][i].spawnId) == d; }
  }

  /** Both validators: each handle fine, and no spawn twice. */
  method ValidateHandles(hs: seq<Handle>, fine: Handle -> bool) returns (ok: bool, wanted: set<string>)
    ensures ok <==> HandlesFine(hs, fine)
    ensures ok ==> wanted == HandleNames(hs)
  {
    wanted := {};
    var seen: set<string> := {};
    var n := 0;
    while n < |hs|
      invariant 0 <= n <= |hs| && forall i :: 0 <= i < n ==> fine(hs[i])
      invariant forall i, j :: 0 <= i < j < n ==> hs[i].spawnId != hs[j].spawnId
      invariant wanted == HandleNames(hs[..n])
      invariant seen == set i | 0 <= i < n :: hs[i].spawnId
    {
      if !fine(hs[n]) || hs[n].spawnId in seen { return false, {}; }
      NamesMore(hs, n);
      seen := seen + {hs[n].spawnId};
      wanted := wanted + {RunnerName(hs[n].spawnId)};
      n := n + 1;
    }
    assert hs[..n] == hs;
    ok := true;
  }

  ghost predicate KubeFine(out: Outside, scope: string, configured: seq<string>, fine: Handle -> bool) {
    && out.handles.Body? && HandlesFine(out.handles.value, fine)
    && AllFine(scope, configured, HandleNames(out.handles.value), out.runners)
  }

  /** `cleanupRecoveredKubeSpawnsValidated`, whichever validator it is given. */
  method CleanupKube(out: Outside, scope: string, configured: seq<string>, fine: Handle -> bool)
    returns (o: Outcome, ghost p: Parts)
    requires out.trace == []
    modifies out`trace
    ensures o.Stopped? <==> !KubeFine(out, scope, configured, fine)
    ensures out.trace == p.All()
    ensures Sound(o, p, scope, configured, out.runners, if out.handles.Body? then SpawnIds(out.handles.value) else [])
  {
    out.Note(ListBackend);
    PartsAreInOrder([ListBackend], [], [], [], []);
    if out.handles.Failed? { return Stopped, Parts([ListBackend], [], []); }
    var ok, wanted := ValidateHandles(out.handles.value, fine);
    if !ok { return Stopped, Parts([ListBackend], [], []); }
    o, p := Clean(out, scope, configured, wanted, SpawnIds(out.handles.value));
  }

  /** Every recovered spawn is one this scope could have made, all are different, and every
      registration is fine. */
  ghost predicate ScopeFine(
    out: Outside, scope: string, configured: seq<string>, namespace: string, labelOf: string -> string)
  {
    && out.handles.Body?
    && (forall h :: h in out.handles.value ==>
          OwnNames(h) && h.namespace == namespace && LabelledFor(h, configured, labelOf))
    && NoSpawnTwice(out.handles.value)
    && AllFine(scope, configured, HandleNames(out.handles.value), out.runners)
  }

  /** The same against the enrolment of each spawn's own repository. */
  ghost predicate ProjectsFine(
    out: Outside, scope: string, repos: seq<string>, namespaces: map<string, string>, labelOf: string -> string)
  {
    && out.handles.Body?
    && (forall h :: h in out.handles.value ==> FineForProjects(h, scope, namespaces, labelOf))
    && NoSpawnTwice(out.handles.value)
    && AllFine(scope, repos, HandleNames(out.handles.value), out.runners)
  }

  predicate LabelledFor(h: Handle, configured: seq<string>, labelOf: string -> string) {
    exists r :: r in configured && h.repoLabel == labelOf(r)
  }

  /** `cleanupRecoveredKubeSpawns` */
  method CleanupKubeScope(
    out: Outside, scope: string, configured: seq<string>, namespace: string, labelOf: string -> string)
    returns (o: Outcome, ghost p: Parts)
    requires out.trace == []
    modifies out`trace
    ensures out.trace == p.All()
    ensures Sound(o, p, scope, configured, out.runners, if out.handles.Body? then SpawnIds(out.handles.value) else [])
    ensures o.Stopped? <==> !ScopeFine(out, scope, configured, namespace, labelOf)
  {
    var labels := set r | r in configured :: labelOf(r);
    o, p := CleanupKube(out, scope, configured, h => !StrangeInScope(h, namespace, labels));
  }

  /** `cleanupRecoveredKubeSpawnsForProjects`: nothing is deleted unless every recovered spawn
      lies in the namespace its own repository is enrolled with. */
  method CleanupKubeForProjects(
    out: Outside, scope: string, repos: seq<string>, namespaces: map<string, string>, labelOf: string -> string)
    returns (o: Outcome, ghost p: Parts)
    requires out.trace == [] && forall r :: r in repos <==> r in namespaces
    modifies out`trace
    ensures out.trace == p.All()
    ensures Sound(o, p, scope, repos, out.runners, if out.handles.Body? then SpawnIds(out.handles.value) else [])
    ensures o.Stopped? <==> !ProjectsFine(out, scope, repos, namespaces, labelOf)
  {
    o, p := CleanupKube(out, scope, repos, h => !StrangeForProjects(h, scope, namespaces, labelOf));
    assert forall h :: StrangeForProjects(h, scope, namespaces, labelOf) <==>
                       !FineForProjects(h, scope, namespaces, labelOf);
  }
}
