/** The backends' proved contracts are the promises the worker's program relies on: what a
    backend returns is an answer that `Worker.Possible` admits. */
module BackendAnswers {
  import Worker
  import ComposeBackend
  import KubeBackend
  import KubeRecovery

  /** How `Execute` reads the result of Backend.Spawn. */
  function SpawnAnswer(ok: bool, handle: bool): Worker.Choice {
    if ok then Worker.Succeed else if handle then Worker.FailDirty else Worker.FailClean
  }

  function TeardownAnswer(ok: bool): Worker.Choice { if ok then Worker.Succeed else Worker.FailDirty }

  /** A teardown answer is one the first attempt and every retry may get. */
  predicate TeardownPossible(v: Worker.View, x: Worker.Choice) {
    && (forall partial :: Worker.Possible(Worker.Cleaning(Worker.Teardown(partial)), v, x))
    && (forall runnerErr :: Worker.Possible(Worker.Cleaning(Worker.RetryBackend(runnerErr)), v, x))
  }

  lemma TeardownPossibleIf(v: Worker.View, ok: bool)
    requires ok ==> !v.stack
    ensures TeardownPossible(v, TeardownAnswer(ok))
  {
  }

  /** Removing what is covered and nothing else restores a set exactly when all that was added
      is covered. */
  lemma RestoredIff(was: set<nat>, mid: set<nat>, now: set<nat>, covered: set<nat>)
    requires was <= mid && covered !! was && mid - covered <= now <= mid && now !! covered
    ensures now == was <==> mid - was <= covered
  {
    if mid - was <= covered {
      forall i | i in was ensures i in now { assert i in mid - covered; }
      forall i | i in now ensures i in was { assert i !in was ==> i in mid - was; }
    } else {
      var i :| i in mid - was && i !in covered;
      assert i in mid - covered;
    }
  }

  // -------------------------------------------------------------------- compose

  /** The spawn has a stack while any container or network of it is left. */
  predicate ComposeStack(v: Worker.View, containers: set<nat>, networks: set<nat>) {
    v.stack <==> containers != {} || networks != {}
  }

  /** Spawn, and then teardown of its handle until it succeeds or is given up. Without a lost
      create every result on the way is an answer the worker admits; and when the cleanup is
      reported as done, the daemon is as before exactly then. */
  method ComposeAnswers(d: ComposeBackend.Daemon, attempts: nat, v: Worker.View, w: Worker.View)
    returns (ok: bool, torn: bool, h: ComposeBackend.Handle, ghost cs: set<nat>, ghost ns: set<nat>)
    requires d.Valid() && !d.lost
    modifies d
    ensures !ComposeBackend.LosesCreate(old(d.script), 3) && ComposeStack(v, cs, ns) ==>
              forall made :: Worker.Possible(Worker.Creating(Worker.SpawnCall(made)), v, SpawnAnswer(ok, h.Handle?))
    ensures !ComposeBackend.LosesCreate(old(d.script), 3)
            && ComposeStack(w, d.containers - old(d.containers), d.networks - old(d.networks)) ==>
              TeardownPossible(w, TeardownAnswer(torn))
    ensures torn ==>
              (d.containers == old(d.containers) && d.networks == old(d.networks) <==>
               !ComposeBackend.LosesCreate(old(d.script), 3))
  {
    ok, h := ComposeBackend.Spawn(d);
    cs, ns := d.containers - old(d.containers), d.networks - old(d.networks);
    ghost var containers, networks := d.containers, d.networks;
    torn := h.NoHandle?;
    if h.Handle? { torn := ComposeBackend.RetryTeardown(d, h, attempts); }
    ghost var covered, net := ComposeBackend.CoveredContainers(h), ComposeBackend.CoveredNetworks(h);
    if torn {
      RestoredIff(old(d.containers), containers, d.containers, covered);
      RestoredIff(old(d.networks), networks, d.networks, net);
    }
    assert ComposeBackend.Contract(h, cs, ns) <==> cs <= covered && ns <= net;
    if ComposeStack(w, d.containers - old(d.containers), d.networks - old(d.networks))
       && !ComposeBackend.LosesCreate(old(d.script), 3)
    {
      TeardownPossibleIf(w, torn);
    }
  }

  // ----------------------------------------------------------------- Kubernetes

  /** The spawn has a stack while any object carries its labels. */
  predicate KubeStack(v: Worker.View, o: KubeBackend.Objects, scope: string, id: string) {
    v.stack <==> exists k :: k in o && KubeBackend.OfSpawn(o[k], scope, id)
  }

  method KubeAnswers(
    a: KubeBackend.Api, scope: string, id: string, repo: string, tries: nat, ticks: nat, v: Worker.View,
    w: Worker.View)
    returns (ok: bool, torn: bool, h: KubeRecovery.Handle, ghost mid: KubeBackend.Objects)
    requires repo != ""
    modifies a
    ensures KubeStack(v, mid, scope, id) ==>
              forall made :: Worker.Possible(Worker.Creating(Worker.SpawnCall(made)), v, SpawnAnswer(ok, h.Handle?))
    ensures KubeStack(w, a.objects, scope, id) ==> TeardownPossible(w, TeardownAnswer(torn))
    ensures torn ==> KubeBackend.Gone(a.objects, scope, id)
  {
    ok, h := KubeRecovery.Spawn(a, scope, id, repo, ticks);
    mid := a.objects;
    torn := h.NoHandle?;
    if h.Handle? { torn := KubeRecovery.RetryTeardown(a, h, tries, ticks); }
    if KubeStack(w, a.objects, scope, id) { TeardownPossibleIf(w, torn); }
  }
}
