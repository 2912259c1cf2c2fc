/** The bounded search for the job a vanished runner executed (internal/github/queue.go,
    recentJobSearcher) and the correlation built on it (internal/orchestrator/lifecycle.go).
    Replies may change from call to call; every bound holds against every server, and the
    meaning of "not found" is stated for servers whose data stays fixed. */
module JobSearch {

  const PAGE_SIZE: nat := 100

  /** defaultJobCorrelationMaxRuns, defaultJobCorrelationMaxCalls */
  const CORRELATION_RUNS: nat := 50
  const CORRELATION_CALLS: nat := 64

  datatype Job = Job(id: int, runId: int, status: string, runnerId: int, runnerName: string)

  datatype Runner = Runner(id: int, name: string)

  /** `workflowJobMatchesRunner` and `jobMatchesRunner`, which are the same test. */
  predicate Matches(j: Job, w: Runner) {
    && (j.status == "in_progress" || j.status == "completed")
    && if j.runnerId > 0 && w.id > 0 then j.runnerId == w.id else w.name != "" && j.runnerName == w.name
  }

  /** The job ran, or runs, on the runner: it has been picked up, and its runner has this id
      where both ids are known, or else this name. */
  ghost predicate RanOn(j: Job, w: Runner) {
    && j.status in {"in_progress", "completed"}
    && (|| (0 < w.id && 0 < j.runnerId && j.runnerId == w.id)
        || ((w.id <= 0 || j.runnerId <= 0) && w.name != "" && j.runnerName == w.name))
  }

  datatype Reply<T> = Failed | Missing | Body(value: T)

  /** A server answers each request with anything, possibly differently at each call number. */
  datatype Server = Server(
    runs: (string, nat, nat) -> Reply<seq<int>>,
    jobs: (int, nat, nat) -> Reply<seq<Job>>,
    job: (int, nat) -> Reply<Job>)

  /** Data that does not change: runs by status and page, jobs by run and page, jobs by id. */
  datatype Site = Site(runs: (string, nat) -> seq<int>, jobs: (int, nat) -> seq<Job>, job: int -> Reply<Job>)

  /** The server answers from the site whenever it answers at all. */
  ghost predicate Serves(server: Server, site: Site) {
    && (forall s, p, n :: server.runs(s, p, n).Body? ==> server.runs(s, p, n).value == site.runs(s, p))
    && (forall r, p, n :: server.jobs(r, p, n).Body? ==> server.jobs(r, p, n).value == site.jobs(r, p))
    && (forall j, n :: !server.job(j, n).Failed? ==> server.job(j, n) == site.job(j))
  }

  /** The server answers every request. */
  ghost predicate Flawless(server: Server) {
    && (forall s, p, n :: server.runs(s, p, n).Body?)
    && (forall r, p, n :: server.jobs(r, p, n).Body?)
    && (forall j, n :: !server.job(j, n).Failed?)
  }

  /** Some answer showed the end of the run's jobs, or of the status's runs. */
  ghost predicate RunEnds(server: Server, run: int) {
    exists p, n :: server.jobs(run, p, n).Body? && |server.jobs(run, p, n).value| < 100
  }

  ghost predicate StatusEnds(server: Server, status: string) {
    exists p, n :: server.runs(status, p, n).Body? && |server.runs(status, p, n).value| < 100
  }

  /** All three listings were read to an end. */
  ghost predicate ListingsEnd(server: Server) {
    StatusEnds(server, "queued") && StatusEnds(server, "in_progress") && StatusEnds(server, "completed")
  }

  function Statuses(): seq<string> { ["queued", "in_progress", "completed"] }

  /** Page p is at or before the first short page. */
  ghost predicate JobsPage(site: Site, run: int, p: nat) {
    1 <= p && forall q :: 1 <= q < p ==> |site.jobs(run, q)| >= 100
  }

  ghost predicate RunsPage(site: Site, status: string, p: nat) {
    1 <= p && forall q :: 1 <= q < p ==> |site.runs(status, q)| >= 100
  }

  ghost predicate NoneOnPage(site: Site, w: Runner, run: int, p: nat) {
    forall i :: 0 <= i < |site.jobs(run, p)| ==> !RanOn(site.jobs(run, p)[i], w)
  }

  ghost predicate NoneInRun(site: Site, w: Runner, run: int) {
    forall p :: JobsPage(site, run, p) ==> NoneOnPage(site, w, run, p)
  }

  ghost predicate NoneOnRunsPage(site: Site, w: Runner, status: string, p: nat) {
    forall i :: 0 <= i < |site.runs(status, p)| ==> NoneInRun(site, w, site.runs(status, p)[i])
  }

  ghost predicate NoneInStatus(site: Site, w: Runner, status: string) {
    forall p :: RunsPage(site, status, p) ==> NoneOnRunsPage(site, w, status, p)
  }

  ghost predicate NoneAmong(site: Site, w: Runner, priority: seq<int>) {
    forall i :: 0 <= i < |priority| && priority[i] > 0 ==> NoneInRun(site, w, priority[i])
  }

  /** No job anywhere the search is meant to look ran on this runner. */
  ghost predicate NoneAnywhere(site: Site, w: Runner, priority: seq<int>) {
    && NoneAmong(site, w, priority)
    && NoneInStatus(site, w, "queued") && NoneInStatus(site, w, "in_progress") && NoneInStatus(site, w, "completed")
  }

  /** The job found is a matching job of that run, with the run's id stamped on it. */
  ghost predicate Evidence(site: Site, w: Runner, j: Job) {
    exists p, i :: JobsPage(site, j.runId, p) && 0 <= i < |site.jobs(j.runId, p)|
      && RanOn(site.jobs(j.runId, p)[i], w) && j == site.jobs(j.runId, p)[i].(runId := j.runId)
  }

  /** The run is one the search is meant to look at. */
  ghost predicate Eligible(site: Site, priority: seq<int>, run: int) {
    || (run in priority && run > 0)
    || exists s, p :: s in {"queued", "in_progress", "completed"} && RunsPage(site, s, p) && run in site.runs(s, p)
  }

  /** Evidence in an eligible run refutes a clean no-match: the two results exclude each other. */
  lemma EvidenceRefutesNone(site: Site, w: Runner, priority: seq<int>, j: Job)
    requires Evidence(site, w, j) && Eligible(site, priority, j.runId)
    ensures !NoneAnywhere(site, w, priority)
  {
    var p, i :|
      && JobsPage(site, j.runId, p) && 0 <= i < |site.jobs(j.runId, p)|
      && RanOn(site.jobs(j.runId, p)[i], w) && j == site.jobs(j.runId, p)[i].(runId := j.runId);
    assert !NoneOnPage(site, w, j.runId, p);
    assert !NoneInRun(site, w, j.runId);
    if j.runId in priority && j.runId > 0 {
      var k :| 0 <= k < |priority| && priority[k] == j.runId;
    } else {
      var s, q :| s in {"queued", "in_progress", "completed"} && RunsPage(site, s, q) && j.runId in site.runs(s, q);
      assert !NoneOnRunsPage(site, w, s, q);
      assert !NoneInStatus(site, w, s);
    }
  }

  /** A page with fewer than a hundred jobs ends the run. */
  lemma ShortPageEnds(site: Site, w: Runner, run: int, last: nat)
    requires 1 <= last && |site.jobs(run, last)| < 100
    requires forall p :: 1 <= p <= last ==> NoneOnPage(site, w, run, p)
    ensures NoneInRun(site, w, run)
  {
    forall p: nat | JobsPage(site, run, p) ensures NoneOnPage(site, w, run, p) {
      assert last < p ==> |site.jobs(run, last)| >= 100;
    }
  }

  lemma ShortListEnds(site: Site, w: Runner, status: string, last: nat)
    requires 1 <= last && |site.runs(status, last)| < 100
    requires forall p :: 1 <= p <= last ==> NoneOnRunsPage(site, w, status, p)
    ensures NoneInStatus(site, w, status)
  {
    forall p: nat | RunsPage(site, status, p) ensures NoneOnRunsPage(site, w, status, p) {
      assert last < p ==> |site.runs(status, last)| >= 100;
    }
  }

  // ------------------------------------------------------------------ the searcher

  /** The API client; `calls` is the number of requests made through it. */
  class GitHub {
    const server: Server
    var calls: nat

    constructor (server: Server)
      ensures this.server == server && calls == 0
    {
      this.server, calls := server, 0;
    }

    method Runs(status: string, page: nat) returns (r: Reply<seq<int>>)
      modifies this
      ensures calls == old(calls) + 1 && r == server.runs(status, page, calls)
    {
      calls := calls + 1;
      r := server.runs(status, page, calls);
    }

    method Jobs(run: int, page: nat) returns (r: Reply<seq<Job>>)
      modifies this
      ensures calls == old(calls) + 1 && r == server.jobs(run, page, calls)
    {
      calls := calls + 1;
      r := server.jobs(run, page, calls);
    }

    /** `GetWorkflowJob` */
    method OneJob(id: int) returns (r: Reply<Job>)
      modifies this
      ensures calls == old(calls) + 1 && r == server.job(id, calls)
    {
      calls := calls + 1;
      r := server.job(id, calls);
    }
  }

  datatype Outcome = Hit | Miss | RunBound | CallBound | ApiError

  class Searcher {
    const gh: GitHub
    const who: Runner
    const priority: seq<int>
    const maxRuns: nat
    const maxCalls: nat
    /** Requests made before this search. */
    ghost const before: nat
    ghost const site: Site

    var job: Job
    var found: bool
    var runsExamined: nat
    var apiCalls: nat
    var seen: set<int>
    /** The runs searched, in order. */
    ghost var searched: seq<int>

    constructor (gh: GitHub, who: Runner, priority: seq<int>, maxRuns: nat, maxCalls: nat, ghost site: Site)
      ensures this.gh == gh && this.who == who && this.priority == priority && this.site == site
      ensures this.maxRuns == maxRuns && this.maxCalls == maxCalls && before == gh.calls
      ensures Valid() && Clear() && !found && apiCalls == 0 && runsExamined == 0
    {
      this.gh, this.who, this.priority, this.site := gh, who, priority, site;
      this.maxRuns, this.maxCalls := maxRuns, maxCalls;
      before := gh.calls;
      job, found, runsExamined, apiCalls := Job(0, 0, "", 0, ""), false, 0, 0;
      seen, searched := {}, [];
    }

    /** Both budgets are kept and count what was really done, and no run is searched twice. */
    ghost predicate Valid() reads this, gh {
      && Budgets() && |searched| == runsExamined
      && (forall i :: 0 <= i < |searched| ==> searched[i] in seen)
      && (forall i, j :: 0 <= i < j < |searched| ==> searched[i] != searched[j])
    }

    ghost predicate Budgets() reads this, gh {
      apiCalls <= maxCalls && runsExamined <= maxRuns && gh.calls == before + apiCalls
    }

    /** Every run already searched was read to its end and held no match. */
    ghost predicate Clear() reads this {
      && (forall r :: r in seen ==> RunEnds(gh.server, r))
      && (Serves(gh.server, site) ==> forall r :: r in seen ==> NoneInRun(site, who, r))
    }

    ghost predicate Budgeted(o: Outcome) reads this {
      && (o == CallBound ==> apiCalls == maxCalls)
      && (o == RunBound ==> runsExamined == maxRuns)
      && (o == ApiError ==> !Flawless(gh.server))
    }

    /** What an outcome means for the budgets; a bound is reported only when it is spent. */
    ghost predicate Honest(o: Outcome) reads this {
      && Budgeted(o) && (o == Hit <==> found)
      && (o == Hit && Serves(gh.server, site) ==> Evidence(site, who, job))
    }

    /** One page of `searchRun`: what a miss means, and whether more pages follow. */
    method SearchPage(run: int, page: nat) returns (o: Outcome, full: bool)
      requires Valid() && !found
      modifies this`apiCalls, this`job, this`found, gh
      ensures Valid() && Budgeted(o) && o != RunBound && (o == Hit <==> found)
      ensures old(apiCalls) <= apiCalls && (o == Miss ==> apiCalls == old(apiCalls) + 1)
      ensures o == Hit ==>
                job.runId == run && (Serves(gh.server, site) && JobsPage(site, run, page) ==> Evidence(site, who, job))
      ensures o == Miss && Serves(gh.server, site) ==>
                NoneOnPage(site, who, run, page) && (full <==> |site.jobs(run, page)| >= 100)
      ensures o == Miss && !full ==> RunEnds(gh.server, run)
    {
      full := false;
      if apiCalls >= maxCalls { return CallBound, false; }
      apiCalls := apiCalls + 1;
      var reply := gh.Jobs(run, page);
      if !reply.Body? { return ApiError, false; }
      var k := FirstMatch(reply.value, who);
      if k < |reply.value| {
        job, found := reply.value[k].(runId := run), true;
        return Hit, false;
      }
      o, full := Miss, |reply.value| >= PAGE_SIZE;
    }

    /** `searchRun` */
    method SearchRun(run: int) returns (o: Outcome)
      requires Budgets() && !found && |searched| + 1 == runsExamined
      requires run in seen && forall i :: 0 <= i < |searched| ==> searched[i] in seen && searched[i] != run
      requires forall i, j :: 0 <= i < j < |searched| ==> searched[i] != searched[j]
      modifies this`apiCalls, this`job, this`found, this`searched, gh
      ensures Valid() && Honest(o) && o != RunBound && old(apiCalls) <= apiCalls
      ensures searched == old(searched) + [run]
      ensures o == Hit ==> job.runId == run
      ensures o == Miss ==> RunEnds(gh.server, run)
      ensures o == Miss && Serves(gh.server, site) ==> NoneInRun(site, who, run)
    {
      searched := searched + [run];
      var page := 1;
      while true
        invariant Valid() && !found && 1 <= page && old(apiCalls) <= apiCalls && searched == old(searched) + [run]
        invariant Serves(gh.server, site) ==>
                    JobsPage(site, run, page) && forall p :: 1 <= p < page ==> NoneOnPage(site, who, run, p)
        decreases maxCalls - apiCalls
      {
        var full;
        o, full := SearchPage(run, page);
        if o != Miss { return; }
        if !full {
          if Serves(gh.server, site) { ShortPageEnds(site, who, run, page); }
          return;
        }
        page := page + 1;
      }
    }

    /** The body shared by the two loops of `run`: skip a run already seen, charge the run
        budget, search. */
    method Visit(run: int) returns (o: Outcome)
      requires Valid() && Clear() && !found
      modifies this, gh
      ensures Valid() && Honest(o) && old(apiCalls) <= apiCalls
      ensures o == Miss ==> Clear() && run in seen && old(seen) <= seen
      ensures o == Hit ==> job.runId == run
    {
      if run in seen { return Miss; }
      seen := seen + {run};
      if runsExamined >= maxRuns { return RunBound; }
      runsExamined := runsExamined + 1;
      o := SearchRun(run);
    }

    method VisitPage(runs: seq<int>) returns (o: Outcome)
      requires Valid() && Clear() && !found
      modifies this, gh
      ensures Valid() && Honest(o) && old(apiCalls) <= apiCalls
      ensures o == Miss ==> Clear() && old(seen) <= seen && forall i :: 0 <= i < |runs| ==> runs[i] in seen
      ensures o == Hit ==> job.runId in runs
    {
      var i := 0;
      while i < |runs|
        invariant 0 <= i <= |runs| && Valid() && Clear() && !found && old(apiCalls) <= apiCalls
        invariant old(seen) <= seen && forall j :: 0 <= j < i ==> runs[j] in seen
      {
        o := Visit(runs[i]);
        if o != Miss { return; }
        i := i + 1;
      }
      o := Miss;
    }

    /** The listing of one status, page by page until a short one. */
    method VisitStatus(status: string) returns (o: Outcome)
      requires Valid() && Clear() && !found && status in {"queued", "in_progress", "completed"}
      modifies this, gh
      ensures Valid() && Honest(o)
      ensures o == Miss ==> Clear() && old(seen) <= seen
      ensures o == Miss ==> StatusEnds(gh.server, status)
      ensures o == Miss && Serves(gh.server, site) ==> NoneInStatus(site, who, status)
      ensures o == Hit && Serves(gh.server, site) ==> Eligible(site, priority, job.runId)
    {
      var page := 1;
      while true
        invariant Valid() && Clear() && !found && 1 <= page && old(seen) <= seen
        invariant Serves(gh.server, site) ==>
                    RunsPage(site, status, page) && forall p :: 1 <= p < page ==> NoneOnRunsPage(site, who, status, p)
        decreases maxCalls - apiCalls
      {
        if apiCalls >= maxCalls { return CallBound; }
        apiCalls := apiCalls + 1;
        var reply := gh.Runs(status, page);
        if !reply.Body? { return ApiError; }
        o := VisitPage(reply.value);
        if o != Miss { return; }
        if |reply.value| < PAGE_SIZE {
          if Serves(gh.server, site) { ShortListEnds(site, who, status, page); }
          return;
        }
        page := page + 1;
      }
    }

    /** The priority runs, whose ids must be positive to be looked at. */
    method VisitPriority() returns (o: Outcome)
      requires Valid() && Clear() && !found
      modifies this, gh
      ensures Valid() && Honest(o)
      ensures o == Miss ==> Clear()
      ensures o == Miss && Serves(gh.server, site) ==> NoneAmong(site, who, priority)
      ensures o == Hit ==> job.runId in priority && job.runId > 0
    {
      var i := 0;
      while i < |priority|
        invariant 0 <= i <= |priority| && Valid() && Clear() && !found
        invariant forall j :: 0 <= j < i && priority[j] > 0 ==> priority[j] in seen
      {
        if priority[i] > 0 {
          o := Visit(priority[i]);
          if o != Miss { return; }
        }
        i := i + 1;
      }
      o := Miss;
    }

    /** `run`: a clean miss means that, against any server, every run searched and all three
        listings were read to their ends, and against fixed data that the search was
        complete; running out of either budget is reported as such, never as a miss. */
    method Run() returns (o: Outcome)
      requires Valid() && Clear() && !found
      modifies this, gh
      ensures Valid() && Honest(o)
      ensures o == Miss ==> ReadToEnd()
      ensures o == Miss && Serves(gh.server, site) ==> NoneAnywhere(site, who, priority)
      ensures o == Hit && Serves(gh.server, site) ==> Eligible(site, priority, job.runId)
    {
      var statuses := Statuses();
      assert statuses[0] == "queued" && statuses[1] == "in_progress" && statuses[2] == "completed";
      o := VisitPriority();
      if o != Miss { return; }
      var i := 0;
      while i < 3
        invariant 0 <= i <= 3 && Valid() && Clear() && !found && o == Miss
        invariant forall j :: 0 <= j < i ==> StatusEnds(gh.server, statuses[j])
        invariant Serves(gh.server, site) ==>
                    NoneAmong(site, who, priority) && forall j :: 0 <= j < i ==> NoneInStatus(site, who, statuses[j])
      {
        o := VisitStatus(statuses[i]);
        if o != Miss { return; }
        i := i + 1;
      }
    }

    ghost predicate ReadToEnd() reads this {
      && (forall i :: 0 <= i < |searched| ==> RunEnds(gh.server, searched[i]))
      && ListingsEnd(gh.server)
    }
  }

  /** The first job on a page that ran on the runner, or the page's length. */
  method FirstMatch(jobs: seq<Job>, w: Runner) returns (k: nat)
    ensures k <= |jobs| && (k < |jobs| ==> RanOn(jobs[k], w))
    ensures forall i :: 0 <= i < k ==> !RanOn(jobs[i], w)
  {
    k := 0;
    while k < |jobs|
      invariant k <= |jobs| && forall i :: 0 <= i < k ==> !RanOn(jobs[i], w)
    {
      if Matches(jobs[k], w) { return; }
      k := k + 1;
    }
  }

  // --------------------------------------------------------------- the correlation

  datatype Candidate = Candidate(jobId: int, runId: int)

  datatype Verdict = Assigned | Unassigned | Indeterminate | CallFailed

  /** The runs of the candidates that name one. */
  function PositiveRuns(cs: seq<Candidate>): (rs: seq<int>)
    ensures forall i :: 0 <= i < |cs| && cs[i].runId > 0 ==> cs[i].runId in rs
    ensures forall i :: 0 <= i < |rs| ==> rs[i] > 0 && exists j :: 0 <= j < |cs| && cs[j].runId == rs[i]
  {
    if cs == [] then []
    else if cs[|cs| - 1].runId > 0 then PositiveRuns(cs[..|cs| - 1]) + [cs[|cs| - 1].runId]
    else PositiveRuns(cs[..|cs| - 1])
  }

  /** Every candidate job is gone or ran elsewhere. */
  ghost predicate NoCandidate(site: Site, w: Runner, cs: seq<Candidate>) {
    forall i :: 0 <= i < |cs| ==>
      site.job(cs[i].jobId).Missing? || (site.job(cs[i].jobId).Body? && !RanOn(site.job(cs[i].jobId).value, w))
  }

  ghost predicate CandidateMatches(site: Site, w: Runner, cs: seq<Candidate>) {
    exists i :: 0 <= i < |cs| && site.job(cs[i].jobId).Body? && RanOn(site.job(cs[i].jobId).value, w)
  }

  /** A job of this runner is visible to the correlation. */
  ghost predicate JobVisible(site: Site, w: Runner, cs: seq<Candidate>) {
    || CandidateMatches(site, w, cs)
    || exists j :: Evidence(site, w, j) && Eligible(site, PositiveRuns(cs), j.runId)
  }

  /** `correlateCompletedJob` without its state updates. Against any server it makes at most
      64 calls and examines at most 50 runs. Against fixed data it answers Assigned only if a
      job of the runner is visible, and Unassigned only if none is. */
  method Correlate(gh: GitHub, who: Runner, cs: seq<Candidate>, ghost site: Site)
    returns (v: Verdict, calls: nat, runs: nat)
    modifies gh
    ensures gh.calls == old(gh.calls) + calls && calls <= 64 && runs <= 50
    ensures v == Indeterminate ==> calls == 64 || runs == 50
    ensures v == CallFailed ==> !Flawless(gh.server) || (who.id <= 0 && who.name == "")
    ensures v == Unassigned && Serves(gh.server, site) ==>
              NoCandidate(site, who, cs) && NoneAnywhere(site, who, PositiveRuns(cs)) && !JobVisible(site, who, cs)
    ensures v == Assigned && Serves(gh.server, site) ==> JobVisible(site, who, cs)
    ensures |cs| >= 64 ==> v != Unassigned
    ensures v == Unassigned ==> ListingsEnd(gh.server)
  {
    var k;
    v, k := CheckCandidates(gh, who, cs, site);
    if v != Unassigned { return v, k, 0; }
    if k >= CORRELATION_CALLS { return Indeterminate, k, 0; }
    if who.id <= 0 && who.name == "" { return CallFailed, k, 0; }
    var priority := CollectRuns(cs);
    var s := new Searcher(gh, who, priority, CORRELATION_RUNS, CORRELATION_CALLS - k, site);
    var o := s.Run();
    calls, runs := k + s.apiCalls, s.runsExamined;
    match o {
      case Hit => v := Assigned;
        assert Serves(gh.server, site) ==> Evidence(site, who, s.job) && Eligible(site, priority, s.job.runId);
      case Miss => v := Unassigned;
        if Serves(gh.server, site) { NothingVisible(site, who, cs); }
      case RunBound => v := Indeterminate;
      case CallBound => v := Indeterminate;
      case ApiError => v := CallFailed;
    }
  }

  lemma NothingVisible(site: Site, w: Runner, cs: seq<Candidate>)
    requires NoCandidate(site, w, cs) && NoneAnywhere(site, w, PositiveRuns(cs))
    ensures !JobVisible(site, w, cs)
  {
    if j :| Evidence(site, w, j) && Eligible(site, PositiveRuns(cs), j.runId) {
      EvidenceRefutesNone(site, w, PositiveRuns(cs), j);
    }
  }

  /** The exact candidate checks. Unassigned here means none of them matched. */
  method CheckCandidates(gh: GitHub, who: Runner, cs: seq<Candidate>, ghost site: Site) returns (v: Verdict, calls: nat)
    modifies gh
    ensures gh.calls == old(gh.calls) + calls && calls <= 64 && calls <= |cs|
    ensures v == Indeterminate ==> calls == 64
    ensures v == Unassigned ==> calls == |cs|
    ensures v == CallFailed ==> !Flawless(gh.server)
    ensures v == Unassigned && Serves(gh.server, site) ==> NoCandidate(site, who, cs)
    ensures v == Assigned && Serves(gh.server, site) ==> CandidateMatches(site, who, cs)
  {
    calls := 0;
    var i := 0;
    while i < |cs|
      invariant 0 <= i <= |cs| && calls == i <= 64 && gh.calls == old(gh.calls) + calls
      invariant Serves(gh.server, site) ==> NoCandidate(site, who, cs[..i])
    {
      if calls >= CORRELATION_CALLS { return Indeterminate, calls; }
      calls := calls + 1;
      var reply := gh.OneJob(cs[i].jobId);
      if reply.Failed? { return CallFailed, calls; }
      if reply.Body? && Matches(reply.value, who) { return Assigned, calls; }
      i := i + 1;
    }
    assert cs[..i] == cs;
    v := Unassigned;
  }

  method CollectRuns(cs: seq<Candidate>) returns (runs: seq<int>)
    ensures runs == PositiveRuns(cs)
  {
    runs := [];
    var i := 0;
    while i < |cs|
      invariant 0 <= i <= |cs| && runs == PositiveRuns(cs[..i])
    {
      assert cs[..i + 1][..i] == cs[..i];
      if cs[i].runId > 0 { runs := runs + [cs[i].runId]; }
      i := i + 1;
    }
    assert cs[..i] == cs;
  }
}
