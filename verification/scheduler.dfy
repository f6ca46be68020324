/**
 * The load loop of stress/stress.go (StressTestingApi) and the endpoint
 * loop around it (StressTesting).
 *
 * The goroutines are modelled sequentially. An admitted request's task
 * (TestApi, the statistics update, then the slot release) runs as a later
 * step of the scheduler: before each admission attempt some of the
 * outstanding tasks complete, oldest first, and after the last tick all of
 * them do (the WaitGroup wait). How many complete before attempt `a` is the
 * environment's choice `finishing(a)`, and what the network answers and how
 * long the k-th admitted request takes are inputs as well.
 */
module Scheduler {
  import Con
  import opened Stress

  /** Everything the run observes from outside. */
  datatype Environment = Environment(
    oracles: Oracles,
    network: (nat, Request) -> Exchange,  // the round trip of the k-th admitted request
    latency: nat -> nat,                  // its reqEnd - reqStart, in milliseconds
    finishing: nat -> nat)                // outstanding tasks that complete before attempt a

  /** The statistics line printed at the end of a run (wall time left out). */
  datatype Summary = Summary(
    name: string,
    totalRun: nat,
    errorCount: nat,
    reqTotalTime: nat,
    avgReqTime: Option<int>)

  /** Why the process stops in the middle of a run. */
  datatype Panic =
    | RequestPanic(verdict: Verdict)  // panic(err) of a task when FailExit is set
    | DivideByZero                    // the average of a run that admitted nothing

  datatype RunReport = Finished(summary: Summary) | Aborted(panic: Panic)

  /** The verdict of the k-th admitted request of a run. */
  function RequestVerdict(api: ApiConfig, env: Environment, k: nat): Verdict
  {
    TestApi(api, env.oracles, (request: Request) => env.network(k, request))
  }

  /** How many of the first n admitted requests failed. */
  function Failures(api: ApiConfig, env: Environment, n: nat): (r: nat)
    ensures r <= n
  {
    if n == 0 then 0
    else Failures(api, env, n - 1) + if RequestVerdict(api, env, n - 1).Fail? then 1 else 0
  }

  /** The summed latency of the first n admitted requests. */
  function TotalLatency(env: Environment, n: nat): nat
  {
    if n == 0 then 0 else TotalLatency(env, n - 1) + env.latency(n - 1)
  }

  /** No failure among the first n requests exactly when each of them passed. */
  lemma {:induction false} NoFailuresIffAllPass(api: ApiConfig, env: Environment, n: nat)
    ensures Failures(api, env, n) == 0 <==> forall k :: 0 <= k < n ==> RequestVerdict(api, env, k).Pass?
  {
    if n > 0 {
      NoFailuresIffAllPass(api, env, n - 1);
    }
  }

  function Pos(x: int): nat
  {
    if x > 0 then x else 0
  }

  function Min(a: int, b: int): int
  {
    if a < b then a else b
  }

  /** The admission attempts of a run: ReqPerSec per tick over Duration ticks. */
  function Attempts(api: ApiConfig): nat
  {
    Pos(api.duration) * Pos(api.reqPerSec)
  }

  /** The attempts up to the end of tick i stay within the run's. */
  lemma TickWithinRun(i: nat, d: nat, r: nat)
    requires i < d
    ensures i * r + r == (i + 1) * r <= d * r
  {
  }

  /**
   * Whether a task's outcome takes the process down: only a failed request
   * of an endpoint with FailExit set.
   */
  function Aborts(failExit: bool, v: Verdict): (r: bool)
    ensures r ==> v.Fail?
    ensures failExit && v.Fail? ==> r
    ensures !failExit ==> !r
  {
    failExit && v.Fail?
  }

  /** As written, the task panics under FailExit whatever TestApi returned. */
  function AbortsAsWritten(failExit: bool, v: Verdict): (r: bool)
    ensures r <==> failExit
  {
    failExit
  }

  /**
   * Under FailExit the written code takes the process down after a passing
   * request; every stop of the corrected rule is also a stop as written, and
   * the two rules disagree exactly on a passing request under FailExit.
   */
  lemma PassingRequestAbortsAsWritten(failExit: bool, v: Verdict)
    ensures AbortsAsWritten(true, Pass) && !Aborts(true, Pass)
    ensures Aborts(failExit, v) ==> AbortsAsWritten(failExit, v)
    ensures Aborts(failExit, v) != AbortsAsWritten(failExit, v) <==> failExit && v.Pass?
  {
  }

  /**
   * The end-of-run statistics: the average response time is the truncated
   * quotient reqTotalTime / totalRun and exists only when something ran.
   */
  function Summarize(name: string, totalRun: nat, errorCount: nat, reqTotalTime: nat): (s: Summary)
    ensures s.name == name && s.totalRun == totalRun
    ensures s.errorCount == errorCount && s.reqTotalTime == reqTotalTime
    ensures s.avgReqTime.Some? <==> totalRun > 0
    ensures s.avgReqTime.Some? ==>
      s.avgReqTime.value * totalRun <= reqTotalTime < (s.avgReqTime.value + 1) * totalRun
  {
    Summary(name, totalRun, errorCount, reqTotalTime,
            if totalRun > 0 then Some(reqTotalTime / totalRun) else None)
  }

  /** As written, the average is computed unguarded and a run with nothing admitted panics. */
  function SummarizeAsWritten(name: string, totalRun: nat, errorCount: nat, reqTotalTime: nat): (r: RunReport)
    ensures r.Aborted? <==> totalRun == 0
    ensures r.Aborted? ==> r.panic == DivideByZero
    ensures r.Finished? ==> r.summary == Summarize(name, totalRun, errorCount, reqTotalTime)
  {
    if totalRun == 0 then Aborted(DivideByZero)
    else Finished(Summary(name, totalRun, errorCount, reqTotalTime, Some(reqTotalTime / totalRun)))
  }

  /**
   * What a run of one endpoint reports. A finished run admitted between
   * min(attempts, capacity) and `attempts` requests (none at all when the
   * capacity is not positive), counts exactly the failed ones among them,
   * sums their latencies and averages them. A run stops early only under
   * FailExit with a positive capacity, at the first failing request (in
   * completion order), all earlier ones having passed.
   */
  ghost predicate RunSpec(api: ApiConfig, env: Environment, report: RunReport)
  {
    match report
    case Finished(s) =>
      && s.totalRun <= Attempts(api)
      && Min(Attempts(api), Pos(api.maxRunningReq)) <= s.totalRun
      && (api.maxRunningReq <= 0 ==> s.totalRun == 0)
      && s == Summarize(api.name, s.totalRun, Failures(api, env, s.totalRun), TotalLatency(env, s.totalRun))
      && (api.failExit ==> s.errorCount == 0)
    case Aborted(p) =>
      && api.failExit
      && api.maxRunningReq > 0
      && exists k: nat ::
           && k < Attempts(api)
           && Failures(api, env, k) == 0
           && RequestVerdict(api, env, k).Fail?
           && p == RequestPanic(RequestVerdict(api, env, k))
  }

  /**
   * The statistics shared by a run's tasks: totalRun, errorCount and
   * reqTotalTime of the source, plus `finished`, the number of tasks that
   * have completed (totalRun - finished is the WaitGroup's counter).
   */
  class RunStats {
    var totalRun: nat
    var finished: nat
    var errorCount: nat
    var reqTotalTime: nat

    ghost predicate Valid(api: ApiConfig, env: Environment)
      reads this
    {
      && finished <= totalRun
      && errorCount == Failures(api, env, finished)
      && reqTotalTime == TotalLatency(env, finished)
      && (api.failExit ==> errorCount == 0)
    }

    constructor ()
      ensures totalRun == 0 && finished == 0 && errorCount == 0 && reqTotalTime == 0
    {
      totalRun, finished, errorCount, reqTotalTime := 0, 0, 0, 0;
    }

    /** totalRun++ (and wg.Add(1)) for an accepted admission. */
    method Admit()
      modifies this
      ensures totalRun == old(totalRun) + 1 && finished == old(finished)
      ensures errorCount == old(errorCount) && reqTotalTime == old(reqTotalTime)
    {
      totalRun := totalRun + 1;
    }

    /**
     * The task of the oldest outstanding request: run TestApi, stop the
     * process if the outcome calls for it, else add its latency and count
     * it if it failed.
     */
    method Record(api: ApiConfig, env: Environment) returns (abort: Option<Verdict>)
      requires Valid(api, env) && finished < totalRun
      modifies this
      ensures abort.Some? ==>
        && Aborts(api.failExit, RequestVerdict(api, env, old(finished)))
        && abort.value == RequestVerdict(api, env, old(finished))
        && unchanged(this)
      ensures abort.None? ==>
        && Valid(api, env)
        && finished == old(finished) + 1 && totalRun == old(totalRun)
    {
      var v := RequestVerdict(api, env, finished);
      if Aborts(api.failExit, v) {
        return Some(v);
      }
      reqTotalTime := reqTotalTime + env.latency(finished);
      if v.Fail? {
        errorCount := errorCount + 1;
      }
      finished := finished + 1;
      abort := None;
    }
  }

  /** The counter and the statistics agree: every outstanding task holds one slot. */
  ghost predicate Tracking(api: ApiConfig, env: Environment, coner: Con.Coner, stats: RunStats)
    reads coner, stats
  {
    && coner.Valid()
    && stats.Valid(api, env)
    && coner.maxRunning == api.maxRunningReq
    && coner.count == stats.totalRun - stats.finished
  }

  /**
   * Let up to `budget` outstanding tasks complete, oldest first; each one
   * releases its slot (decc) after its statistics are recorded.
   */
  method Settle(api: ApiConfig, env: Environment, coner: Con.Coner, stats: RunStats, budget: nat)
    returns (abort: Option<Verdict>)
    requires Tracking(api, env, coner, stats)
    modifies coner, stats
    ensures stats.totalRun == old(stats.totalRun)
    ensures abort.None? ==> Tracking(api, env, coner, stats)
    ensures abort.None? ==>
      stats.finished == old(stats.finished) + Min(budget, old(stats.totalRun) - old(stats.finished))
    ensures abort.Some? ==>
      && api.failExit
      && stats.finished < stats.totalRun
      && Failures(api, env, stats.finished) == 0
      && abort.value == RequestVerdict(api, env, stats.finished)
      && abort.value.Fail?
  {
    var k := 0;
    while k < budget && stats.finished < stats.totalRun
      invariant Tracking(api, env, coner, stats)
      invariant stats.totalRun == old(stats.totalRun)
      invariant k <= budget
      invariant stats.finished == old(stats.finished) + k
    {
      abort := stats.Record(api, env);
      if abort.Some? {
        return;
      }
      coner.Decc();
      k := k + 1;
    }
    abort := None;
  }

  /**
   * One tick of the load loop: ReqPerSec admission attempts, each preceded
   * by the completion of the tasks that finish before it; a rejected
   * attempt is skipped. `attempts` counts the attempts of the run so far.
   */
  method Tick(api: ApiConfig, env: Environment, coner: Con.Coner, stats: RunStats, start: nat)
    returns (attempts: nat, abort: Option<Verdict>)
    requires Tracking(api, env, coner, stats)
    requires stats.totalRun <= start && Min(start, Pos(api.maxRunningReq)) <= stats.totalRun
    requires api.maxRunningReq <= 0 ==> stats.totalRun == 0
    modifies coner, stats
    ensures abort.None? ==>
      && Tracking(api, env, coner, stats)
      && attempts == start + Pos(api.reqPerSec)
      && stats.totalRun <= attempts
      && Min(attempts, Pos(api.maxRunningReq)) <= stats.totalRun
      && (api.maxRunningReq <= 0 ==> stats.totalRun == 0)
    ensures abort.Some? ==>
      && api.failExit
      && api.maxRunningReq > 0
      && stats.finished < start + Pos(api.reqPerSec)
      && Failures(api, env, stats.finished) == 0
      && abort.value == RequestVerdict(api, env, stats.finished)
      && abort.value.Fail?
  {
    attempts := start;
    var j := 0;
    while j < api.reqPerSec
      invariant 0 <= j <= Pos(api.reqPerSec)
      invariant attempts == start + j
      invariant Tracking(api, env, coner, stats)
      invariant stats.totalRun <= attempts
      invariant Min(attempts, Pos(api.maxRunningReq)) <= stats.totalRun
      invariant api.maxRunningReq <= 0 ==> stats.totalRun == 0
    {
      abort := Settle(api, env, coner, stats, env.finishing(attempts));
      if abort.Some? {
        return;
      }
      var accepted := coner.Run();
      if accepted {
        stats.Admit();
      }
      attempts := attempts + 1;
      j := j + 1;
    }
    abort := None;
  }

  /**
   * StressTestingApi: Duration ticks of ReqPerSec admission attempts each,
   * then wait for every admitted request and summarise.
   */
  method StressTestingApi(api: ApiConfig, env: Environment) returns (report: RunReport)
    ensures RunSpec(api, env, report)
    ensures report.Finished? ==>
      report.summary.errorCount <= report.summary.totalRun <= Attempts(api)
    ensures !api.failExit ==> report.Finished?
    ensures api.maxRunningReq <= 0 ==> report.Finished? && report.summary.totalRun == 0
  {
    var coner := new Con.Coner(api.maxRunningReq);
    var stats := new RunStats();
    var attempts: nat := 0;

    var i := 0;
    while i < api.duration
      invariant 0 <= i <= Pos(api.duration)
      invariant attempts == i * Pos(api.reqPerSec)
      invariant Tracking(api, env, coner, stats)
      invariant stats.totalRun <= attempts
      invariant Min(attempts, Pos(api.maxRunningReq)) <= stats.totalRun
      invariant api.maxRunningReq <= 0 ==> stats.totalRun == 0
    {
      var abort;
      TickWithinRun(i, Pos(api.duration), Pos(api.reqPerSec));
      attempts, abort := Tick(api, env, coner, stats, attempts);
      if abort.Some? {
        return Aborted(RequestPanic(abort.value));
      }
      // the one-second sleep between ticks
      i := i + 1;
    }

    // wg.Wait(): every outstanding task completes
    var abort := Settle(api, env, coner, stats, stats.totalRun - stats.finished);
    if abort.Some? {
      return Aborted(RequestPanic(abort.value));
    }
    report := Finished(Summarize(api.name, stats.totalRun, stats.errorCount, stats.reqTotalTime));
  }

  /** An endpoint is run when no name is asked for or when its name is the one asked for. */
  predicate Selects(only: string, api: ApiConfig)
  {
    only == "" || only == api.name
  }

  /** The per-iteration copy of an endpoint: a non-empty host or scheme replaces its own. */
  function WithOverrides(api: ApiConfig, host: string, scheme: string): (r: ApiConfig)
    ensures r.host == (if host != "" then host else api.host)
    ensures r.scheme == (if scheme != "" then scheme else api.scheme)
  {
    api.(host := if host != "" then host else api.host,
         scheme := if scheme != "" then scheme else api.scheme)
  }

  /** The overrides touch nothing but the host and the scheme. */
  lemma WithOverridesKeepsRest(api: ApiConfig, host: string, scheme: string)
    ensures WithOverrides(api, host, scheme).(host := api.host, scheme := api.scheme) == api
  {
  }

  /** The endpoints StressTesting runs, in order, as they are run. */
  function Planned(apis: seq<ApiConfig>, host: string, scheme: string, only: string): seq<ApiConfig>
  {
    if apis == [] then []
    else
      (if Selects(only, apis[0]) then [WithOverrides(apis[0], host, scheme)] else [])
      + Planned(apis[1..], host, scheme, only)
  }

  lemma {:induction false} PlannedAppend(a: seq<ApiConfig>, b: seq<ApiConfig>, host: string, scheme: string, only: string)
    ensures Planned(a + b, host, scheme, only) == Planned(a, host, scheme, only) + Planned(b, host, scheme, only)
  {
    if a == [] {
      assert a + b == b;
    } else {
      assert (a + b)[0] == a[0];
      assert (a + b)[1..] == a[1..] + b;
      PlannedAppend(a[1..], b, host, scheme, only);
      var head := if Selects(only, a[0]) then [WithOverrides(a[0], host, scheme)] else [];
      calc {
        Planned(a + b, host, scheme, only);
        head + Planned(a[1..] + b, host, scheme, only);
        head + (Planned(a[1..], host, scheme, only) + Planned(b, host, scheme, only));
        (head + Planned(a[1..], host, scheme, only)) + Planned(b, host, scheme, only);
        Planned(a, host, scheme, only) + Planned(b, host, scheme, only);
      }
    }
  }

  lemma PlannedStep(apis: seq<ApiConfig>, i: nat, host: string, scheme: string, only: string)
    requires i < |apis|
    ensures Planned(apis[..i + 1], host, scheme, only) ==
      Planned(apis[..i], host, scheme, only) + if Selects(only, apis[i]) then [WithOverrides(apis[i], host, scheme)] else []
  {
    assert apis[..i + 1] == apis[..i] + [apis[i]];
    PlannedAppend(apis[..i], [apis[i]], host, scheme, only);
  }

  lemma PlannedPrefix(apis: seq<ApiConfig>, i: nat, host: string, scheme: string, only: string)
    requires i <= |apis|
    ensures Planned(apis[..i], host, scheme, only) <= Planned(apis, host, scheme, only)
    ensures i == |apis| ==> Planned(apis[..i], host, scheme, only) == Planned(apis, host, scheme, only)
  {
    assert apis == apis[..i] + apis[i..];
    PlannedAppend(apis[..i], apis[i..], host, scheme, only);
  }

  /** The planned runs are exactly the overridden copies of the selected endpoints. */
  lemma {:induction false} PlannedMembers(apis: seq<ApiConfig>, host: string, scheme: string, only: string, x: ApiConfig)
    ensures x in Planned(apis, host, scheme, only) <==>
      exists a :: a in apis && Selects(only, a) && x == WithOverrides(a, host, scheme)
  {
    if apis != [] {
      PlannedMembers(apis[1..], host, scheme, only, x);
      assert forall a :: a in apis <==> a == apis[0] || a in apis[1..];
    }
  }

  /** With no name filter every endpoint runs, in list order, each with the overrides applied. */
  lemma {:induction false} PlannedWithoutFilter(apis: seq<ApiConfig>, host: string, scheme: string)
    ensures |Planned(apis, host, scheme, "")| == |apis|
    ensures forall i :: 0 <= i < |apis| ==> Planned(apis, host, scheme, "")[i] == WithOverrides(apis[i], host, scheme)
  {
    if apis != [] {
      PlannedWithoutFilter(apis[1..], host, scheme);
    }
  }

  /** With a name filter only endpoints of that name run, and each is sent to the override host. */
  lemma PlannedTargets(apis: seq<ApiConfig>, host: string, scheme: string, only: string, x: ApiConfig)
    requires x in Planned(apis, host, scheme, only)
    ensures only != "" ==> x.name == only
    ensures host != "" ==> x.host == host
    ensures scheme != "" ==> x.scheme == scheme
  {
    PlannedMembers(apis, host, scheme, only, x);
  }

  /** The n-th run met RunSpec against what it observed, for every n. */
  ghost predicate RunsMeetSpec(ran: seq<ApiConfig>, reports: seq<RunReport>, envs: nat -> Environment)
  {
    |ran| == |reports| && forall n :: 0 <= n < |ran| ==> RunSpec(ran[n], envs(n), reports[n])
  }

  lemma RunsMeetSpecAppend(ran: seq<ApiConfig>, reports: seq<RunReport>, envs: nat -> Environment,
                           api: ApiConfig, report: RunReport)
    requires RunsMeetSpec(ran, reports, envs) && RunSpec(api, envs(|ran|), report)
    ensures RunsMeetSpec(ran + [api], reports + [report], envs)
  {
    var ran', reports' := ran + [api], reports + [report];
    forall n | 0 <= n < |ran'|
      ensures RunSpec(ran'[n], envs(n), reports'[n])
    {
      if n < |ran| {
        assert ran'[n] == ran[n] && reports'[n] == reports[n];
      }
    }
  }

  /**
   * One iteration of StressTesting for a selected endpoint: its copy gets
   * the overrides, then it is run as the next run, which observes
   * `envs(|ran|)`.
   */
  method OverrideAndRun(api: ApiConfig, host: string, scheme: string,
                        ran: seq<ApiConfig>, reports: seq<RunReport>, envs: nat -> Environment)
    returns (apiConfig: ApiConfig, report: RunReport)
    requires RunsMeetSpec(ran, reports, envs)
    ensures apiConfig == WithOverrides(api, host, scheme)
    ensures RunsMeetSpec(ran + [apiConfig], reports + [report], envs)
  {
    apiConfig := api;
    if host != "" {
      apiConfig := apiConfig.(host := host);
    }
    if scheme != "" {
      apiConfig := apiConfig.(scheme := scheme);
    }
    report := StressTestingApi(apiConfig, envs(|ran|));
    RunsMeetSpecAppend(ran, reports, envs, apiConfig, report);
  }

  /**
   * StressTesting: run the selected endpoints one after the other, each on
   * a copy with the overrides applied; the configuration itself is a value
   * and is left as it was. A run that takes the process down ends the loop.
   * `envs(n)` is what the n-th run observes.
   */
  method StressTesting(config: StressConfig, host: string, scheme: string, only: string, envs: nat -> Environment)
    returns (ran: seq<ApiConfig>, reports: seq<RunReport>)
    ensures |reports| == |ran|
    ensures ran <= Planned(config.apis, host, scheme, only)
    ensures |ran| < |Planned(config.apis, host, scheme, only)| ==> ran != [] && reports[|ran| - 1].Aborted?
    ensures RunsMeetSpec(ran, reports, envs)
    ensures forall n :: 0 <= n < |ran| - 1 ==> reports[n].Finished?
  {
    ran, reports := [], [];
    var i := 0;
    while i < |config.apis|
      invariant 0 <= i <= |config.apis|
      invariant ran == Planned(config.apis[..i], host, scheme, only)
      invariant |reports| == |ran|
      invariant RunsMeetSpec(ran, reports, envs)
      invariant forall n :: 0 <= n < |ran| ==> reports[n].Finished?
    {
      var apiConfig := config.apis[i];
      PlannedStep(config.apis, i, host, scheme, only);
      if Selects(only, apiConfig) {
        var report;
        apiConfig, report := OverrideAndRun(apiConfig, host, scheme, ran, reports, envs);
        ran, reports := ran + [apiConfig], reports + [report];
        if report.Aborted? {
          PlannedPrefix(config.apis, i + 1, host, scheme, only);
          return;
        }
      }
      i := i + 1;
    }
    PlannedPrefix(config.apis, i, host, scheme, only);
  }

  /**
   * The end-to-end case: 5 requests per second for 2 seconds with room for
   * 10, against a server that always answers 200 "ok", checked for status
   * 200 and body "ok", admits all 10 requests and none fails, whatever the
   * request body is, as long as it can be encoded.
   */
  lemma EndToEndScenario(api: ApiConfig, env: Environment, report: RunReport)
    requires RunSpec(api, env, report)
    requires api.reqPerSec == 5 && api.duration == 2 && api.maxRunningReq == 10
    requires GetRequestBody(api, env.oracles).Ok?
    requires api.expectation.status == [200]
    requires api.expectation.bodyExpectType == ModeEqual && api.expectation.bodyExp == JString("ok")
    requires forall k: nat, request: Request :: env.network(k, request) == Response(200, "ok")
    ensures report.Finished?
    ensures report.summary.totalRun == 10 && report.summary.errorCount == 0
    ensures report.summary.avgReqTime.Some? && report.summary.avgReqTime.value >= 0
  {
    forall k: nat
      ensures RequestVerdict(api, env, k).Pass?
    {
      var request := PrepareRequest(api, env.oracles).value;
      assert env.network(k, request) == Response(200, "ok");
    }
    assert Attempts(api) == 10;
    NoFailuresIffAllPass(api, env, 10);
  }

  /**
   * An endpoint with no requests per second, no duration or no capacity
   * admits nothing; the run still finishes, with no average, where the
   * written code divides by zero.
   */
  lemma ZeroRateScenario(api: ApiConfig, env: Environment, report: RunReport)
    requires RunSpec(api, env, report)
    requires api.reqPerSec <= 0 || api.duration <= 0 || api.maxRunningReq <= 0
    ensures report.Finished? && report.summary.totalRun == 0 && report.summary.errorCount == 0
    ensures report.summary.avgReqTime == None
    ensures SummarizeAsWritten(api.name, 0, 0, 0) == Aborted(DivideByZero)
  {
    if api.maxRunningReq > 0 {
      assert Attempts(api) == 0;
    }
  }
}
