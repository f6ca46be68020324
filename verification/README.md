# stress: admission control and response checking, modelled in Dafny

This project models the core of `stress`, a Go load tester for HTTP APIs.
Each configured endpoint (`ApiConfig`) is driven for `Duration` one-second
ticks. On each tick the load loop makes `ReqPerSec` admission attempts
through a counter (`Coner`) that lets at most `MaxRunningReq` requests run at
once. Each admitted request builds an HTTP request from the endpoint
(`Scheme + "://" + Host + Path`, the method, the headers, and a body that is
either a string or JSON), sends it, and checks the response. The check
requires a status in `Expect.Status` and then applies one of four body modes:
`equal`, `equal_json`, `reg` or `pcp`. The run counts admitted requests and
failures, sums the latencies, and prints a summary. `StressTesting` runs the
endpoints one after another. It can filter them by name and override the host
and the scheme.

Files:

- `con.dfy`, module `Con`: `stress/con.go`. `Coner` is a class whose `count`
  field the methods update in place. It keeps the invariant that the count
  never exceeds the capacity. `FillRejectRefill` is the package's fill,
  reject and refill test, generalised to any capacity.
- `stress.dfy`, module `Stress`: the value-level part of `stress/stress.go`.
  It has the configuration datatypes, a `Json` datatype, `GetRequestBody`,
  request construction, `CheckBody` and the decision logic of `TestApi`.
  - The foreign libraries are the function-valued fields of `Oracles`:
    `json.Marshal`, `json.Unmarshal`, `regexp.Match`, and the gopcp
    interpreter with its `getJson` capability.
  - The HTTP round trip is a function from the `Request` to an `Exchange`
    outcome. An outcome is a rejected request, a transport error, an
    unreadable body, or a status and a body.
- `scheduler.dfy`, module `Scheduler`: the loops of `StressTestingApi` and
  `StressTesting`, written as methods with loop invariants.
  - The goroutines run sequentially. An admitted request's task (`TestApi`,
    the statistics update, then `decc`) is a later step of the loop.
  - Before each attempt, some outstanding tasks complete. The environment
    chooses how many with `finishing`. After the last tick all of them
    complete, which models `wg.Wait()`.
  - The network's answer and the latency of the k-th admitted request are
    inputs too.
  - `RunSpec` states what a run reports. `StressTestingApi` is proved
    against it.

An unknown `BodyExpectType` passes (`stress/stress.go:117-176`); it is not
rejected. The unguarded average (`stress/stress.go:233`) is modelled by
`SummarizeAsWritten`; the run itself uses the guarded `Summarize` (see
Findings).

## Model

| member | source | states |
|---|---|---|
| `Con.Coner.constructor` | stress/con.go:13-20 | GetConer: the count starts at 0 and the capacity is the one given; the invariant holds |
| `Con.Coner.Occupy` | stress/con.go:35-46 | admits iff count < capacity before the call; on admission the count grows by exactly 1, otherwise it is unchanged; the invariant `count <= capacity` is kept |
| `Con.Coner.Decc` | stress/con.go:49-54 | releases one slot: the count drops by exactly 1; needs a held slot (one release per successful admission), and keeps the invariant |
| `Con.Coner.Run` | stress/con.go:23-31 | returns exactly the admission result; an admitted task keeps its slot until its later completion step releases it |
| `Con.FillRejectRefill` | stress/stress_test.go:51-71 | for any capacity c: c runs are accepted, the next c are rejected while all tasks run, and after the tasks finish c runs are accepted again |
| `Stress.GetRequestBody` | stress/stress.go:45-53 | a string body is returned verbatim; any other body is the JSON encoder's output or its error |
| `Stress.PrepareRequest` | stress/stress.go:67-84 | fails exactly when the body cannot be encoded (with that error); otherwise the request carries the URL scheme + "://" + host + path, the method, the headers, the timeout and the resolved body |
| `Stress.CheckBody` | stress/stress.go:113-177 | equal: pass iff the expectation is the body string; equal_json: a decode error is returned, else pass iff the decoded value equals the expectation; reg and pcp: non-string expectation gives "BodyExp should be string"; reg: a pattern error is returned, else pass iff the pattern matches; pcp: an execution error or a non-boolean result is an error, pass iff the program yields true; in each mode a comparison that ran and did not hold fails with the body and the expectation; any other mode passes |
| `Stress.TestApi` | stress/stress.go:67-111 | passes iff the body encodes, the exchange yields a response, its status is in the accepted list and the body check passes |
| `Stress.BodyEncodeErrorFirst` | stress/stress.go:73-76 | a body encoding error is returned before anything is sent |
| `Stress.StringBodySentVerbatim` | stress/stress.go:45-48 | a string body is the request body as it is |
| `Stress.TransportErrorsReturned` | stress/stress.go:77-97 | request-construction, transport and read errors are returned as they are, before any status or body check |
| `Stress.StatusDecidesBeforeBody` | stress/stress.go:99-110 | a status outside the list fails with the status, the list and the body, whatever the body; a status inside it leaves the result to CheckBody alone |
| `Stress.LogBodyIrrelevant` | stress/stress.go:106-110 | the LogBody flag never changes TestApi's result |
| `Stress.CheckBodyTests` | stress/stress_test.go:29-49 | the package's four body-check cases, given the regexp and pcp answers on those inputs |
| `Stress.EqualModeExact` | stress/stress.go:118-121 | equal mode accepts a body against itself and rejects every other body |
| `Scheduler.Failures` | stress/stress.go:200-207 | the failed-request count never exceeds the number of requests counted |
| `Scheduler.NoFailuresIffAllPass` | stress/stress.go:203-206 | the error count is 0 iff every counted request passed |
| `Scheduler.Aborts` | stress/stress.go:193-196 | corrected FailExit: the process stops iff FailExit is set and the request failed |
| `Scheduler.AbortsAsWritten` | stress/stress.go:194-196 | as written: under FailExit the task panics whatever TestApi returned |
| `Scheduler.PassingRequestAbortsAsWritten` | stress/stress.go:193-196 | a passing request stops the process as written, and does not under the corrected rule; every corrected stop is a stop as written, and the two rules differ exactly on a passing request under FailExit |
| `Scheduler.Summarize` | stress/stress.go:226-235 | the summary keeps the counters; the average exists iff totalRun > 0 and is the truncated quotient reqTotalTime / totalRun |
| `Scheduler.SummarizeAsWritten` | stress/stress.go:233 | as written: a run with totalRun = 0 panics dividing by zero; otherwise it agrees with Summarize |
| `Scheduler.RunStats.constructor` | stress/stress.go:183 | totalRun, errorCount and reqTotalTime start at 0 |
| `Scheduler.RunStats.Admit` | stress/stress.go:212-215 | an accepted admission adds one to totalRun and changes no other counter |
| `Scheduler.RunStats.Record` | stress/stress.go:192-207 | a completing task either stops the process with its verdict (counters untouched) or adds its latency and counts it if it failed; errorCount and reqTotalTime stay the failure count and latency sum of the completed requests |
| `Scheduler.Settle` | stress/stress.go:191-209 | lets exactly min(budget, outstanding) tasks complete, each releasing its slot, unless one stops the process; the limiter count stays equal to the number of outstanding tasks; an abort reports the first failing request, all earlier ones having passed |
| `Scheduler.Tick` | stress/stress.go:190-216 | one tick makes exactly ReqPerSec attempts (none if it is not positive); totalRun never exceeds the attempts made and is at least min(attempts, MaxRunningReq); with MaxRunningReq <= 0 nothing is admitted and nothing can stop the process |
| `Scheduler.StressTestingApi` | stress/stress.go:179-236 | a run satisfies RunSpec: totalRun lies between min(Duration×ReqPerSec, MaxRunningReq) and Duration×ReqPerSec (0 when either factor is not positive); errorCount is the number of failed admitted requests, at most totalRun; reqTotalTime is their latency sum; the average exists iff totalRun > 0; a run without FailExit always finishes; a run with MaxRunningReq <= 0 admits nothing and finishes |
| `Scheduler.WithOverrides` | stress/stress.go:241-247 | host and scheme are replaced only by non-empty overrides |
| `Scheduler.WithOverridesKeepsRest` | stress/stress.go:239-247 | every field other than host and scheme is unchanged in the copy |
| `Scheduler.PlannedMembers` | stress/stress.go:239-240 | the runs are exactly the overridden copies of the endpoints with only == "" or Name == only |
| `Scheduler.PlannedWithoutFilter` | stress/stress.go:239-240 | with no name filter every endpoint runs, in list order |
| `Scheduler.PlannedTargets` | stress/stress.go:240-247 | every run has the requested name, the override host and the override scheme when these are non-empty |
| `Scheduler.OverrideAndRun` | stress/stress.go:240-249 | the iteration's copy is the overridden endpoint, and its run satisfies RunSpec |
| `Scheduler.StressTesting` | stress/stress.go:238-252 | the endpoints run are a prefix of the planned runs, in order, each satisfying RunSpec; they are all of them unless a run stopped the process, which is then the last one; the configuration is a value and is never changed |
| `Scheduler.EndToEndScenario` | stress/stress.go:189-216 | 5 per second for 2 s with capacity 10, against a server that always answers 200 "ok" and an equal-"ok" check, with any body that encodes (a string, or e.g. no body, sent as "null"): 10 admitted, 0 failed, a non-negative average |
| `Scheduler.ZeroRateScenario` | stress/stress.go:189-235 | ReqPerSec <= 0, Duration <= 0 or MaxRunningReq <= 0 admits nothing and the run finishes with no average, where the written summary divides by zero |

## Left out

- Goroutines, `sync.Mutex` and `sync.WaitGroup` are left out. Each `Coner` method is one atomic step. A task's completion is a step of the load loop. The environment chooses how many outstanding tasks complete before each attempt.
- `Scheduler.Settle`: tasks complete oldest first, while the source leaves the order open. The counters are sums, so they do not depend on the order. Only the choice of which failing request stops a FailExit run does.
- `Con.Coner.Run`: the spawned goroutine does not run inside `Run`. Its task and its `decc` are the caller's later completion step (`Scheduler.Settle`).
- `Con.Coner.Valid`: the capacity is a signed integer. For a capacity of 0 or less, the invariant is `count == 0` instead of `0 <= count <= capacity`.
- `time.Sleep` and wall-clock timestamps are left out. Per-request latency is an input in milliseconds. The total wall time in the summary is not modelled.
- `Scheduler.StressTestingApi`: `reqTotalTime` is an unbounded integer, so int64 overflow is not modelled.
- `Scheduler.StressTestingApi`: latencies are taken as non-negative (`latency: nat -> nat`). The source measures them with the wall clock (`stress/stress.go:192,197`), so a clock step backwards could make one negative; that case, and Go's truncating division of a negative total, are not modelled.
- `Scheduler.StressTestingApi`: the run uses the corrected `Aborts` and `Summarize` (see Findings). The written code's behaviour is given by `AbortsAsWritten` and `SummarizeAsWritten`.
- `http.Client`, `http.NewRequest`, `client.Do`, `ioutil.ReadAll` and header setting are left out. Their combined effect is the `Exchange` outcome of a `Request`. Header canonicalisation and the timeout's effect belong to that outcome.
- `json.Marshal`, `json.Unmarshal`, `regexp.Match` and the gopcp sandbox are function parameters (`Oracles`). Their grammars and algorithms are not modelled. JSON numbers are reals, and float64 rounding is the decoder's.
- `Contains` (called at `stress/stress.go:100`) is not defined in any source file shown here; it is modelled as sequence membership (`in`).
- Logging and colouring (`log`, `aurora`) are output only and are left out.
- `main.go` (flag parsing, reading the configuration file) is I/O and is left out. Its call to `StressTesting` with one argument belongs to another revision of the package.

## Findings

| source | as written | input that shows it | evidently intended | confidence | as-written member | corrected member |
|---|---|---|---|---|---|---|
| stress/stress.go:233 | the average `reqTotalTime/int64(totalRun)` has no guard | `ReqPerSec = 0` (or `MaxRunningReq <= 0`): `totalRun = 0`, so the integer division panics | report the run with no average when nothing was admitted | high; not executed | `Scheduler.SummarizeAsWritten` | `Scheduler.Summarize` |
| stress/stress.go:194-196 | `if apiConfig.FailExit { panic(err) }` panics even when `err` is nil | `FailExit = true` and a request that passes: the process stops after the first completed request | stop the process only when the request failed, as the comment on `FailExit` (stress/stress.go:42) says | high; not executed | `Scheduler.AbortsAsWritten` | `Scheduler.Aborts` |
