# gotmail-exporter probe core, modelled in Dafny

gotmail-exporter is a Prometheus exporter that checks email addresses. A
request to `/probe?target=<address>` runs the email verifier on the address.
The response is rendered from a fresh, per-request registry of three gauges:
`probe_success`, `probe_duration_seconds` and `probe_email_reachable`.

This project models the decisions in that path and proves what they promise:

- `EmailProber.GetTimeout` resolves the `X-Prometheus-Scrape-Timeout-Seconds`
  header. An absent header or a value of 0 means 120 seconds. A header that
  does not parse is an error. No other clamping is applied.
- `EmailProber.Handler` checks the header, then the `target` parameter, then
  builds the registry and probes. `Metrics.Gauge` and `Metrics.Registry` are
  small classes. They stand in for the Prometheus client library's gauge and
  registry: gauges start at 0, `Set` overwrites, `MustRegister` appends a
  gauge whose name is new. The handler is proved equal to
  `EmailProber.ExpectedResponse`, a function of its inputs, whose contract
  states the status and gauge rules.
- `EmailProber.ProbeEmail` registers `probe_email_reachable` before asking the
  verifier. It maps reachability `"yes"` to 1 and every other answer to 0.
- `ScrapeLogger.Log` copies the key/value list into a new array. It rewrites
  the copy in place so that every value keyed `"level"` becomes debug. It is
  proved equal to the reference definition `ScrapeLogger.Demoted`.
- `LogLevel.SetLogLevel` and `LogLevel.LogLevels` model the start-up
  log-level validator and table in `main.go`. The validator's only caller
  (`main.go:38`) discards its error, so its verdict has no effect at start-up.
  The level filter is built earlier (`main.go:35`) from a case-sensitive
  lookup of the raw flag in the table.

Inputs stand in for the external pieces. `parseFloat: string -> Option<real>`
stands in for `strconv.ParseFloat`. A `VerifyOutcome` stands in for the email
verifier's answer. The elapsed monotonic time is a number of nanoseconds, so
`time.Duration.Seconds` is `elapsedNanos / 1e9`, which is never negative.

## Model

| member | source | states |
|---|---|---|
| Metrics.Gauge.Set | internal/emailprober/emailprober.go:68-70 | library stand-in: after `Set` the gauge holds exactly the value given |
| Metrics.Registry.MustRegister | internal/emailprober/emailprober.go:63-65 | library stand-in: registering a gauge whose name is new appends it after the gauges already registered |
| Metrics.Gather | internal/emailprober/emailprober.go:76-77 | library stand-in: the rendered registry exposes exactly the names of its registered gauges |
| LogLevel.ToLower | main.go:47 | ASCII stand-in for `strings.ToLower`: same length, no upper-case letter left, each letter lowercased |
| EmailProber.GetTimeout | internal/emailprober/emailprober.go:80-93 | an empty (absent) header gives 120 and no error; an unparsable header gives an error with value 0; a parsed 0 gives 120; any other parsed value, negative or tiny, is returned unchanged; a successful result is never 0 |
| EmailProber.ReachableValue | internal/emailprober/emailprober.go:138-144 | the gauge value is 1 exactly when `Reachable` is "yes" and 0 for every other string |
| EmailProber.ReachableGauge | internal/emailprober/emailprober.go:127-145 | `probe_email_reachable` ends at 1 exactly for a verified "yes" and at 0 in every other case: a verified "no", "unknown" or any other answer, and a verifier error, after which it keeps its initial 0 |
| EmailProber.Seconds | internal/emailprober/emailprober.go:67 | the measured duration in seconds is never negative, and is 0 only for zero elapsed time |
| EmailProber.ProbeMetrics | internal/emailprober/emailprober.go:62-74 | the probe path exposes exactly the three gauges on success and on failure; `probe_success` is 1 iff the verifier returned no error, else 0; `probe_duration_seconds` is the elapsed time, never negative, on both paths; `probe_email_reachable` is 1 iff the verifier said "yes", and 0 for every other answer and after a verifier error |
| EmailProber.ExpectedResponse | internal/emailprober/emailprober.go:31-78 | status 500 exactly when the timeout header fails to parse, even when `target` is missing; otherwise 400 exactly when `target` is empty; otherwise 200 with the probe-path metrics; no gauge is exposed on the error paths |
| EmailProber.RunProbe | internal/emailprober/emailprober.go:62-77 | registering the success and duration gauges in a fresh registry, running `probeEmail`, setting the duration unconditionally and success only on a nil error exposes exactly the probe-path metrics |
| EmailProber.ProbeEmail | internal/emailprober/emailprober.go:125-146 | appends a fresh `probe_email_reachable` gauge to the registry before the verifier's outcome is used; leaves the existing gauges in place; the gauge ends at the collapsed reachability; a verifier error is returned wrapped with the target, otherwise nil |
| EmailProber.Handler | internal/emailprober/emailprober.go:31-78 | the handler's early returns (timeout first, then target) and its probe path produce exactly `ExpectedResponse` of its inputs |
| Metrics.GatherValue | internal/emailprober/emailprober.go:63-77 | a registered gauge whose name no later gauge reuses is exposed under its name with its current value |
| ScrapeLogger.Demoted | internal/emailprober/emailprober.go:114-121 | the rewritten list has the length of the original |
| ScrapeLogger.DemotedIsPointwise | internal/emailprober/emailprober.go:117-121 | entry k of the rewrite is debug when k is a value index whose key is "level", and the original entry otherwise |
| ScrapeLogger.DemotedProperties | internal/emailprober/emailprober.go:114-121 | every key is unchanged; the value after a "level" key is debug, whatever level the caller passed; every other value is unchanged |
| ScrapeLogger.DemotedIdempotent | internal/emailprober/emailprober.go:117-121 | rewriting an already rewritten list changes nothing |
| ScrapeLogger.Log | internal/emailprober/emailprober.go:112-123 | for every list that does not make the loop index past its end, the list forwarded upstream is the rewrite of the caller's list; the caller's array is only read, never written |
| LogLevel.SetLogLevel | main.go:46-62 | returns no error exactly for the empty string and for debug, info, warn and error in any ASCII letter case; otherwise the error message is "unkown log level: " followed by the original, un-lowercased input |
| LogLevel.ToLowerOfLower | main.go:47 | lowercasing leaves a string without upper-case letters unchanged |
| LogLevel.LogLevelsTable | main.go:24-29 | the table has exactly the keys debug, info, warn and error; "error" maps to `AllowWarn`, the same option as "warn" |
| LogLevel.SetLogLevelIgnoresCase | main.go:46-60 | two spellings that lowercase alike are both accepted or both rejected |
| LogLevel.TableLookupIsExactCase | main.go:35 | a non-empty level the validator accepts is a key of the table exactly when it is already lower case |
| LogLevel.UpperCaseAcceptedButNotInTable | main.go:35-38 | "DEBUG" passes the validator but is not a key of the table |

## Left out

- HTTP transport: the text of `http.Error` bodies (including the parse-error detail), `promhttp.HandlerFor` rendering, the `/metrics` route and `ListenAndServe` on port 2112. Only the status code and the gauge map are modelled.
- `context.WithTimeout`: the derived deadline is computed but never reaches `Verify`, so it has no observable effect on the probe.
- The email verifier (`emailverifier.Verify`, SMTP checks) is a foreign library. Its answer is an input.
- `strconv.ParseFloat` is a parameter. IEEE floating point is modelled as exact reals.
- The clock: `time.Now`/`time.Since` become an elapsed number of nanoseconds.
- EmailProber.Handler: the "Beginning probe", "Probe succeeded" and "Probe failed" log lines are not modelled. The handler is reduced to its status and gauge decisions.
- ScrapeLogger.Log: the logfmt buffer logger (timestamp, caller, target) is never read back, so it is not modelled. The `target` context that `log.With` adds upstream is library behaviour and is not modelled either.
- ScrapeLogger.Log: a list of odd length whose last key is "level" makes the Go loop index past the end and panic. Such a list is excluded by the precondition rather than modelled as a crash.
- LogLevel.SetLogLevel: the `level.Allow*()` calls in each case are discarded, so only the returned error is modelled. The "error" case calls `AllowError`, while the table maps "error" to `AllowWarn`.
- Start-up glue: `getopt.Parse`, `promlog`, the version collector and the level filter built from the table.
- `strings.ToLower` is modelled for ASCII letters only. Unicode case folding is not modelled.
- LogLevel.SetLogLevel: Go's `strings.ToLower` maps U+0130 (capital I with dot above) to `i`, so `setLogLevel("İNFO")` returns nil while the model rejects it. For the four level names this is the only difference the ASCII restriction makes.
- Concurrency: per-request isolation follows from each call allocating its own registry and gauges, which the model's `Handler` also does.
- Registry errors: `MustRegister` panics on a duplicate name. The model requires distinct names, which the handler always registers.
