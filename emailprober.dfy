/** The probe endpoint of the exporter: how a `/probe` request is turned into
    an HTTP status and the gauges of a per-request registry.

    The email verifier, `strconv.ParseFloat` and the clock are outside the
    model: the verifier's answer, a parser and the elapsed time are inputs. */
module EmailProber {
  import opened Wrappers
  import opened Metrics

  /** Timeout used when the scrape-timeout header is absent, empty or 0. */
  const DefaultTimeoutSeconds: real := 120.0
  const NanosPerSecond: real := 1000000000.0

  const SuccessName := "probe_success"
  const DurationName := "probe_duration_seconds"
  const ReachableName := "probe_email_reachable"

  const StatusOK: nat := 200
  const StatusBadRequest: nat := 400
  const StatusInternalServerError: nat := 500

  /** The pair `(timeoutSeconds, err)` returned by `getTimeout`;
      `parseFailed` stands for a non-nil `err`. */
  datatype TimeoutResult = TimeoutResult(seconds: real, parseFailed: bool)

  /** What the email verifier reports: an error, or a result whose
      `Reachable` field is a string ("yes", "no", "unknown", ...). */
  datatype VerifyOutcome = VerifyFailed(cause: string) | Verified(reachable: string)

  /** The error `probeEmail` returns: the target wrapped around the
      verifier's error. */
  datatype ProbeError = CouldNotVerify(target: string, cause: string)

  /** The response summary: an early `http.Error` with its status, or the
      200 response rendering the registry's metrics. */
  datatype Response = HttpError(status: nat) | Rendered(metrics: map<string, real>)
  {
    function Status(): nat
    {
      if HttpError? then status else StatusOK
    }
  }

  /** `getTimeout`: `header` is the value of the
      X-Prometheus-Scrape-Timeout-Seconds header ("" when absent, as
      `Header.Get` returns it) and `parseFloat` stands for
      `strconv.ParseFloat`. */
  function GetTimeout(header: string, parseFloat: string -> Option<real>): (r: TimeoutResult)
    ensures header == "" ==> r == TimeoutResult(DefaultTimeoutSeconds, false)
    ensures header != "" && parseFloat(header).None? ==> r == TimeoutResult(0.0, true)
    ensures header != "" && parseFloat(header) == Some(0.0) ==> r == TimeoutResult(DefaultTimeoutSeconds, false)
    ensures header != "" && parseFloat(header).Some? && parseFloat(header).value != 0.0 ==>
              r == TimeoutResult(parseFloat(header).value, false)
    ensures r.parseFailed <==> header != "" && parseFloat(header).None?
    ensures !r.parseFailed ==> r.seconds != 0.0
  {
    var parsed := if header == "" then Some(0.0) else parseFloat(header);
    match parsed
    case None => TimeoutResult(0.0, true)
    case Some(t) => TimeoutResult(if t == 0.0 then DefaultTimeoutSeconds else t, false)
  }

  /** The closure passed to `probeEmail`'s `Set`: the three-valued
      reachability collapses to a boolean gauge value. */
  function ReachableValue(reachable: string): (v: real)
    ensures v == 1.0 <==> reachable == "yes"
    ensures v == 0.0 <==> reachable != "yes"
  {
    if reachable == "yes" then 1.0 else 0.0
  }

  /** `time.Duration.Seconds` of an elapsed monotonic-clock duration. */
  function Seconds(elapsedNanos: nat): (s: real)
    ensures s >= 0.0
    ensures s == 0.0 <==> elapsedNanos == 0
  {
    elapsedNanos as real / NanosPerSecond
  }

  /** The value `probe_email_reachable` ends with after `probeEmail`. */
  function ReachableGauge(outcome: VerifyOutcome): (v: real)
    ensures v == 1.0 <==> outcome == Verified("yes")
    ensures v == 0.0 <==> outcome != Verified("yes")
    ensures outcome.VerifyFailed? ==> v == 0.0
  {
    match outcome
    case VerifyFailed(_) => 0.0
    case Verified(r) => ReachableValue(r)
  }

  /** The metrics exposed on the probe path: all three gauges, whatever the
      verifier answered. */
  function ProbeMetrics(outcome: VerifyOutcome, elapsedNanos: nat): (m: map<string, real>)
    ensures m.Keys == {SuccessName, DurationName, ReachableName}
    ensures m[SuccessName] == 1.0 <==> outcome.Verified?
    ensures m[SuccessName] == 0.0 <==> outcome.VerifyFailed?
    ensures m[DurationName] == Seconds(elapsedNanos) >= 0.0
    ensures m[ReachableName] == 1.0 <==> outcome == Verified("yes")
    ensures m[ReachableName] == 0.0 <==> outcome != Verified("yes")
    ensures outcome.VerifyFailed? ==> m[ReachableName] == 0.0
  {
    GaugeNamesDistinct();
    map[SuccessName := if outcome.Verified? then 1.0 else 0.0,
        DurationName := Seconds(elapsedNanos),
        ReachableName := ReachableGauge(outcome)]
  }

  /** The response the handler produces, as a function of its inputs. */
  function ExpectedResponse(header: string, parseFloat: string -> Option<real>, target: string,
                            outcome: VerifyOutcome, elapsedNanos: nat): (resp: Response)
    // the timeout is checked before the target, so a bad header wins
    ensures resp.Status() == StatusInternalServerError <==> GetTimeout(header, parseFloat).parseFailed
    ensures resp.Status() == StatusBadRequest <==> !GetTimeout(header, parseFloat).parseFailed && target == ""
    ensures resp.Status() == StatusOK <==> resp.Rendered?
    ensures resp.Rendered? <==> !GetTimeout(header, parseFloat).parseFailed && target != ""
    ensures resp.Rendered? ==> resp.metrics == ProbeMetrics(outcome, elapsedNanos)
  {
    if GetTimeout(header, parseFloat).parseFailed then HttpError(StatusInternalServerError)
    else if target == "" then HttpError(StatusBadRequest)
    else Rendered(ProbeMetrics(outcome, elapsedNanos))
  }

  /** Three gauge values that follow the probe protocol make up `ProbeMetrics`. */
  lemma ProbeMetricsOf(outcome: VerifyOutcome, elapsedNanos: nat, success: real, duration: real, reachable: real)
    requires success == (if outcome.Verified? then 1.0 else 0.0)
    requires duration == Seconds(elapsedNanos) && reachable == ReachableGauge(outcome)
    ensures map[SuccessName := success, DurationName := duration, ReachableName := reachable]
            == ProbeMetrics(outcome, elapsedNanos)
  {
  }

  lemma GaugeNamesDistinct()
    ensures SuccessName != DurationName && SuccessName != ReachableName && DurationName != ReachableName
  {
    assert |SuccessName| == 13 && |DurationName| == 22 && |ReachableName| == 21;
  }

  /** `probeEmail`: registers `probe_email_reachable` before asking the
      verifier, so the gauge is exposed (at 0) even when verification fails. */
  method ProbeEmail(target: string, registry: Registry, outcome: VerifyOutcome)
    returns (err: Option<ProbeError>)
    requires ReachableName !in Names(registry.gauges)
    modifies registry
    ensures |registry.gauges| == |old(registry.gauges)| + 1
    ensures registry.gauges[..|old(registry.gauges)|] == old(registry.gauges)
    ensures fresh(registry.gauges[|old(registry.gauges)|])
    ensures registry.gauges[|old(registry.gauges)|].name == ReachableName
    ensures registry.gauges[|old(registry.gauges)|].value == ReachableGauge(outcome)
    ensures err == if outcome.VerifyFailed? then Some(CouldNotVerify(target, outcome.cause)) else None
  {
    var probeEmailReachable := new Gauge(ReachableName);
    registry.MustRegister(probeEmailReachable);
    match outcome {
      case VerifyFailed(cause) =>
        return Some(CouldNotVerify(target, cause));
      case Verified(reachable) =>
        probeEmailReachable.Set(ReachableValue(reachable));
        return None;
    }
  }

  /** The probe path of `Handler`: a fresh registry gets the success and
      duration gauges, `probeEmail` adds the reachability gauge, the duration
      is set unconditionally and success only when `probeEmail` returned nil;
      the result is what the registry exposes. */
  method RunProbe(target: string, outcome: VerifyOutcome, elapsedNanos: nat,
                  probeSuccessGauge: Gauge, probeDurationGauge: Gauge) returns (metrics: map<string, real>)
    requires probeSuccessGauge != probeDurationGauge
    requires probeSuccessGauge.name == SuccessName && probeSuccessGauge.value == 0.0
    requires probeDurationGauge.name == DurationName
    modifies probeSuccessGauge, probeDurationGauge
    ensures metrics == ProbeMetrics(outcome, elapsedNanos)
    ensures probeSuccessGauge.value == metrics[SuccessName] && probeDurationGauge.value == metrics[DurationName]
  {
    GaugeNamesDistinct();
    var registry := new Registry();
    registry.MustRegister(probeSuccessGauge);
    assert Names(registry.gauges) == [SuccessName];
    registry.MustRegister(probeDurationGauge);
    assert Names(registry.gauges) == [SuccessName, DurationName];
    var err := ProbeEmail(target, registry, outcome);
    var probeEmailReachable := registry.gauges[2];
    assert registry.gauges == [probeSuccessGauge, probeDurationGauge, probeEmailReachable];
    probeDurationGauge.Set(Seconds(elapsedNanos));
    if err.None? {
      probeSuccessGauge.Set(1.0);
    }

    assert probeSuccessGauge.value == if outcome.Verified? then 1.0 else 0.0;
    assert probeDurationGauge.value == Seconds(elapsedNanos);
    assert probeEmailReachable.value == ReachableGauge(outcome);
    GatherThree(probeSuccessGauge, probeDurationGauge, probeEmailReachable);
    metrics := registry.Snapshot();
    ProbeMetricsOf(outcome, elapsedNanos, probeSuccessGauge.value, probeDurationGauge.value, probeEmailReachable.value);
  }

  /** `EmailProber.Handler`, reduced to its status and gauge decisions.
      `elapsedNanos` is what `time.Since(start)` measures around the probe. */
  method Handler(header: string, parseFloat: string -> Option<real>, target: string,
                 outcome: VerifyOutcome, elapsedNanos: nat) returns (resp: Response)
    ensures resp == ExpectedResponse(header, parseFloat, target, outcome, elapsedNanos)
  {
    var timeout := GetTimeout(header, parseFloat);
    if timeout.parseFailed {
      return HttpError(StatusInternalServerError);
    }

    var probeSuccessGauge := new Gauge(SuccessName);
    var probeDurationGauge := new Gauge(DurationName);

    if target == "" {
      return HttpError(StatusBadRequest);
    }

    var metrics := RunProbe(target, outcome, elapsedNanos, probeSuccessGauge, probeDurationGauge);
    resp := Rendered(metrics);
  }
}
