/**
 * OpenTelemetry set-up decisions: the configuration fallbacks read from the
 * environment, the disabled early return of `Initialize`, and how
 * `Shutdown` combines the two providers' errors.
 */
module Otel {
  import opened Wrappers

  const DefaultServiceName := "klage-unleash-proxy"
  const UnknownVersion := "unknown"
  const DevelopmentEnvironment := "development"

  /** The environment variables the configuration is read from ("" when unset). */
  datatype EnvVars = EnvVars(
    otelServiceName: string,      // OTEL_SERVICE_NAME
    naisAppName: string,          // NAIS_APP_NAME
    otelServiceVersion: string,   // OTEL_SERVICE_VERSION
    naisClusterName: string,      // NAIS_CLUSTER_NAME
    unleashServerApiEnv: string,  // UNLEASH_SERVER_API_ENV
    otlpEndpoint: string)         // OTEL_EXPORTER_OTLP_ENDPOINT

  datatype Config = Config(serviceName: string, serviceVersion: string, environment: string, otlpEndpoint: string)

  /** The first non-empty candidate, or "" when all are empty. */
  function FirstNonEmpty(candidates: seq<string>): string
  {
    if candidates == [] then ""
    else if candidates[0] != "" then candidates[0]
    else FirstNonEmpty(candidates[1..])
  }

  /**
   * The fallback rule: the result is some candidate, every candidate before
   * it is empty, and it is empty only when all candidates are.
   */
  lemma {:induction false} FirstNonEmptySpec(candidates: seq<string>)
    ensures FirstNonEmpty(candidates) == "" <==> forall i :: 0 <= i < |candidates| ==> candidates[i] == ""
    ensures FirstNonEmpty(candidates) != "" ==>
      exists k :: 0 <= k < |candidates| && candidates[k] == FirstNonEmpty(candidates) &&
        forall i :: 0 <= i < k ==> candidates[i] == ""
  {
    if candidates != [] && candidates[0] == "" {
      var rest := candidates[1..];
      FirstNonEmptySpec(rest);
      assert forall i :: 1 <= i < |candidates| ==> candidates[i] == rest[i - 1];
      if FirstNonEmpty(rest) != "" {
        var k :| 0 <= k < |rest| && rest[k] == FirstNonEmpty(rest) && forall i :: 0 <= i < k ==> rest[i] == "";
        assert candidates[k + 1] == FirstNonEmpty(candidates);
      }
    }
  }

  /** `ConfigFromEnv`: straight-line defaulting of three locals; the endpoint is copied as is. */
  method ConfigFromEnv(e: EnvVars) returns (c: Config)
    ensures c.serviceName == FirstNonEmpty([e.otelServiceName, e.naisAppName, DefaultServiceName])
    ensures c.serviceVersion == FirstNonEmpty([e.otelServiceVersion, UnknownVersion])
    ensures c.environment == FirstNonEmpty([e.naisClusterName, e.unleashServerApiEnv, DevelopmentEnvironment])
    ensures c.otlpEndpoint == e.otlpEndpoint
    ensures c.serviceName != "" && c.serviceVersion != "" && c.environment != ""
  {
    var serviceName := e.otelServiceName;
    if serviceName == "" {
      serviceName := e.naisAppName;
    }
    if serviceName == "" {
      serviceName := DefaultServiceName;
    }

    var serviceVersion := e.otelServiceVersion;
    if serviceVersion == "" {
      serviceVersion := UnknownVersion;
    }

    var environment := e.naisClusterName;
    if environment == "" {
      environment := e.unleashServerApiEnv;
    }
    if environment == "" {
      environment := DevelopmentEnvironment;
    }

    c := Config(serviceName, serviceVersion, environment, e.otlpEndpoint);
    assert [e.otelServiceName, e.naisAppName, DefaultServiceName][1..] == [e.naisAppName, DefaultServiceName];
    assert [e.naisAppName, DefaultServiceName][1..] == [DefaultServiceName];
    assert FirstNonEmpty([DefaultServiceName]) == DefaultServiceName;
    assert FirstNonEmpty([e.naisAppName, DefaultServiceName]) != "";
    assert [e.otelServiceVersion, UnknownVersion][1..] == [UnknownVersion];
    assert [e.naisClusterName, e.unleashServerApiEnv, DevelopmentEnvironment][1..] == [e.unleashServerApiEnv, DevelopmentEnvironment];
    assert [e.unleashServerApiEnv, DevelopmentEnvironment][1..] == [DevelopmentEnvironment];
    assert FirstNonEmpty([DevelopmentEnvironment]) == DevelopmentEnvironment;
    assert FirstNonEmpty([e.unleashServerApiEnv, DevelopmentEnvironment]) != "";
  }

  /** A tracer or meter provider; `shutdownError` is what its `Shutdown(ctx)` reports. */
  datatype Provider = Provider(shutdownError: Option<string>)

  /** `Telemetry`: either provider may be nil. */
  datatype Telemetry = Telemetry(tracerProvider: Option<Provider>, meterProvider: Option<Provider>)

  datatype ProviderKind = TracerProviderKind | MeterProviderKind

  predicate ShutdownFails(p: Option<Provider>)
  {
    p.Some? && p.value.shutdownError.Some?
  }

  /**
   * `Telemetry.Shutdown`: nil providers are skipped, the tracer provider is
   * shut down before the meter provider, and a later error overwrites an
   * earlier one. `calls` lists the providers shut down, in order.
   */
  method Shutdown(t: Telemetry) returns (err: Option<string>, calls: seq<ProviderKind>)
    ensures calls == (if t.tracerProvider.Some? then [TracerProviderKind] else []) +
                     (if t.meterProvider.Some? then [MeterProviderKind] else [])
    ensures err.None? <==> !ShutdownFails(t.tracerProvider) && !ShutdownFails(t.meterProvider)
    ensures ShutdownFails(t.meterProvider) ==> err == t.meterProvider.value.shutdownError
    ensures !ShutdownFails(t.meterProvider) && ShutdownFails(t.tracerProvider) ==>
      err == t.tracerProvider.value.shutdownError
  {
    err := None;
    calls := [];
    if t.tracerProvider.Some? {
      calls := calls + [TracerProviderKind];
      var e := t.tracerProvider.value.shutdownError;
      if e.Some? {
        err := e;
      }
    }
    if t.meterProvider.Some? {
      calls := calls + [MeterProviderKind];
      var e := t.meterProvider.value.shutdownError;
      if e.Some? {
        err := e;
      }
    }
  }

  /**
   * What the OpenTelemetry libraries do when asked to build the pipeline:
   * the errors of `resource.New`, of the trace exporter and of the metric
   * exporter, and the providers they yield.
   */
  datatype Setup = Setup(
    resourceError: Option<string>,
    traceExporterError: Option<string>,
    metricExporterError: Option<string>,
    tracerProvider: Provider,
    meterProvider: Provider)

  datatype InitOutcome = InitOutcome(telemetry: Option<Telemetry>, err: Option<string>)

  /**
   * `Initialize`: with no OTLP endpoint it returns `(nil, nil)` and builds
   * nothing; otherwise each set-up step may fail, a metric-exporter failure
   * returning the half-built telemetry (tracer provider only) with the error.
   */
  function Initialize(cfg: Config, setup: Setup): (r: InitOutcome)
  {
    if cfg.otlpEndpoint == "" then InitOutcome(None, None)
    else if setup.resourceError.Some? then InitOutcome(None, setup.resourceError)
    else if setup.traceExporterError.Some? then InitOutcome(None, setup.traceExporterError)
    else
      var tracerOnly := Telemetry(Some(setup.tracerProvider), None);
      if setup.metricExporterError.Some? then InitOutcome(Some(tracerOnly), setup.metricExporterError)
      else InitOutcome(Some(tracerOnly.(meterProvider := Some(setup.meterProvider))), None)
  }

  /**
   * Telemetry is off exactly when no endpoint is configured and nothing
   * failed; a returned instance always has its tracer provider, and an
   * error-free one with an endpoint has both providers.
   */
  lemma InitializeOutcomes(cfg: Config, setup: Setup)
    ensures cfg.otlpEndpoint == "" ==> Initialize(cfg, setup) == InitOutcome(None, None)
    ensures Initialize(cfg, setup).telemetry.Some? ==>
      cfg.otlpEndpoint != "" && Initialize(cfg, setup).telemetry.value.tracerProvider.Some?
    ensures cfg.otlpEndpoint != "" && Initialize(cfg, setup).err.None? ==>
      var t := Initialize(cfg, setup).telemetry;
      t.Some? && t.value.tracerProvider.Some? && t.value.meterProvider.Some?
    ensures Initialize(cfg, setup).telemetry.None? && Initialize(cfg, setup).err.None? <==> cfg.otlpEndpoint == ""
  {
  }
}
