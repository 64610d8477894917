# klage-unleash-proxy — a Dafny model of its core

klage-unleash-proxy is an HTTP proxy that answers feature-flag queries on
behalf of a fixed set of caller applications. At start-up it reads the
allow-list of inbound applications from its NAIS manifest. It builds one
Unleash client per allowed application. For each `POST`/`QUERY
/features/<name>` it checks the method, the flag name and the JSON body,
finds the caller's client and returns `{"enabled": …}`. Around this sit
OpenTelemetry set-up, a tracing/metrics middleware, request logging and a
log listener for the Unleash SDK.

The model is split into modules that follow the Go packages:

- `Nais` (`nais.dfy`): the `init` filter that turns the manifest's inbound
  rules into the allow-list, and its two panics.
- `Clients` (`clients.dfy`): the client registry as a class. It holds the
  client map, the ready flag and a log of `Close` calls. Its operations are
  `Initialize`, `Get`, `Ready`, `Close` and `IsValidApp`.
- `Feature` (`feature.dfy`): Go's `url.PathEscape` for path segments, which
  works on UTF-8 bytes, then `IsValidName` and the handler's decision chain.
- `Otel` (`otel.dfy`): `ConfigFromEnv`, the outcomes of `Initialize` (its
  early return when disabled, and its error points), and `Shutdown`.
- `TelemetryMiddleware` (`middleware.dfy`): `scheme`, the span name, the
  status-capturing `responseWriter`, `NewMiddleware` and the disabled
  pass-through of `Handler`.
- `Logging` (`logging.dfy`): the `ReplaceAttr` key rename, `FromContext`,
  `shouldSkipLogging`, and the request log line written by the middleware.
- `UnleashListener` (`listener.dfy`): `SlogListener` and the log level it
  chooses for each SDK event.
- `Http` and `Wrappers` hold the shared status codes, the captured-status
  rule and the `Option`/`Result` types.

Things the code delegates become parameters:

- Each Unleash client's construction outcome is a `Construction` value.
- The flag evaluation is an `Evaluator` function value.
- The decoded JSON body is an `Option<Request>`.
- The parsed manifest is a `Result`.
- The environment variables are an `EnvVars` record.
- The errors returned by the OpenTelemetry libraries are `Option<string>` fields.

Behaviour worth knowing:

- `IsValidName` follows the code: a name is valid when `url.PathEscape`
  leaves it unchanged. The comment above it speaks of
  `encodeURIComponent`, whose safe set differs: `PathEscape` leaves
  `$&+:=@` alone but escapes `!'()*`. The model uses the `PathEscape` set.
- The length bound on names counts UTF-8 bytes (Go's `len`), not characters.
- When an application appears twice in the allow-list, the map keeps one of
  the clients built for it. In the code, scheduling decides which one (the
  goroutine that takes the lock last). The model takes the later list
  position, and its contract promises only "a client built for that
  application".

## Model

| member | source | states |
|---|---|---|
| Nais.Init | nais/nais.go:17-43 | A parse failure panics with the parse error. Otherwise the allow-list is the manifest's application names in order, with empty ones dropped. An empty result panics with "no inbound applications". A loaded list is non-empty and holds no empty name. |
| Nais.NonEmptyApplicationsAppend | nais/nais.go:34-38 | The filter distributes over concatenation of rule lists, so it is applied rule by rule. |
| Nais.NonEmptyApplicationsElements | nais/nais.go:34-38 | An application is on the allow-list iff it is non-empty and named by some rule. |
| Nais.ApplicationsLast | nais/nais.go:34-38 | The application names of a rule list are those of all but the last rule, followed by the last rule's name. |
| Nais.NonEmptyApplicationsCounts | nais/nais.go:34-38 | "" never appears. Every non-empty name appears exactly as often as in the manifest, so duplicates are kept. |
| Clients.Registry.constructor | clients/clients.go:17-23 | A fresh registry has an empty client map, is not ready and has closed nothing. |
| Clients.Registry.Initialize | clients/clients.go:32-93 | One construction per allowed app. The map gains exactly the apps whose client was built, each mapped to a client built for it, and keeps its other entries. The result is `nil` iff no construction failed; otherwise it is the aggregate of one error per failed app, in allow-list order. The registry becomes ready iff nothing failed, and stays ready if it already was. |
| Clients.FailuresOnePerFailedApp | clients/clients.go:61-63 | The aggregate holds exactly one error per failed construction. Every error names an allow-listed app and carries that app's failure cause. Every failed app appears in it. |
| Clients.FailuresSound | clients/clients.go:61-63 | The aggregate has one entry per failed construction, and each entry names an allow-listed app with that app's failure cause. |
| Clients.FailuresComplete | clients/clients.go:61-63 | Every app whose construction failed has its entry in the aggregate. |
| Clients.PrefixStep | clients/clients.go:44-76 | Handling one more app adds its error if it failed, or adds it to the built set if it was built. |
| Clients.InsertedStep | clients/clients.go:64-70 | Inserting the next built client keeps the map equal to the old map plus the apps built so far, each mapped to a client built for it. |
| Clients.FailuresEmptyIffAllBuilt | clients/clients.go:83-91 | Initialization reports no error iff every client was built. |
| Clients.BuiltAppsWithinAllowList | clients/clients.go:66-70 | Only allow-listed apps get a client. When nothing failed, every allow-listed app has one. |
| Clients.StartRegistry | clients/clients.go:26-123 | A fresh registry followed by `Initialize` succeeds iff every construction succeeded. The registry is then ready iff it succeeded, and its map holds exactly the built apps. After success, `Get` finds a client for an app iff `IsValidApp` accepts it. |
| Clients.Registry.Ready | clients/clients.go:26-28 | Reports the ready flag. |
| Clients.Registry.Get | clients/clients.go:97-102 | Finds a client iff the app has an entry in the map, and returns that entry. |
| Clients.GetOnlyFindsValidApps | clients/clients.go:97-102 | Any app `Get` can find passes `IsValidApp`. |
| Clients.Registry.Close | clients/clients.go:106-118 | Every client in the map is closed exactly once, under its own app name. The map is then empty. The ready flag is left as it was. Earlier close calls are kept. |
| Clients.CloseEach | clients/clients.go:110-115 | Iterating the map closes each entry once: one call per key, with that key's client. |
| Clients.CloseCallsCount | clients/clients.go:110-115 | A call log covering each key once has exactly as many calls as the map has keys. |
| Clients.CloseCallsStep | clients/clients.go:110-115 | Closing one more unvisited entry extends a valid call log to the larger key set. |
| Clients.Registry.IsValidApp | clients/clients.go:121-123 | True iff the name occurs in the allow-list. |
| Feature.ShouldEscapeIffUnsafe | feature/handler.go:57 | A character is percent-encoded by `PathEscape` iff it is outside the path-segment safe set: letters, digits and `-_.~$&+:=@`. |
| Feature.PathEscapeLength | feature/handler.go:57 | Escaping never shortens a name. It keeps the length iff every character is safe, and is then the identity. |
| Feature.PathEscapeIdentity | feature/handler.go:57-58 | `PathEscape(name) == name` iff every character of the name is safe. |
| Feature.PathEscapeOutput | feature/handler.go:57 | Escaped output contains only safe characters and `%`. |
| Feature.ByteLenOfSafe | feature/handler.go:50 | A name made of safe characters is as long in UTF-8 bytes as in characters. |
| Feature.ByteLenAtLeastLength | feature/handler.go:50 | The UTF-8 byte length is never below the character count. |
| Feature.IsValidNameCharacterization | feature/handler.go:49-59 | A name is valid iff it has 1 to 100 characters, is not "." or "..", and every character is path-segment safe. |
| Feature.LengthOutOfRangeIsInvalid | feature/handler.go:50-52 | An empty name, or one over 100 bytes, is invalid. |
| Feature.DotNamesAreInvalid | feature/handler.go:53-55 | "." and ".." survive escaping unchanged, yet are invalid. |
| Feature.UnsafeCharacterIsInvalid | feature/handler.go:57-58 | A name holding `/`, `?`, `;`, `,`, `%`, a space or any non-ASCII character is invalid. |
| Feature.TraversalIsInvalid | feature/handler.go:57-58 | "../etc" is not a valid flag name. |
| Feature.StatusCode | feature/handler.go:79-203 | 200 iff the flag was evaluated, 405 iff the method was refused, 400 iff a request check failed. |
| Feature.TrimPrefixSpec | feature/handler.go:91 | The flag name is what follows `/features/`. A path without that prefix is taken whole. |
| Feature.MethodCheckedFirst | feature/handler.go:79-88 | The answer is 405 iff the method is neither POST nor QUERY, whatever the path, body or registry. |
| Feature.NameCheckedBeforeBodyAndLookup | feature/handler.go:91-116 | With an allowed method, an empty name gives "missing feature name" and an invalid one "invalid feature name". Either outcome is the same for every body, registry and evaluator. |
| Feature.BodyCheckedBeforeLookup | feature/handler.go:120-149 | Once the method and name pass, a body that does not decode gives "invalid JSON" and an empty app name gives "missing app_name". Both outcomes come before the registry lookup, so they are the same for every registry and evaluator. |
| Feature.OkOnlyForRegisteredApp | feature/handler.go:120-203 | A flag is evaluated iff the method is allowed, the name is valid, the body decodes, the app name is non-empty and the app has a client. The answer is then that client's verdict, given the environment, user id, app name, remote address and pod name as context. |
| Feature.UnknownCallerNeverServed | feature/handler.go:152-164 | A caller whose app is not on the allow-list is never served. Once the method, name and app name checks pass, it gets "unknown app_name". |
| Feature.TraversalRequestRefused | feature/handler.go:91-116 | `Handler` refuses `POST /features/../etc` as an invalid flag name, whatever the body or registry. In the running server the router redirects such a non-clean path before `Handler` sees it. |
| Otel.FirstNonEmptySpec | telemetry/otel.go:28-58 | A fallback chain yields its first non-empty candidate, all earlier ones being empty. It yields "" only when every candidate is empty. |
| Otel.ConfigFromEnv | telemetry/otel.go:28-58 | The service name is OTEL_SERVICE_NAME, else NAIS_APP_NAME, else "klage-unleash-proxy". The version is OTEL_SERVICE_VERSION, else "unknown". The environment is NAIS_CLUSTER_NAME, else UNLEASH_SERVER_API_ENV, else "development". The endpoint is copied. None of the first three is ever empty. |
| Otel.InitializeOutcomes | telemetry/otel.go:85-166 | With no OTLP endpoint it returns `(nil, nil)`, and that is the only error-free way to get no telemetry. A returned instance always has a tracer provider. An error-free one has both providers. |
| Otel.Shutdown | telemetry/otel.go:67-82 | Nil providers are skipped, and the tracer provider is shut down before the meter provider. The error is nil iff neither fails. The meter provider's error wins over the tracer provider's. |
| TelemetryMiddleware.Scheme | telemetry/middleware.go:131-140 | The reported scheme is never empty. |
| TelemetryMiddleware.SchemeChoice | telemetry/middleware.go:131-140 | TLS gives "https" whatever the header. Without TLS a non-empty `X-Forwarded-Proto` is used verbatim, and otherwise the scheme is "http". |
| TelemetryMiddleware.SpanName | telemetry/middleware.go:89 | The span name is the method, one space, then the path. |
| TelemetryMiddleware.ResponseWriter.constructor | telemetry/middleware.go:103-106 | A fresh wrapper records 200 and has forwarded nothing. |
| TelemetryMiddleware.ResponseWriter.WriteHeader | telemetry/middleware.go:24-27 | The code is recorded and forwarded to the wrapped writer. The recorded status stays the last code forwarded. |
| TelemetryMiddleware.CaptureStatus | telemetry/middleware.go:103-112 | The status put on the span is the last code the handler wrote, or 200 if it wrote none. Every write is forwarded in order. |
| TelemetryMiddleware.Middleware.constructor | telemetry/middleware.go:39-41 | A new middleware records its enabled flag and has no instruments. |
| TelemetryMiddleware.Middleware.Handler | telemetry/middleware.go:77-82 | A disabled middleware hands back `next` itself. An enabled one wraps it. |
| TelemetryMiddleware.NewMiddleware | telemetry/middleware.go:38-74 | Disabled: a middleware without instruments and no error. Enabled: a counter failure, and then a histogram failure, returns nil with that error. Otherwise it returns a middleware with a tracer, a counter and a histogram. |
| Logging.ReplaceAttrRenamesOnlyMessage | logging/logging.go:17-22 | Only the `msg` key is renamed, to `message`. Values and all other attributes pass unchanged, and applying the hook twice equals applying it once. |
| Logging.TraceAttrsKeys | logging/logging.go:37-43 | The correlation keys are `trace_id`, then `span_id`, each present iff its ID is. They are absent altogether iff both IDs are. |
| Logging.FromContext | logging/logging.go:30-46 | With neither ID it returns the default logger. Otherwise it returns the default logger with the correlation attributes added. |
| Logging.ResponseWriter.constructor | logging/logging.go:75-78 | A fresh wrapper records 200 and has forwarded nothing. |
| Logging.ResponseWriter.WriteHeader | logging/logging.go:54-57 | The code is recorded and forwarded. The recorded status stays the last code forwarded. |
| Logging.ShouldSkipLogging | logging/logging.go:60-62 | True exactly for `/isAlive`, `/isReady` and `/metrics`. |
| Logging.Serve | logging/logging.go:65-103 | A skipped path is served unwrapped and logs nothing. Any other request logs, in order: method, path, status (the last code written, else 200), duration, remote address and user agent, then the correlation attributes. The handler's writes reach the client either way. |
| UnleashListener.ContainsSpec | logging/unleash.go:21 | `Contains(s, sub)` iff `sub` occurs in `s` at some position. |
| UnleashListener.NewSlogListener | logging/unleash.go:82-86 | The listener is bound to the given application. |
| UnleashListener.OnErrorLevel | logging/unleash.go:16-33 | An SDK error is logged at Warn iff its text contains "backing off", and at Error otherwise. The text is kept verbatim under `warning` or `error` respectively. |
| UnleashListener.OnErrorLevelIgnoresApp | logging/unleash.go:21 | The Warn/Error choice depends on the message, never on the application. |
| UnleashListener.BackOffIsNeverAnError | logging/unleash.go:21-27 | Any message containing "backing off" is logged as a warning. |
| UnleashListener.CallbackLevels | logging/unleash.go:36-58 | A warning is logged at Warn with its text, readiness at Info with no other attribute, and a count at Debug with the flag name and its state. |
| UnleashListener.EveryRecordCarriesAppName | logging/unleash.go:11-58 | Every record a listener emits starts with the `app_name` attribute of the application it was created for. |

## Left out

- `main.go`'s wiring (server start, routes, the readiness handler's 200/503 mapping, signal handling) is not part of this model.
- Concurrency: `Initialize` builds clients in goroutines joined by a WaitGroup and an error channel, and the map is guarded by a mutex and the ready flag by an atomic. The model runs the constructions sequentially in allow-list order. The aggregated errors therefore come out in allow-list order, where the code gives channel-arrival order.
- Clients.Registry.Initialize: the Unleash SDK (`NewClient`, `WaitForReady`, `IsEnabled`, `Close`) is outside the model. Each client's construction outcome is an input, and evaluation is an opaque function.
- Clients.Registry.Initialize: `WaitForReady` has no timeout, so a construction can block for ever. A `Built`/`Failed` outcome cannot express that, so a start-up that hangs is outside the model.
- Flag names are Dafny strings, which hold only Unicode scalar values. A Go path can decode to bytes that are not valid UTF-8 (for example `%FF`). Such names are outside the model; the code rejects them anyway, because `PathEscape` escapes every byte from 0x80 up.
- JSON decoding of the request body and YAML parsing of the manifest are outside the model. Their results are inputs (`Option`/`Result`).
- Response bodies and log message texts are not modelled, including the allowed-app list in the 400 message. Only status codes, outcome kinds and log attributes are.
- Spans, span attributes, trace propagation and metric recording in the middleware and the handler are outside the model. Durations and clocks are parameters.
- Otel.InitializeOutcomes: resource attributes, exporter options and `InitTracer` are not modelled. Each OpenTelemetry library call is reduced to its error and the provider it yields.
- `metrics/metrics.go`, `telemetry/semconv.go` and `env/env.go` are not part of this model. Environment values enter as parameters.
- `logging.Initialize` beyond its `ReplaceAttr` hook (handler choice, level, `SetDefault`) is not modelled.
- `OnSent` and `OnRegistered` carry time and SDK payloads and are not modelled.
