# zap-plus coordination core, modelled in Dafny

zap-plus is a thin Go facade over zap (logging) and OpenTelemetry (tracing). This project
models the small decision-and-state core it owns:

- **Configuration validity** (`config.dfy`, module `Config`): the `Config` and `Trace` records
  and the validity predicate that their `validate:"eq=…|eq=…"` tags define. A tag is modelled
  as its list of alternatives, and `Satisfies` is the tag check.
- **Tracing agent** (`trace.dfy`, module `Trace`): `createExporter` as a dispatch on `Batcher`,
  `startAgent` reduced to its success or failure, and the process-wide registry of started
  endpoints plus the current tracer name. The registry is the class `Trace.Agent`. Its
  `StartAgent` is specified by the pure transition `Trace.Step`. Whether the foreign
  `jaeger.New`/`zipkin.New` succeeds is the boolean parameter `exporterOk` of each call.
- **Logger construction and the active logger** (`log.dfy`, module `Log`): level parsing,
  writer selection from `Mode`, the option fold (`WithWriter`), encoder selection from
  `Format`, and the `WithContext` bridge that adds `traceId`/`spanId` fields. The class
  `Log.Registry` holds the active logger and the tracing agent. Its `NewLogger` validates,
  builds the logger, installs it, and then takes one `StartAgent` step. It is specified by
  the pure function `Log.Build` together with `Trace.Step`.

Loggers, writers and encoders are abstract values. A logger records its encoder (`Json` or
`Console`), its writers (`File`, `Stdout`, `Extra(id)`), its minimum level and its fields.

Three behaviours of the code are worth noting:
- An empty `Batcher` validates even when `Endpoint` is set. Such a config then never starts
  tracing (`Config.EndpointWithoutBatcherValid`, `Trace.EndpointWithoutBatcherNeverRecorded`).
- `WithContext` returns the base logger when *either* id is empty, not only when both are.
- A failed start is not recorded, so a later call with the *same* endpoint retries
  (`Trace.FailureAllowsRetry`).

## Model

| member | source | states |
|---|---|---|
| `Config.Satisfies` | config/config.go:26-37 | a tag of `eq=` alternatives accepts a value exactly when the value is one of the alternatives |
| `Config.LevelValidity` | config/config.go:26 | `Level` is valid iff it is `debug`, `info`, `warn` or `error` |
| `Config.FormatValidity` | config/config.go:28 | `Format` is valid iff it is `text` or `json` |
| `Config.ModeValidity` | config/config.go:29 | `Mode` is valid iff it is `file`, `console` or empty |
| `Config.BatcherValidity` | config/config.go:37 | `Batcher` is valid iff it is `jaeger`, `zipkin` or empty |
| `Config.UntaggedFieldsUnconstrained` | config/config.go:23-38 | changing `Name`, `Endpoint`, `Sampler` or the file settings never changes whether a config is valid |
| `Config.EndpointWithoutBatcherValid` | config/config.go:35-37 | a non-empty `Endpoint` with an empty `Batcher` still validates |
| `Trace.CreateExporter` | trace/trace.go:103-113 | an exporter is built iff `Batcher` is `jaeger` or `zipkin` and the constructor succeeds; it is bound to the endpoint and its kind follows `Batcher`; any other kind, `""` included, yields `UnknownExporter(batcher)` |
| `Trace.StartProvider` | trace/trace.go:71-101 | with an empty endpoint `startAgent` builds no exporter and succeeds; otherwise it succeeds iff `createExporter` does, batches exactly the exporter `createExporter` built, and fails with its error |
| `Trace.StepEffect` | trace/trace.go:52-69 | a call either changes nothing or adds its endpoint and sets the tracer to `Name`; it does the latter iff the endpoint is new and `startAgent` succeeds; the set only grows, by at most that endpoint |
| `Trace.KnownEndpointNoop` | trace/trace.go:56-59 | an endpoint already recorded makes the call a no-op on the set and the tracer |
| `Trace.FailureAllowsRetry` | trace/trace.go:61-68 | a failed start records nothing, and a later successful call with the same endpoint records it and sets the tracer |
| `Trace.StepIdempotent` | trace/trace.go:52-69 | two calls in a row with the same config and outcome leave the state of one call |
| `Trace.StartedStaysStarted` | trace/trace.go:56-68 | after a successful start, a repeat call changes nothing whatever its constructor outcome |
| `Trace.EmptyEndpointRecorded` | trace/trace.go:79-100 | with an empty endpoint the call always succeeds and `""` ends up recorded |
| `Trace.EndpointWithoutBatcherNeverRecorded` | trace/trace.go:79-111 | a validated config with an endpoint and no `Batcher` fails with `UnknownExporter("")` and never records its endpoint |
| `Trace.RunMonotone` | trace/trace.go:45-69 | over any sequence of calls the endpoint set only grows, and every endpoint in it was there before or came from some call |
| `Trace.RecordedStaysRecorded` | trace/trace.go:56-59 | any number of later calls for a recorded endpoint leave the whole state unchanged |
| `Trace.Agent.constructor` | trace/trace.go:44-45 | the registry starts with no endpoints and the tracer named `zap-plus` |
| `Trace.Agent.StartAgent` | trace/trace.go:52-69 | the new state is `Step` of the old one, so the set of endpoints never shrinks |
| `Log.ParseLevel` | log/log.go:60-64 | the level parses iff it is valid, and parsing gives back the level with that name |
| `Log.ParseLevelName` | log/log.go:60-61 | parsing a level's name gives that level |
| `Log.LastWriterWins` | log/log.go:76-79 | options apply in order, so the last `WithWriter` decides the extra writer, a nil one included; no options means no extra writer |
| `Log.ApplyOptions` | log/log.go:76-79 | the option loop ends with the fold of all options, whose writer is the last option's |
| `Log.ModeSelectsWriters` | log/log.go:66-74 | mode `file` gives exactly `[File]`, `console` exactly `[Stdout]`, any other mode `[File, Stdout]` in that order |
| `Log.ValidDefaultModeIsEmpty` | log/log.go:72-73 | after validation the default branch is taken only for the empty mode, which writes to file then stdout |
| `Log.ExtraWriterLast` | log/log.go:80-82 | an extra writer is appended last, after the writers of any mode, and is not among them |
| `Log.ModeExcludesWriters` | log/log.go:67-82 | a console logger never writes to the file and a file logger never to stdout; every other mode includes both |
| `Log.EncoderFor` | log/log.go:84-97 | there is an encoder iff the format is valid: `json` selects JSON and `text` selects console |
| `Log.BuildOkIffValid` | log/log.go:53-97 | construction succeeds iff the config validates; after validation neither the level-parse error nor the unknown-format branch is reachable |
| `Log.BuiltLogger` | log/log.go:84-98 | a valid config's logger has the configured level, the encoder of its format, the writers of its mode plus the extra writer, and no fields |
| `Log.ConsoleWithExtraWriter` | log/log_test.go:17-35 | a debug console logger with an extra writer writes to stdout and then to that writer, at level debug |
| `Log.SpanIdFromContext` | log/log.go:121-128 | a context without a span id gives the empty string, one with a span id gives that id's string; for a real context the result is empty iff the id is absent |
| `Log.TraceIdFromContext` | log/log.go:130-137 | a context without a trace id gives the empty string, one with a trace id gives that id's string; for a real context the result is empty iff the id is absent |
| `Log.Registry.Log` | log/log.go:139-144 | `log()` returns the active logger, the one the last `SetLog` or successful `NewLogger` installed |
| `Log.Registry.WithContext` | log/log.go:107-119 | for a real span context, the active logger itself comes back iff the trace or span id is missing; otherwise the active logger gains exactly `traceId` and `spanId` |
| `Log.AttachSpan` | log/log.go:107-119 | the base logger is returned iff either id is empty; otherwise exactly the fields `traceId` then `spanId` are added, and the core and options are kept |
| `Log.AttachSpanWellFormed` | log/log.go:107-137 | for a real span context, the base logger comes back iff the trace or span id is missing, and otherwise gains those two ids as fields |
| `Log.Registry.constructor` | log/log.go:34-39 | the active logger starts as the development console logger on stdout at `info` |
| `Log.Registry.SetLog` | log/log.go:139-150 | after `SetLog(l)`, `log()` returns `l`; the tracing state is untouched |
| `Log.Registry.With` | log/log.go:176-178 | the child logger is discarded, so the active logger is unchanged |
| `Log.Registry.NewLogger` | log/log.go:53-103 | succeeds iff the config validates, whatever the tracing outcome; on success installs `Build`'s logger, then takes one `StartAgent` step; on error neither the logger nor the tracing state changes |

## Left out

- zap itself is not modelled: encoding, level filtering, stack traces and the actual writes. The same goes for the forwarders `Info`, `Error`, `Warn`, `Panic`, `Debug`, `Fatal`, `Check`, `Named`, `Core`, `Sugar`, `Sync` and `WithOptions` (log/log.go:152-202). They only hand a call to the active logger.
- lumberjack file rotation is I/O in a foreign library. Its settings are carried as `FileSink` and never interpreted.
- The go-playground validator engine is not modelled. Its effect is the tag predicate `Config.Valid`. The error it returns is reduced to `InvalidConfig`, without the offending field.
- Log.ParseLevel: accepts only the four configured names. zap's `UnmarshalText` also accepts other spellings, but validation rejects those before parsing, so `NewLogger` behaves the same.
- A nil `Option` passed to `NewLogger` makes the call to it panic (log/log.go:78). A `LogOption` value cannot be nil, so that panic is not modelled.
- The `logger.Panic("unknown format")` branch (log/log.go:96) is modelled as an `UnknownFormat` error with no state change. Validation makes that branch unreachable (`Log.BuildOkIffValid`).
- The OpenTelemetry SDK is not modelled: the sampler, resource, batcher, propagator and error handler (trace/trace.go:72-98). Nor are the network construction of the exporters or the `log.Println` of errors. Exporter success is the `exporterOk` parameter.
- `Start` (trace/trace.go:116-118) and `GetTracerProvider` delegate to OpenTelemetry and are not modelled. The tracer is represented by its name.
- The hex `String()` of trace and span ids is not modelled. A present id is its hex string, and `Log.WellFormed` records only its length.
- `Sampler` is a `float64`. It is kept as its 64-bit pattern and never reasoned about.
- Mutexes and concurrency are not modelled; the model is sequential. That includes the unsynchronised write to the active logger at log/log.go:98.
- Log.Registry.NewLogger: installing the logger before `StartAgent` is kept as statement order only. In a sequential model `StartAgent` does not read the logger, so the order has no observable consequence.
