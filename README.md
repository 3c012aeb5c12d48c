# mcp-tools telemetry and tool helpers, modelled in Dafny

This project models the core of `transform-ia/mcp-tools`, a Go library for MCP
(Model Context Protocol) tool servers:

- **Attribute namespacing** (`pkg/telemetry/attributes.go`): `PrefixAttributes` renames
  every key of a list of telemetry attributes with a prefix; `PrefixAttributers` gives
  each contributor of an ordered list its own positional namespace, `prefix.i.key`.
- **Composite exporters** (`pkg/telemetry/composite_logger.go`,
  `pkg/telemetry/composite_trace.go`): the `console+otlp` exporter factories resolve
  the OTLP protocol from the environment and build a console backend plus one OTLP
  backend (gRPC or HTTP). The composite fans every Export, ForceFlush and Shutdown
  out to both backends, in order, and aggregates failures with `wrapMultiErrors`.
- **Lifecycle** (`pkg/telemetry/telemetry.go`, `pkg/daemon/daemon.go`):
  `InitTelemetry` runs a fixed sequence of SDK steps and stops at the first failure; the
  shutdown procedure it returns always shuts down the trace, metric and log providers.
  `runDaemon` sequences initialisation, the daemon's logic and shutdown.
- **Tool helpers** (`pkg/tools/tools.go`, `pkg/tools/server.go`): typed argument
  access, the error result of a tool, registering tools on a server, and reading a
  required environment variable.

Files, one module each:

| file | module | models |
|---|---|---|
| `base.dfy` | `Base` | Option/Result, Go errors as messages, `errors.Wrap`, `%q`, `%d`, `os.Getenv` |
| `attributes.dfy` | `Attributes` | attributes.go |
| `backends.dfy` | `Backends` | the exporters a composite calls: capability flags, scripted outcomes, a shared call log |
| `composite_logger.dfy` | `CompositeLogger` | composite_logger.go, including `wrapMultiErrors` |
| `composite_trace.dfy` | `CompositeTrace` | composite_trace.go |
| `telemetry.dfy` | `Telemetry` | telemetry.go |
| `daemon.dfy` | `Daemon` | daemon.go |
| `tools.dfy` | `Tools` | tools.go |
| `server.dfy` | `ToolsServer` | server.go |

How the Go code is represented:

- A Go `error` is its message. `errors.Wrap(err, l)` is the message `l + ": " + err`.
  `%q` puts double quotes around a string. `%d` writes a natural number in decimal.
- The environment is a `map<string, string>`. An unset variable reads as `""`, as
  `os.Getenv` does.
- Imperative code stays imperative. `PrefixAttributes` fills an `array` slot by slot.
  `PrefixAttributers` appends in two nested loops. Each composite is a class over a
  two-slot `array` of nullable backends, filled in place by its factory. Each fan-out
  is a `for` loop over that array. `ServerAddTools` loops over the tools and calls
  `AddTool` on an `MCPServer` object. Each of these methods is proved against a
  specification function: `PrefixAll`, `PrefixIndexed`, `Targets`/`CallsTo`/`Failures`,
  `Aggregate` and `Registrations`.
- Backends and SDK calls are foreign code, so each has a scripted outcome. Every call
  a backend receives is appended to a `CallLog` that the backends of one composite
  share. This makes the order of calls across backends part of each contract.
  `InitTelemetry` records its steps and the providers it installs in an `Sdk` object.
- `runDaemon`, `GetParam`, `GetOptionalParam`, `TextContentError` and `MustGetenv` are
  pure functions of their inputs and of the callbacks' outcomes.

Where the code and its documentation or tests disagree, the model follows the code:

- `PrefixAttributers` with an empty prefix produces `".0.key"`. A test in
  `pkg/telemetry/attributes_test.go` expects `"0.key"` (lemma
  `Attributes.EmptyPrefixKeepsLeadingDot`).
- `wrapMultiErrors` with one error still puts the `"error(s) occurred: "` marker in front
  of its message (lemma `CompositeLogger.AggregateSingle`).
- The traces protocol variable `otelExporterOTLPTracesProtoEnvKey` is used in
  composite_trace.go but is not defined in any modelled file. The model uses the name
  the OTLP exporter specification gives it, `OTEL_EXPORTER_OTLP_TRACES_PROTOCOL`.

## Model

| member | source | states |
|---|---|---|
| `Base.Decimal` | pkg/telemetry/attributes.go:33 | `%d` of a position is a non-empty string of decimal digits, one digit exactly for positions below ten |
| `Base.ParseDecimalOfDecimal` | pkg/telemetry/attributes.go:33 | the decimal text of a position reads back as that position |
| `Base.DecimalInjective` | pkg/telemetry/attributes.go:33 | different positions have different decimal texts |
| `Base.UnwrapWrap` | pkg/daemon/daemon.go:19 | removing the annotation that `errors.Wrap` added gives back the original error |
| `Attributes.PrefixAttributes` | pkg/telemetry/attributes.go:14-23 | the result has the input's length; pair i has key `prefix + key_i` and value `value_i` |
| `Attributes.EmptyPrefixIsIdentity` | pkg/telemetry/attributes.go:14-23 | with an empty prefix the pairs come back unchanged |
| `Attributes.PrefixTwice` | pkg/telemetry/attributes.go:14-23 | prefixing with `inner` and then with `outer` equals prefixing once with `outer + inner` |
| `Attributes.StripAllPrefixAll` | pkg/telemetry/attributes.go:14-23 | stripping the same prefix from the renamed pairs gives the original pairs back |
| `Attributes.PrefixAttributers` | pkg/telemetry/attributes.go:27-39 | the output is every contributor's list renamed into its own namespace `prefix.i.`, concatenated in contributor order |
| `Attributes.PrefixIndexedLength` | pkg/telemetry/attributes.go:27-39 | the output holds exactly as many pairs as all contributors together |
| `Attributes.TotalLengthOfPrefix` | pkg/telemetry/attributes.go:29 | the first k contributors hold no more pairs than all of them |
| `Attributes.PrefixIndexedAt` | pkg/telemetry/attributes.go:29-36 | pair j of contributor i appears right after the earlier contributors' pairs, keyed `prefix.i.key`, with its value unchanged; an empty contributor shifts nothing |
| `Attributes.IndexedKeysDistinct` | pkg/telemetry/attributes.go:33 | keys made for different positions differ, whatever the original keys |
| `Attributes.PrefixIndexedNoCollision` | pkg/telemetry/attributes.go:27-39 | pairs from different contributors never share a key in the output |
| `Attributes.EmptyPrefixKeepsLeadingDot` | pkg/telemetry/attributes.go:33 | with an empty prefix the key is `".0.key"`, not `"0.key"` |
| `Backends.UnprobedTargetsAll` | pkg/telemetry/composite_logger.go:102-106 | a fan-out without a capability check calls every backend, in order |
| `Backends.ProbeIrrelevantWhenCapable` | pkg/telemetry/composite_logger.go:134-139 | probing skips nothing when every backend has the operation |
| `Backends.ProbedTargetsExactlyCapable` | pkg/telemetry/composite_logger.go:117-123 | a probing fan-out calls a backend if and only if the backend has the operation |
| `Backends.NoFailuresIffAllSucceed` | pkg/telemetry/composite_logger.go:100-108 | no failure is collected if and only if every called backend succeeded |
| `Backends.FailuresComeFromTargets` | pkg/telemetry/composite_logger.go:100-108 | every collected failure is the error of a called backend, and there are no more failures than calls |
| `CompositeLogger.ProtocolPrecedence` | pkg/telemetry/composite_logger.go:34-48 | the logs variable wins if non-empty, then the generic variable, then `http/protobuf`; the result is never empty |
| `CompositeLogger.ProtocolDependsOnlyOnTwoKeys` | pkg/telemetry/composite_logger.go:34-48 | the resolved protocol depends only on the signal's variable and the generic variable |
| `CompositeLogger.SplitJoin` | pkg/telemetry/composite_logger.go:93 | splitting the comma-joined messages at commas gives the messages back, when none contains a comma |
| `CompositeLogger.Aggregate` | pkg/telemetry/composite_logger.go:80-94 | no error if and only if the list is empty; otherwise one error whose message starts with `"error(s) occurred: "` |
| `CompositeLogger.AggregateRecoversMessages` | pkg/telemetry/composite_logger.go:87-93 | the aggregated message lists every message, in order, recoverable when messages contain no comma |
| `CompositeLogger.AggregateSingle` | pkg/telemetry/composite_logger.go:93 | one failure still gets the marker in front |
| `CompositeLogger.WrapMultiErrors` | pkg/telemetry/composite_logger.go:80-94 | the loop over a preallocated array returns `Aggregate(errs)` |
| `CompositeLogger.CompositeExporter.Export` | pkg/telemetry/composite_logger.go:96-109 | every backend receives the batch once, in order, whatever earlier ones return; the error aggregates their failures in call order |
| `CompositeLogger.CompositeExporter.ForceFlush` | pkg/telemetry/composite_logger.go:111-126 | exactly the backends that have ForceFlush are flushed, in order; the failures are aggregated |
| `CompositeLogger.CompositeExporter.Shutdown` | pkg/telemetry/composite_logger.go:128-143 | exactly the backends that have Shutdown are shut down, in order; the failures are aggregated |
| `CompositeLogger.CompositeExporter.constructor` | pkg/telemetry/composite_logger.go:36-38 | a fresh two-slot array with both slots empty |
| `CompositeLogger.NewCompositeLogExporter` | pkg/telemetry/composite_logger.go:30-71 | console failure, unsupported protocol and remote failure each give their labelled error; otherwise slot 0 holds the console backend and slot 1 the backend of the resolved protocol |
| `CompositeLogger.OneOfTwoBackendsFails` | pkg/telemetry/composite_logger.go:96-109 | when only the remote backend fails, both are still called, and the error is that failure alone behind the marker |
| `CompositeTrace.CompositeTraceExporter.ExportSpans` | pkg/telemetry/composite_trace.go:67-80 | every backend receives the spans once, in order; the failures are aggregated |
| `CompositeTrace.CompositeTraceExporter.Shutdown` | pkg/telemetry/composite_trace.go:82-95 | every backend is shut down, in order, without a capability check; the failures are aggregated |
| `CompositeTrace.CompositeTraceExporter.ForceFlush` | pkg/telemetry/composite_trace.go:97-112 | exactly the backends that have ForceFlush are flushed, in order |
| `CompositeTrace.CompositeTraceExporter.constructor` | pkg/telemetry/composite_trace.go:25-27 | a fresh two-slot array with both slots empty |
| `CompositeTrace.NewCompositeTraceExporter` | pkg/telemetry/composite_trace.go:19-58 | the same factory cases for spans, resolved from the traces variable, with the `stdouttrace.New`, `otlptracegrpc.New` and `otlptracehttp.New` labels |
| `CompositeTrace.TracesKeyIsNotGeneric` | pkg/telemetry/composite_trace.go:23-32 | the traces variable is distinct from the generic and logs variables, so its precedence applies |
| `CompositeTrace.UnconditionalShutdownMatchesProbing` | pkg/telemetry/composite_trace.go:82-95 | for span exporters, shutting down every backend is the same as probing for Shutdown |
| `Telemetry.NewResource` | pkg/telemetry/telemetry.go:22-31 | the resource holds the service name and version and every detected attribute; a detected attribute overrides a given one |
| `Telemetry.FirstFailureFrom` | pkg/telemetry/telemetry.go:20-73 | the first failing step at or after a position: all steps before it succeed, and it fails |
| `Telemetry.InitTelemetry` | pkg/telemetry/telemetry.go:20-93 | runs the steps up to the first failure and returns its labelled error; installed providers stay installed; on success returns the three providers bound to the resource |
| `Telemetry.ShutdownFunc.Call` | pkg/telemetry/telemetry.go:76-92 | shuts down the trace, metric and log providers, in that order, each one regardless of the others; the labelled failures are aggregated |
| `Telemetry.FirstFailureCases` | pkg/telemetry/telemetry.go:32-68 | initialisation stops at the resource, span exporter, metric reader or log exporter, whichever fails first, having run exactly the steps before it |
| `Telemetry.ExecutedStopsAtFirstFailure` | pkg/telemetry/telemetry.go:20-73 | the executed steps are a prefix of the fixed order; every step except the last succeeded, and an early stop ends on the failing step |
| `Telemetry.ProvidersInstalledWithoutRollback` | pkg/telemetry/telemetry.go:36-62 | the trace provider is installed if and only if the resource and span exporter were built; the meter provider also needs the metric reader |
| `Telemetry.ShutdownCleanIffAllSucceed` | pkg/telemetry/telemetry.go:76-92 | shutdown reports no error if and only if all three providers shut down cleanly |
| `Telemetry.OnlyMeterFails` | pkg/telemetry/telemetry.go:83-91 | when only the metric provider fails, the error is `metricProvider.Shutdown: …` alone behind the marker |
| `Telemetry.ResourceCarriesServiceIdentity` | pkg/telemetry/telemetry.go:22-73 | all three providers share one resource carrying the given service name and version |
| `Daemon.RunDaemon` | pkg/daemon/daemon.go:14-36 | shutdown runs exactly once if and only if init succeeded; logic runs at most once; the error is labelled by the stage that failed; a shutdown failure after a logic failure is printed, not returned |
| `Daemon.ShutdownRunsLast` | pkg/daemon/daemon.go:22-33 | when shutdown runs, it runs after the logic |
| `Daemon.ReturnedErrorKeepsCause` | pkg/daemon/daemon.go:17-33 | unwrapping the returned error with its stage's label gives back that stage's error |
| `Daemon.LogicFailureMasksShutdown` | pkg/daemon/daemon.go:22-29 | after a logic failure the returned error does not depend on the shutdown outcome |
| `Tools.GetParam` | pkg/tools/tools.go:39-55 | a value only when the argument is present and of the requested type, and then exactly that value; otherwise the missing-argument or invalid-value error |
| `Tools.GetOptionalParam` | pkg/tools/tools.go:59-76 | neither value nor error exactly when the argument is absent; a wrongly typed argument gives the invalid-value error |
| `Tools.OptionalAgreesWhenPresent` | pkg/tools/tools.go:39-76 | on a present argument both accessors give the same value or the same error |
| `Tools.AnyAcceptsAllButNull` | pkg/tools/tools.go:45 | asking for `any` accepts every present argument except null |
| `Tools.TextContentError` | pkg/tools/tools.go:26-36 | an error result with exactly one content item, of type `"text"`, starting `Error: ` |
| `Tools.ErrorMessageOfTextContentError` | pkg/tools/tools.go:26-36 | the error's message can be read back from the result |
| `Tools.MCPServer.AddTool` | pkg/tools/tools.go:116 | the tool definition and its handler are added after the earlier ones |
| `Tools.FirstFailingTool` | pkg/tools/tools.go:110-115 | the position of the first tool whose `New()` fails: every earlier one succeeds |
| `Tools.ServerAddTools` | pkg/tools/tools.go:109-120 | tools are added in list order up to the first `New()` failure, which is returned labelled with its index and name; no error if and only if every tool was added |
| `Tools.NoFailureIffAllBuilt` | pkg/tools/tools.go:109-120 | all tools are added if and only if every `New()` succeeds |
| `Tools.FailuresNamePosition` | pkg/tools/tools.go:113 | failures of tools at different positions give different errors, whatever the tools' names |
| `ToolsServer.MustGetenv` | pkg/tools/server.go:11-17 | a value if and only if the variable is set and non-empty, and then exactly its value; otherwise `missing environment variable "KEY"` |
| `ToolsServer.EmptyIsUnset` | pkg/tools/server.go:13 | a variable set to the empty string is rejected exactly as an unset one |
| `ToolsServer.MissingMessageNamesKey` | pkg/tools/server.go:14 | the error message starts with the phrase and contains the key |
| `ToolsServer.OnlyTheKeyMatters` | pkg/tools/server.go:12 | other variables do not affect the result |

## Left out

- The `sync.Mutex` in both composites is concurrency. Each fan-out is one atomic method call.
- Backend internals (stdout, OTLP gRPC and OTLP HTTP exporters) are foreign code. Each backend is a fixed set of capability flags and scripted outcomes.
- `resource.New`'s environment, container and host detection is foreign code. It is a map of detected attributes in the script.
- `otel.SetTracerProvider`, `otel.SetMeterProvider` and the W3C Trace Context and Baggage propagator are foreign code. They are fields of the `Sdk` object.
- The `autoexport.Register*Exporter` registry and the `init()` hooks are left out. Only the factory closures are modelled, as `NewCompositeLogExporter` and `NewCompositeTraceExporter`.
- `Base.Quote`: Go's `%q` also escapes quotes, backslashes and control characters. The model only adds the surrounding quotes.
- `Tools.GetParam`: `%q` of a number, array or object prints the value itself. The model prints only the Go type name there.
- `Tools.GetParam`: only the dynamic types JSON decoding produces and `any` are modelled as `T`. A Go type such as `int` never matches a decoded argument and is not represented.
- `TextRenderOrJSON` (pkg/tools/tools.go:89-106) depends on `encoding/json` and `text/template`. `WithOptionalJSONOutput` only builds an option for the MCP library.
- `MCPServer.AddTool` internals belong to the MCP library. The server is its ordered list of added tools; replacing a tool of the same name is not modelled.
- `RunDaemon`'s `os.Exit(1)` and its printing of the returned error (pkg/daemon/daemon.go:39-44) are process I/O. `Daemon.RunDaemon` models `runDaemon`, which it wraps.
- The `context.Context` arguments carry no data the modelled code reads.
- Go's nil slice versus empty slice distinction has no counterpart in Dafny sequences.
- Attribute values are kept opaque. Float attribute values are reals.
- The `cmd/` programs (client, cli, daemon) are not part of this model.
