/** Telemetry start-up and tear-down (pkg/telemetry/telemetry.go). InitTelemetry runs a
    fixed sequence of SDK steps, stopping at the first failure, and returns a shutdown
    procedure that always tries the trace, metric and log providers, in that order.
    The SDK is outside this model: each fallible step has a scripted outcome, and the
    process-wide provider slots and the calls made are kept in an `Sdk` object. */
module Telemetry {
  import opened Base
  import opened Attributes
  import opened CompositeLogger

  /** Resource attribute keys of the OpenTelemetry semantic conventions, version 1.17.0. */
  const ServiceNameKey := "service.name"
  const ServiceVersionKey := "service.version"

  /** The identity every provider is bound to. */
  datatype Resource = Resource(attributes: map<string, Value>)

  /** resource.New with the service name and version, followed by the attributes the
      environment, container and host detectors find; later attributes win, so a
      detected service name replaces the given one. */
  function NewResource(serviceName: string, version: string, detected: map<string, Value>): (res: Resource)
    ensures res.attributes.Keys == {ServiceNameKey, ServiceVersionKey} + detected.Keys
    ensures ServiceNameKey !in detected ==> res.attributes[ServiceNameKey] == StringValue(serviceName)
    ensures ServiceVersionKey !in detected ==> res.attributes[ServiceVersionKey] == StringValue(version)
    ensures forall k :: k in detected ==> res.attributes[k] == detected[k]
  {
    Resource(map[ServiceNameKey := StringValue(serviceName), ServiceVersionKey := StringValue(version)] + detected)
  }

  datatype Signal = Traces | Metrics | Logs

  /** A provider bound to the resource; what its Shutdown returns is scripted. */
  datatype Provider = Provider(signal: Signal, resource: Resource, shutdownErr: Option<Error>)

  /** The steps of InitTelemetry, in the order they run. */
  datatype Step =
    | NewResourceStep        // resource.New
    | NewSpanExporterStep    // autoexport.NewSpanExporter
    | TracerProviderStep     // NewTracerProvider, SetTracerProvider, SetTextMapPropagator
    | NewMetricReaderStep    // autoexport.NewMetricReader
    | MeterProviderStep      // NewMeterProvider, SetMeterProvider
    | NewLogExporterStep     // autoexport.NewLogExporter
    | LoggerProviderStep     // NewLoggerProvider

  const InitOrder: seq<Step> := [NewResourceStep, NewSpanExporterStep, TracerProviderStep,
    NewMetricReaderStep, MeterProviderStep, NewLogExporterStep, LoggerProviderStep]

  /** What the SDK calls InitTelemetry makes, and the providers' Shutdown calls, return. */
  datatype Script = Script(
    detected: map<string, Value>,
    resourceErr: Option<Error>,
    spanExporterErr: Option<Error>,
    metricReaderErr: Option<Error>,
    logExporterErr: Option<Error>,
    tracerShutdownErr: Option<Error>,
    meterShutdownErr: Option<Error>,
    loggerShutdownErr: Option<Error>)

  /** The error a step returns; building and installing providers cannot fail. */
  function StepErr(s: Script, step: Step): Option<Error>
  {
    match step
    case NewResourceStep => s.resourceErr
    case NewSpanExporterStep => s.spanExporterErr
    case NewMetricReaderStep => s.metricReaderErr
    case NewLogExporterStep => s.logExporterErr
    case _ => None
  }

  /** The annotation InitTelemetry wraps a step's error with. */
  function StepLabel(step: Step): string
  {
    match step
    case NewResourceStep => "resource.New"
    case NewSpanExporterStep => "autoexport.NewSpanExporter"
    case NewMetricReaderStep => "autoexport.NewMetricReader"
    case NewLogExporterStep => "autoexport.NewLogExporter"
    case _ => ""
  }

  /** The position in InitOrder of the first step that fails, at or after `from`. */
  function FirstFailureFrom(s: Script, from: nat): (k: nat)
    requires from <= |InitOrder|
    ensures from <= k <= |InitOrder|
    ensures forall i :: from <= i < k ==> StepErr(s, InitOrder[i]).None?
    ensures k < |InitOrder| ==> StepErr(s, InitOrder[k]).Some?
    decreases |InitOrder| - from
  {
    if from == |InitOrder| || StepErr(s, InitOrder[from]).Some? then from else FirstFailureFrom(s, from + 1)
  }

  /** The position in InitOrder of the first failing step, |InitOrder| when none fails. */
  function FirstFailure(s: Script): nat
  {
    FirstFailureFrom(s, 0)
  }

  /** The steps InitTelemetry runs: all of them, up to and including the first that fails. */
  function Executed(s: Script): seq<Step>
  {
    var k := FirstFailure(s);
    if k < |InitOrder| then InitOrder[..k + 1] else InitOrder
  }

  /** The error InitTelemetry returns: the first failing step's error, wrapped with that
      step's annotation, or None when no step fails. */
  function InitError(s: Script): (e: Option<Error>)
    ensures e.Some? <==> FirstFailure(s) < |InitOrder|
  {
    var k := FirstFailure(s);
    if k < |InitOrder| then Some(Wrap(StepErr(s, InitOrder[k]).value, StepLabel(InitOrder[k]))) else None
  }

  /** The process-wide state the SDK keeps (the global tracer and meter providers and
      text-map propagator), and a record of the calls made on it. */
  class Sdk {
    var tracerProvider: Option<Provider>
    var meterProvider: Option<Provider>
    var propagatorSet: bool
    var steps: seq<Step>
    var shutdowns: seq<Signal>

    constructor ()
      ensures tracerProvider == None && meterProvider == None && !propagatorSet
      ensures steps == [] && shutdowns == []
    {
      tracerProvider, meterProvider, propagatorSet := None, None, false;
      steps, shutdowns := [], [];
    }
  }

  /** The errors the shutdown procedure collects, each wrapped with its provider's
      annotation, in trace, metric, log order. */
  function ShutdownFailures(f: ShutdownFunc): seq<Error>
  {
    (if f.tracer.shutdownErr.Some? then [Wrap(f.tracer.shutdownErr.value, "tracerProvider.Shutdown")] else [])
    + (if f.meter.shutdownErr.Some? then [Wrap(f.meter.shutdownErr.value, "metricProvider.Shutdown")] else [])
    + (if f.logger.shutdownErr.Some? then [Wrap(f.logger.shutdownErr.value, "loggerProvider.Shutdown")] else [])
  }

  /** The shutdown procedure InitTelemetry returns, closed over the three providers. */
  datatype ShutdownFunc = ShutdownFunc(tracer: Provider, meter: Provider, logger: Provider)
  {
    /** Shuts down the trace, metric and log providers, in that order, each whatever the
        earlier ones returned, and aggregates their labelled failures. */
    method Call(sdk: Sdk) returns (err: Option<Error>)
      modifies sdk
      ensures sdk.shutdowns == old(sdk.shutdowns) + [tracer.signal, meter.signal, logger.signal]
      ensures err == Aggregate(ShutdownFailures(this))
      ensures sdk.tracerProvider == old(sdk.tracerProvider) && sdk.meterProvider == old(sdk.meterProvider)
      ensures sdk.propagatorSet == old(sdk.propagatorSet) && sdk.steps == old(sdk.steps)
    {
      var errs: seq<Error> := [];

      sdk.shutdowns := sdk.shutdowns + [tracer.signal];
      if tracer.shutdownErr.Some? {
        errs := errs + [Wrap(tracer.shutdownErr.value, "tracerProvider.Shutdown")];
      }

      sdk.shutdowns := sdk.shutdowns + [meter.signal];
      if meter.shutdownErr.Some? {
        errs := errs + [Wrap(meter.shutdownErr.value, "metricProvider.Shutdown")];
      }

      sdk.shutdowns := sdk.shutdowns + [logger.signal];
      if logger.shutdownErr.Some? {
        errs := errs + [Wrap(logger.shutdownErr.value, "loggerProvider.Shutdown")];
      }

      assert errs == ShutdownFailures(this);
      err := WrapMultiErrors(errs);
    }
  }

  /** The shutdown procedure a successful InitTelemetry returns. */
  function Providers(serviceName: string, version: string, s: Script): ShutdownFunc
  {
    var res := NewResource(serviceName, version, s.detected);
    ShutdownFunc(Provider(Traces, res, s.tracerShutdownErr),
                 Provider(Metrics, res, s.meterShutdownErr),
                 Provider(Logs, res, s.loggerShutdownErr))
  }

  /** Models InitTelemetry: runs the steps in order and returns at the first failure with
      that step's error, wrapped with its annotation, and no shutdown procedure. Providers
      installed before the failure stay installed. */
  method InitTelemetry(sdk: Sdk, serviceName: string, version: string, s: Script) returns (r: Result<ShutdownFunc>)
    modifies sdk
    ensures sdk.steps == old(sdk.steps) + Executed(s)
    ensures r.Err? <==> InitError(s).Some?
    ensures r.Err? ==> r.error == InitError(s).value
    ensures r.Ok? ==> r.value == Providers(serviceName, version, s)
    ensures sdk.tracerProvider == if s.resourceErr.None? && s.spanExporterErr.None?
      then Some(Providers(serviceName, version, s).tracer) else old(sdk.tracerProvider)
    ensures sdk.propagatorSet == (old(sdk.propagatorSet) || (s.resourceErr.None? && s.spanExporterErr.None?))
    ensures sdk.meterProvider == if s.resourceErr.None? && s.spanExporterErr.None? && s.metricReaderErr.None?
      then Some(Providers(serviceName, version, s).meter) else old(sdk.meterProvider)
    ensures sdk.shutdowns == old(sdk.shutdowns)
  {
    FirstFailureCases(s);
    ghost var before := sdk.steps;

    sdk.steps := sdk.steps + [NewResourceStep];
    if s.resourceErr.Some? {
      return Err(Wrap(s.resourceErr.value, "resource.New"));
    }
    var res := NewResource(serviceName, version, s.detected);

    sdk.steps := sdk.steps + [NewSpanExporterStep];
    assert sdk.steps == before + [NewResourceStep, NewSpanExporterStep];
    if s.spanExporterErr.Some? {
      return Err(Wrap(s.spanExporterErr.value, "autoexport.NewSpanExporter"));
    }

    sdk.steps := sdk.steps + [TracerProviderStep];
    var tracerProvider := Provider(Traces, res, s.tracerShutdownErr);
    sdk.tracerProvider := Some(tracerProvider);
    sdk.propagatorSet := true;

    sdk.steps := sdk.steps + [NewMetricReaderStep];
    assert sdk.steps == before + [NewResourceStep, NewSpanExporterStep, TracerProviderStep, NewMetricReaderStep];
    if s.metricReaderErr.Some? {
      return Err(Wrap(s.metricReaderErr.value, "autoexport.NewMetricReader"));
    }

    sdk.steps := sdk.steps + [MeterProviderStep];
    var metricProvider := Provider(Metrics, res, s.meterShutdownErr);
    sdk.meterProvider := Some(metricProvider);

    sdk.steps := sdk.steps + [NewLogExporterStep];
    assert sdk.steps == before + [NewResourceStep, NewSpanExporterStep, TracerProviderStep, NewMetricReaderStep,
                                  MeterProviderStep, NewLogExporterStep];
    if s.logExporterErr.Some? {
      return Err(Wrap(s.logExporterErr.value, "autoexport.NewLogExporter"));
    }

    sdk.steps := sdk.steps + [LoggerProviderStep];
    assert sdk.steps == before + [NewResourceStep, NewSpanExporterStep, TracerProviderStep, NewMetricReaderStep,
                                  MeterProviderStep, NewLogExporterStep, LoggerProviderStep];
    var loggerProvider := Provider(Logs, res, s.loggerShutdownErr);

    return Ok(ShutdownFunc(tracerProvider, metricProvider, loggerProvider));
  }

  /** Where initialisation stops, step by step: at the resource, at the span exporter,
      at the metric reader, at the log exporter, or nowhere. */
  lemma FirstFailureCases(s: Script)
    ensures s.resourceErr.Some? ==>
      && InitError(s) == Some(Wrap(s.resourceErr.value, "resource.New"))
      && Executed(s) == [NewResourceStep]
    ensures s.resourceErr.None? && s.spanExporterErr.Some? ==>
      && InitError(s) == Some(Wrap(s.spanExporterErr.value, "autoexport.NewSpanExporter"))
      && Executed(s) == [NewResourceStep, NewSpanExporterStep]
    ensures s.resourceErr.None? && s.spanExporterErr.None? && s.metricReaderErr.Some? ==>
      && InitError(s) == Some(Wrap(s.metricReaderErr.value, "autoexport.NewMetricReader"))
      && Executed(s) == [NewResourceStep, NewSpanExporterStep, TracerProviderStep, NewMetricReaderStep]
    ensures s.resourceErr.None? && s.spanExporterErr.None? && s.metricReaderErr.None? && s.logExporterErr.Some? ==>
      && InitError(s) == Some(Wrap(s.logExporterErr.value, "autoexport.NewLogExporter"))
      && Executed(s) == [NewResourceStep, NewSpanExporterStep, TracerProviderStep, NewMetricReaderStep,
                         MeterProviderStep, NewLogExporterStep]
    ensures s.resourceErr.None? && s.spanExporterErr.None? && s.metricReaderErr.None? && s.logExporterErr.None? ==>
      && InitError(s) == None
      && Executed(s) == [NewResourceStep, NewSpanExporterStep, TracerProviderStep, NewMetricReaderStep,
                         MeterProviderStep, NewLogExporterStep, LoggerProviderStep]
  {
    var k := FirstFailure(s);
    assert StepErr(s, InitOrder[0]) == s.resourceErr;
    assert StepErr(s, InitOrder[1]) == s.spanExporterErr;
    assert StepErr(s, InitOrder[2]).None? && StepErr(s, InitOrder[4]).None? && StepErr(s, InitOrder[6]).None?;
    assert StepErr(s, InitOrder[3]) == s.metricReaderErr;
    assert StepErr(s, InitOrder[5]) == s.logExporterErr;
  }

  /** Initialisation runs a prefix of the fixed order; every step it runs before the
      last one succeeded, and when it stops early the last step it ran is the one that
      failed. */
  lemma ExecutedStopsAtFirstFailure(s: Script)
    ensures 0 < |Executed(s)| <= |InitOrder| && Executed(s) == InitOrder[..|Executed(s)|]
    ensures forall i :: 0 <= i < |Executed(s)| - 1 ==> StepErr(s, Executed(s)[i]).None?
    ensures |Executed(s)| < |InitOrder| ==> StepErr(s, Executed(s)[|Executed(s)| - 1]).Some?
    ensures |Executed(s)| == |InitOrder| <==> forall i :: 0 <= i < |InitOrder| - 1 ==> StepErr(s, InitOrder[i]).None?
  {
    var k := FirstFailure(s);
    assert StepErr(s, InitOrder[|InitOrder| - 1]).None?;
  }

  /** The trace provider is installed exactly when the resource and the span exporter
      were built, and the meter provider exactly when the metric reader was built too;
      a later failure does not uninstall them. */
  lemma ProvidersInstalledWithoutRollback(s: Script)
    ensures TracerProviderStep in Executed(s) <==> s.resourceErr.None? && s.spanExporterErr.None?
    ensures MeterProviderStep in Executed(s)
        <==> s.resourceErr.None? && s.spanExporterErr.None? && s.metricReaderErr.None?
  {
    var k := FirstFailure(s);
    assert StepErr(s, InitOrder[0]) == s.resourceErr;
    assert StepErr(s, InitOrder[1]) == s.spanExporterErr;
    assert StepErr(s, InitOrder[3]) == s.metricReaderErr;
    if k < |InitOrder| {
      assert forall i :: 0 <= i <= k ==> InitOrder[..k + 1][i] == InitOrder[i];
    }
  }

  /** The shutdown procedure reports no error exactly when all three providers shut down cleanly. */
  lemma ShutdownCleanIffAllSucceed(f: ShutdownFunc)
    ensures Aggregate(ShutdownFailures(f)).None?
        <==> f.tracer.shutdownErr.None? && f.meter.shutdownErr.None? && f.logger.shutdownErr.None?
  {
  }

  /** Shutdown is never partial: when only the metric provider fails, the error reports
      that failure alone, labelled, behind the marker. */
  lemma OnlyMeterFails(f: ShutdownFunc, e: Error)
    requires f.tracer.shutdownErr.None? && f.logger.shutdownErr.None? && f.meter.shutdownErr == Some(e)
    ensures Aggregate(ShutdownFailures(f)) == Some(Error(MultiErrorsMarker + "metricProvider.Shutdown: " + e.msg))
  {
    var w := Wrap(e, "metricProvider.Shutdown");
    assert ShutdownFailures(f) == [] + [w] + [] == [w];
    AggregateSingle(w);
    assert MultiErrorsMarker + w.msg == MultiErrorsMarker + "metricProvider.Shutdown: " + e.msg;
  }

  /** The resource carries the given service name and version unless a detector replaces them. */
  lemma ResourceCarriesServiceIdentity(serviceName: string, version: string, s: Script)
    requires ServiceNameKey !in s.detected && ServiceVersionKey !in s.detected
    ensures var f := Providers(serviceName, version, s);
      && f.tracer.resource == f.meter.resource == f.logger.resource
      && f.tracer.resource.attributes[ServiceNameKey] == StringValue(serviceName)
      && f.tracer.resource.attributes[ServiceVersionKey] == StringValue(version)
  {
  }
}
