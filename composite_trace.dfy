/** The composite span exporter (pkg/telemetry/composite_trace.go): the same factory
    and fan-out as the log composite, for spans. Two differences: a span exporter
    always has Shutdown, so Shutdown calls every backend without probing, and only
    ForceFlush is optional. */
module CompositeTrace {
  import opened Base
  import opened Backends
  import opened CompositeLogger

  /** The traces-specific protocol variable; its definition is not among the modelled
      files, so this is the name the OTLP exporter specification gives it. */
  const TracesProtoEnvKey := "OTEL_EXPORTER_OTLP_TRACES_PROTOCOL"

  /** A finished span; the composite hands spans on without looking at them. */
  datatype Span = Span(name: string)

  /** A trace.SpanExporter always has Shutdown. */
  predicate IsSpanExporter(c: Construction)
  {
    c.Built? ==> c.behaviour.canShutdown
  }

  /** compositeTraceExporter: a fixed array of span backends that share one call log. */
  class CompositeTraceExporter {
    const log: CallLog<Span>
    const exporters: array<Backend?<Span>>

    /** Every slot is filled with a span exporter, which always has Shutdown, that
        records its calls in this composite's log. */
    ghost predicate Valid()
      reads exporters
    {
      forall i :: 0 <= i < exporters.Length ==>
           exporters[i] != null && exporters[i].log == log && exporters[i].behaviour.canShutdown
    }

    /** The backends, in registration order. */
    ghost function Backends(): (bs: seq<Backend<Span>>)
      requires Valid()
      reads exporters
      ensures |bs| == exporters.Length
      ensures forall i :: 0 <= i < |bs| ==> bs[i] == exporters[i]
    {
      seq(exporters.Length, i requires 0 <= i < exporters.Length && exporters[i] != null reads exporters => exporters[i] as Backend<Span>)
    }

    /** A composite with both slots still empty, as `make` leaves them. */
    constructor (log: CallLog<Span>)
      ensures this.log == log
      ensures fresh(exporters) && exporters.Length == OnlyTwo
      ensures forall i :: 0 <= i < exporters.Length ==> exporters[i] == null
    {
      this.log := log;
      exporters := new Backend?<Span>[OnlyTwo](_ => null);
    }

    /** Hands the whole batch of spans to every backend, in order, whatever the earlier
        ones returned, and aggregates the failures. */
    method ExportSpans(spans: seq<Span>) returns (err: Option<Error>)
      requires Valid()
      modifies log
      ensures log.entries == old(log.entries) + CallsTo(Backends(), ExportOp(spans))
      ensures err == Aggregate(Failures(Backends(), ExportOp(spans)))
    {
      ghost var bs := Backends();
      ghost var ts: seq<Backend<Span>> := [];
      var errs: seq<Error> := [];
      for i := 0 to exporters.Length
        invariant ts == Targets(bs[..i], ExportOp(spans), false)
        invariant log.entries == old(log.entries) + CallsTo(ts, ExportOp(spans))
        invariant errs == Failures(ts, ExportOp(spans))
      {
        var exp := exporters[i];
        TargetsStep(bs, i, ExportOp(spans), false);
        var e := exp.Export(spans);
        CallsToAppend(ts, exp, ExportOp(spans));
        FailuresAppend(ts, exp, ExportOp(spans));
        if e.Some? {
          errs := errs + [e.value];
        }
        ts := ts + [exp];
      }
      assert bs[..exporters.Length] == bs;
      UnprobedTargetsAll(bs, ExportOp(spans));
      assert Backends() == bs;
      err := WrapMultiErrors(errs);
    }

    /** Shuts down every backend, in order, without probing, and aggregates the failures. */
    method Shutdown() returns (err: Option<Error>)
      requires Valid()
      modifies log
      ensures log.entries == old(log.entries) + CallsTo(Backends(), ShutdownOp)
      ensures err == Aggregate(Failures(Backends(), ShutdownOp))
    {
      ghost var bs := Backends();
      ghost var ts: seq<Backend<Span>> := [];
      var errs: seq<Error> := [];
      for i := 0 to exporters.Length
        invariant ts == Targets(bs[..i], ShutdownOp, false)
        invariant log.entries == old(log.entries) + CallsTo(ts, ShutdownOp)
        invariant errs == Failures(ts, ShutdownOp)
      {
        var exp := exporters[i];
        TargetsStep(bs, i, ShutdownOp, false);
        var e := exp.Shutdown();
        CallsToAppend(ts, exp, ShutdownOp);
        FailuresAppend(ts, exp, ShutdownOp);
        if e.Some? {
          errs := errs + [e.value];
        }
        ts := ts + [exp];
      }
      assert bs[..exporters.Length] == bs;
      UnprobedTargetsAll(bs, ShutdownOp);
      assert Backends() == bs;
      err := WrapMultiErrors(errs);
    }

    /** Flushes the backends that have ForceFlush, in order, skipping the others. */
    method ForceFlush() returns (err: Option<Error>)
      requires Valid()
      modifies log
      ensures log.entries == old(log.entries) + CallsTo(Targets(Backends(), FlushOp, true), FlushOp)
      ensures err == Aggregate(Failures(Targets(Backends(), FlushOp, true), FlushOp))
    {
      ghost var bs := Backends();
      ghost var ts: seq<Backend<Span>> := [];
      var errs: seq<Error> := [];
      for i := 0 to exporters.Length
        invariant ts == Targets(bs[..i], FlushOp, true)
        invariant log.entries == old(log.entries) + CallsTo(ts, FlushOp)
        invariant errs == Failures(ts, FlushOp)
      {
        var exp := exporters[i];
        TargetsStep(bs, i, FlushOp, true);
        if exp.behaviour.canFlush {
          var e := exp.ForceFlush();
          CallsToAppend(ts, exp, FlushOp);
          FailuresAppend(ts, exp, FlushOp);
          if e.Some? {
            errs := errs + [e.value];
          }
          ts := ts + [exp];
        }
      }
      assert bs[..exporters.Length] == bs;
      assert Backends() == bs;
      err := WrapMultiErrors(errs);
    }
  }

  /** Models the factory closure registered under "console+otlp" for spans: resolves the
      protocol from the traces variable, builds the console backend into slot 0 and the
      selected remote backend into slot 1. */
  method NewCompositeTraceExporter(env: map<string, string>, log: CallLog<Span>,
                                   console: Construction, grpc: Construction, http: Construction)
    returns (r: Result<CompositeTraceExporter>)
    requires IsSpanExporter(console) && IsSpanExporter(grpc) && IsSpanExporter(http)
    ensures var proto := ResolveProtocol(env, TracesProtoEnvKey);
      && (console.Failed? ==> r == Err(Wrap(console.error, "stdouttrace.New")))
      && (console.Built? && !IsSupportedProtocol(proto) ==> r == Err(InvalidProtocol))
      && (console.Built? && proto == Grpc && grpc.Failed? ==> r == Err(Wrap(grpc.error, "otlptracegrpc.New")))
      && (console.Built? && proto == HttpProtobuf && http.Failed? ==> r == Err(Wrap(http.error, "otlptracehttp.New")))
      && (r.Ok? <==> console.Built? && ((proto == Grpc && grpc.Built?) || (proto == HttpProtobuf && http.Built?)))
      && (r.Ok? ==>
            && fresh(r.value) && fresh(r.value.exporters)
            && r.value.Valid() && r.value.log == log && r.value.exporters.Length == OnlyTwo
            && fresh(r.value.exporters[0]) && fresh(r.value.exporters[1])
            && r.value.exporters[0].kind == Console
            && r.value.exporters[0].behaviour == console.behaviour
            && r.value.exporters[1].kind == RemoteKind(proto)
            && r.value.exporters[1].behaviour == (if proto == Grpc then grpc else http).behaviour)
  {
    var proto := Getenv(env, TracesProtoEnvKey);
    if proto == "" {
      proto := Getenv(env, ProtoEnvKey);
    }
    if proto == "" {
      proto := HttpProtobuf;
    }
    var composite := new CompositeTraceExporter(log);

    if console.Failed? {
      return Err(Wrap(console.error, "stdouttrace.New"));
    }
    composite.exporters[0] := new Backend(Console, console.behaviour, log);

    if proto == Grpc {
      if grpc.Failed? {
        return Err(Wrap(grpc.error, "otlptracegrpc.New"));
      }
      composite.exporters[1] := new Backend(OtlpGrpc, grpc.behaviour, log);
      return Ok(composite);
    } else if proto == HttpProtobuf {
      if http.Failed? {
        return Err(Wrap(http.error, "otlptracehttp.New"));
      }
      composite.exporters[1] := new Backend(OtlpHttp, http.behaviour, log);
      return Ok(composite);
    } else {
      return Err(InvalidProtocol);
    }
  }

  /** The traces variable is a different variable from the generic one, so the
      precedence of the signal's own variable applies to spans. */
  lemma TracesKeyIsNotGeneric()
    ensures TracesProtoEnvKey != ProtoEnvKey && TracesProtoEnvKey != LogsProtoEnvKey
  {
    assert TracesProtoEnvKey[19] != ProtoEnvKey[19];
    assert TracesProtoEnvKey[19] != LogsProtoEnvKey[19];
  }

  /** On span exporters, which all have Shutdown, the unconditional Shutdown of the span
      composite calls exactly the backends the probing Shutdown of the log composite
      would call. */
  lemma UnconditionalShutdownMatchesProbing(bs: seq<Backend<Span>>)
    requires forall b :: b in bs ==> b.behaviour.canShutdown
    ensures Targets(bs, ShutdownOp, true) == Targets(bs, ShutdownOp, false) == bs
  {
    ProbeIrrelevantWhenCapable(bs, ShutdownOp);
    UnprobedTargetsAll(bs, ShutdownOp);
  }
}
