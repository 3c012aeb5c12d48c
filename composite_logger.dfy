/** The composite log exporter (pkg/telemetry/composite_logger.go): the factory that
    picks the remote protocol from the environment and fills a two-slot backend array
    (console first, remote second), the fan-out of Export, ForceFlush and Shutdown to
    every backend, and the folding of the collected failures into one error. */
module CompositeLogger {
  import opened Base
  import opened Backends

  const LogsProtoEnvKey := "OTEL_EXPORTER_OTLP_LOGS_PROTOCOL"
  const ProtoEnvKey := "OTEL_EXPORTER_OTLP_PROTOCOL"
  const Grpc := "grpc"
  const HttpProtobuf := "http/protobuf"
  /** The number of backend slots of a composite. */
  const OnlyTwo := 2
  /** The name under which the composite is offered to the exporter registry. */
  const RegisteredName := "console+otlp"
  const InvalidProtocol := Error("invalid OTLP protocol - should be one of ['grpc', 'http/protobuf']")
  const MultiErrorsMarker := "error(s) occurred: "

  /** A log record; the composite hands records on without looking at them. */
  datatype LogRecord = LogRecord(body: string)

  // ---------------------------------------------------------------------------
  // Protocol selection

  /** The protocol a factory uses: the signal's own variable when it is non-empty,
      else the generic variable when that is non-empty, else "http/protobuf". */
  function ResolveProtocol(env: map<string, string>, signalKey: string): string
  {
    if Getenv(env, signalKey) != "" then Getenv(env, signalKey)
    else if Getenv(env, ProtoEnvKey) != "" then Getenv(env, ProtoEnvKey)
    else HttpProtobuf
  }

  predicate IsSupportedProtocol(proto: string)
  {
    proto == Grpc || proto == HttpProtobuf
  }

  /** The remote backend a supported protocol selects. */
  function RemoteKind(proto: string): Kind
  {
    if proto == Grpc then OtlpGrpc else OtlpHttp
  }

  /** The signal's own variable takes precedence over the generic one, which takes
      precedence over the default; the outcome is never empty. */
  lemma ProtocolPrecedence(env: map<string, string>, signalKey: string)
    requires signalKey != ProtoEnvKey
    ensures ResolveProtocol(env, signalKey) != ""
    ensures signalKey in env && env[signalKey] != "" ==> ResolveProtocol(env, signalKey) == env[signalKey]
    ensures (signalKey !in env || env[signalKey] == "") && ProtoEnvKey in env && env[ProtoEnvKey] != ""
            ==> ResolveProtocol(env, signalKey) == env[ProtoEnvKey]
    ensures (signalKey !in env || env[signalKey] == "") && (ProtoEnvKey !in env || env[ProtoEnvKey] == "")
            ==> ResolveProtocol(env, signalKey) == HttpProtobuf
  {
  }

  /** Only the two protocol variables matter: environments that agree on them select
      the same protocol, and a variable set to "" counts as unset. */
  lemma ProtocolDependsOnlyOnTwoKeys(env1: map<string, string>, env2: map<string, string>, signalKey: string)
    requires Getenv(env1, signalKey) == Getenv(env2, signalKey)
    requires Getenv(env1, ProtoEnvKey) == Getenv(env2, ProtoEnvKey)
    ensures ResolveProtocol(env1, signalKey) == ResolveProtocol(env2, signalKey)
  {
  }

  // ---------------------------------------------------------------------------
  // Error aggregation

  /** strings.Join */
  function Join(parts: seq<string>, sep: string): string
    decreases |parts|
  {
    if parts == [] then ""
    else if |parts| == 1 then parts[0]
    else parts[0] + sep + Join(parts[1..], sep)
  }

  /** The position of the first `c` in `s`. */
  function IndexOf(s: string, c: char): (k: nat)
    requires c in s
    ensures k < |s| && s[k] == c && c !in s[..k]
    decreases |s|
  {
    if s[0] == c then 0
    else
      assert s == [s[0]] + s[1..];
      var k := 1 + IndexOf(s[1..], c);
      assert s[..k] == [s[0]] + s[1..][..k - 1];
      k
  }

  /** strings.Split with a one-character separator. */
  function Split(s: string, sep: char): seq<string>
    decreases |s|
  {
    if sep !in s then [s]
    else
      var k := IndexOf(s, sep);
      [s[..k]] + Split(s[k + 1..], sep)
  }

  /** Splitting at `sep` undoes joining with `sep` when no part contains it. */
  lemma {:induction false} SplitJoin(parts: seq<string>, sep: char)
    requires |parts| > 0
    requires forall i :: 0 <= i < |parts| ==> sep !in parts[i]
    ensures Split(Join(parts, [sep]), sep) == parts
    decreases |parts|
  {
    if |parts| > 1 {
      var head, rest := parts[0], Join(parts[1..], [sep]);
      var s := head + [sep] + rest;
      assert Join(parts, [sep]) == s;
      assert s[|head|] == sep;
      assert sep in s;
      var k := IndexOf(s, sep);
      assert forall j :: 0 <= j < |head| ==> s[j] == head[j] != sep;
      assert forall j :: 0 <= j < k ==> s[..k][j] == s[j];
      assert k == |head|;
      assert s[..k] == head;
      assert s[k + 1..] == rest;
      SplitJoin(parts[1..], sep);
    } else {
      assert sep !in parts[0];
    }
  }

  function Messages(errs: seq<Error>): seq<string>
  {
    seq(|errs|, i requires 0 <= i < |errs| => errs[i].msg)
  }

  /** What wrapMultiErrors returns: nil for no failures, otherwise one error whose text
      is the marker followed by every message, comma-separated, in input order. The
      marker is there even for a single failure. */
  function Aggregate(errs: seq<Error>): (r: Option<Error>)
    ensures r.None? <==> errs == []
    ensures r.Some? ==> HasPrefix(r.value.msg, MultiErrorsMarker)
  {
    if errs == [] then None else Some(Error(MultiErrorsMarker + Join(Messages(errs), ",")))
  }

  /** The messages an aggregated error enumerates, read back from its text. */
  function AggregatedMessages(e: Error): Option<seq<string>>
  {
    if HasPrefix(e.msg, MultiErrorsMarker) then Some(Split(e.msg[|MultiErrorsMarker|..], ',')) else None
  }

  /** The aggregated text loses nothing: when no message contains a comma, the
      individual messages can be read back from it, in order. */
  lemma AggregateRecoversMessages(errs: seq<Error>)
    requires errs != []
    requires forall i :: 0 <= i < |errs| ==> ',' !in errs[i].msg
    ensures Aggregate(errs).Some?
    ensures AggregatedMessages(Aggregate(errs).value) == Some(Messages(errs))
  {
    var joined := Join(Messages(errs), ",");
    assert (MultiErrorsMarker + joined)[|MultiErrorsMarker|..] == joined;
    SplitJoin(Messages(errs), ',');
  }

  /** A single failure is still reported with the marker in front. */
  lemma AggregateSingle(e: Error)
    ensures Aggregate([e]) == Some(Error(MultiErrorsMarker + e.msg))
  {
    assert Messages([e]) == [e.msg];
  }

  /** Models wrapMultiErrors: copies the messages into a slice slot by slot, then joins them. */
  method WrapMultiErrors(errs: seq<Error>) returns (r: Option<Error>)
    ensures r == Aggregate(errs)
  {
    var lenErrs := |errs|;
    if lenErrs == 0 {
      return None;
    }
    var errsString := new string[lenErrs];
    for index := 0 to lenErrs
      invariant forall k :: 0 <= k < index ==> errsString[k] == errs[k].msg
    {
      errsString[index] := errs[index].msg;
    }
    assert errsString[..] == Messages(errs);
    r := Some(Error(MultiErrorsMarker + Join(errsString[..], ",")));
  }

  // ---------------------------------------------------------------------------
  // The composite

  /** compositeExporter: a fixed array of log backends that share one call log. */
  class CompositeExporter {
    const log: CallLog<LogRecord>
    const exporters: array<Backend?<LogRecord>>

    /** Every slot is filled with a backend that records its calls in this composite's log. */
    ghost predicate Valid()
      reads exporters
    {
      forall i :: 0 <= i < exporters.Length ==> exporters[i] != null && exporters[i].log == log
    }

    /** The backends, in registration order. */
    ghost function Backends(): (bs: seq<Backend<LogRecord>>)
      requires Valid()
      reads exporters
      ensures |bs| == exporters.Length
      ensures forall i :: 0 <= i < |bs| ==> bs[i] == exporters[i]
    {
      seq(exporters.Length, i requires 0 <= i < exporters.Length && exporters[i] != null reads exporters => exporters[i] as Backend<LogRecord>)
    }

    /** A composite with both slots still empty, as `make` leaves them. */
    constructor (log: CallLog<LogRecord>)
      ensures this.log == log
      ensures fresh(exporters) && exporters.Length == OnlyTwo
      ensures forall i :: 0 <= i < exporters.Length ==> exporters[i] == null
    {
      this.log := log;
      exporters := new Backend?<LogRecord>[OnlyTwo](_ => null);
    }

    /** Hands the whole batch to every backend, in order, whatever the earlier ones
        returned, and aggregates the failures. */
    method Export(records: seq<LogRecord>) returns (err: Option<Error>)
      requires Valid()
      modifies log
      ensures log.entries == old(log.entries) + CallsTo(Backends(), ExportOp(records))
      ensures err == Aggregate(Failures(Backends(), ExportOp(records)))
    {
      ghost var bs := Backends();
      ghost var ts: seq<Backend<LogRecord>> := [];
      var errs: seq<Error> := [];
      for i := 0 to exporters.Length
        invariant ts == Targets(bs[..i], ExportOp(records), false)
        invariant log.entries == old(log.entries) + CallsTo(ts, ExportOp(records))
        invariant errs == Failures(ts, ExportOp(records))
      {
        var exp := exporters[i];
        TargetsStep(bs, i, ExportOp(records), false);
        var e := exp.Export(records);
        CallsToAppend(ts, exp, ExportOp(records));
        FailuresAppend(ts, exp, ExportOp(records));
        if e.Some? {
          errs := errs + [e.value];
        }
        ts := ts + [exp];
      }
      assert bs[..exporters.Length] == bs;
      UnprobedTargetsAll(bs, ExportOp(records));
      assert Backends() == bs;
      err := WrapMultiErrors(errs);
    }

    /** Flushes the backends that have ForceFlush, in order, skipping the others. */
    method ForceFlush() returns (err: Option<Error>)
      requires Valid()
      modifies log
      ensures log.entries == old(log.entries) + CallsTo(Targets(Backends(), FlushOp, true), FlushOp)
      ensures err == Aggregate(Failures(Targets(Backends(), FlushOp, true), FlushOp))
    {
      ghost var bs := Backends();
      ghost var ts: seq<Backend<LogRecord>> := [];
      var errs: seq<Error> := [];
      for i := 0 to exporters.Length
        invariant ts == Targets(bs[..i], FlushOp, true)
        invariant log.entries == old(log.entries) + CallsTo(ts, FlushOp)
        invariant errs == Failures(ts, FlushOp)
      {
        var exp := exporters[i];
        TargetsStep(bs, i, FlushOp, true);
        if exp.behaviour.canFlush {
          var e := exp.ForceFlush();
          CallsToAppend(ts, exp, FlushOp);
          FailuresAppend(ts, exp, FlushOp);
          if e.Some? {
            errs := errs + [e.value];
          }
          ts := ts + [exp];
        }
      }
      assert bs[..exporters.Length] == bs;
      assert Backends() == bs;
      err := WrapMultiErrors(errs);
    }

    /** Shuts down the backends that have Shutdown, in order, skipping the others. */
    method Shutdown() returns (err: Option<Error>)
      requires Valid()
      modifies log
      ensures log.entries == old(log.entries) + CallsTo(Targets(Backends(), ShutdownOp, true), ShutdownOp)
      ensures err == Aggregate(Failures(Targets(Backends(), ShutdownOp, true), ShutdownOp))
    {
      ghost var bs := Backends();
      ghost var ts: seq<Backend<LogRecord>> := [];
      var errs: seq<Error> := [];
      for i := 0 to exporters.Length
        invariant ts == Targets(bs[..i], ShutdownOp, true)
        invariant log.entries == old(log.entries) + CallsTo(ts, ShutdownOp)
        invariant errs == Failures(ts, ShutdownOp)
      {
        var exp := exporters[i];
        TargetsStep(bs, i, ShutdownOp, true);
        if exp.behaviour.canShutdown {
          var e := exp.Shutdown();
          CallsToAppend(ts, exp, ShutdownOp);
          FailuresAppend(ts, exp, ShutdownOp);
          if e.Some? {
            errs := errs + [e.value];
          }
          ts := ts + [exp];
        }
      }
      assert bs[..exporters.Length] == bs;
      assert Backends() == bs;
      err := WrapMultiErrors(errs);
    }
  }

  /** Models the factory closure registered under "console+otlp": resolves the protocol,
      builds the console backend into slot 0 and the selected remote backend into slot 1.
      `console`, `grpc` and `http` are what the three backend constructors would return;
      only the ones the code reaches are used. */
  method NewCompositeLogExporter(env: map<string, string>, log: CallLog<LogRecord>,
                                 console: Construction, grpc: Construction, http: Construction)
    returns (r: Result<CompositeExporter>)
    ensures var proto := ResolveProtocol(env, LogsProtoEnvKey);
      && (console.Failed? ==> r == Err(Wrap(console.error, "stdoutlog.New")))
      && (console.Built? && !IsSupportedProtocol(proto) ==> r == Err(InvalidProtocol))
      && (console.Built? && proto == Grpc && grpc.Failed? ==> r == Err(Wrap(grpc.error, "otlploggrpc.New")))
      && (console.Built? && proto == HttpProtobuf && http.Failed? ==> r == Err(Wrap(http.error, "otlploghttp.New")))
      && (r.Ok? <==> console.Built? && ((proto == Grpc && grpc.Built?) || (proto == HttpProtobuf && http.Built?)))
      && (r.Ok? ==>
            && fresh(r.value) && fresh(r.value.exporters)
            && r.value.Valid() && r.value.log == log && r.value.exporters.Length == OnlyTwo
            && fresh(r.value.exporters[0]) && fresh(r.value.exporters[1])
            && r.value.exporters[0].kind == Console
            && r.value.exporters[0].behaviour == console.behaviour
            && r.value.exporters[1].kind == RemoteKind(proto)
            && r.value.exporters[1].behaviour == (if proto == Grpc then grpc else http).behaviour)
  {
    var proto := Getenv(env, LogsProtoEnvKey);
    if proto == "" {
      proto := Getenv(env, ProtoEnvKey);
    }
    if proto == "" {
      proto := HttpProtobuf;
    }
    var composite := new CompositeExporter(log);

    if console.Failed? {
      return Err(Wrap(console.error, "stdoutlog.New"));
    }
    composite.exporters[0] := new Backend(Console, console.behaviour, log);

    if proto == Grpc {
      if grpc.Failed? {
        return Err(Wrap(grpc.error, "otlploggrpc.New"));
      }
      composite.exporters[1] := new Backend(OtlpGrpc, grpc.behaviour, log);
      return Ok(composite);
    } else if proto == HttpProtobuf {
      if http.Failed? {
        return Err(Wrap(http.error, "otlploghttp.New"));
      }
      composite.exporters[1] := new Backend(OtlpHttp, http.behaviour, log);
      return Ok(composite);
    } else {
      return Err(InvalidProtocol);
    }
  }

  /** Two backends, the second failing: both receive the batch, console first, and the
      error reports the failing backend's message alone, behind the marker. */
  lemma OneOfTwoBackendsFails(console: Backend<LogRecord>, remote: Backend<LogRecord>, batch: seq<LogRecord>, e: Error)
    requires console.behaviour.exportErr.None? && remote.behaviour.exportErr == Some(e)
    ensures CallsTo([console, remote], ExportOp(batch)) == [Call(console, ExportOp(batch)), Call(remote, ExportOp(batch))]
    ensures Aggregate(Failures([console, remote], ExportOp(batch))) == Some(Error(MultiErrorsMarker + e.msg))
  {
    assert [console, remote][..1] == [console];
    assert [console][..0] == [];
    assert Failures([console], ExportOp(batch)) == [];
    assert Failures([console, remote], ExportOp(batch)) == [e];
    AggregateSingle(e);
  }
}
