/** The exporters a composite fans out to: the console sink and the OTLP sinks over
    gRPC and over HTTP. Their internals are outside this model; each backend is an
    object with fixed capability flags (does it have ForceFlush? Shutdown?) and
    scripted outcomes, and every call it receives is appended to a call log that the
    backends of one composite share, so the order of calls across backends is
    observable. */
module Backends {
  import opened Base

  datatype Kind = Console | OtlpGrpc | OtlpHttp

  /** Which optional operations a backend has and what each of its operations returns. */
  datatype Behaviour = Behaviour(
    canFlush: bool,
    canShutdown: bool,
    exportErr: Option<Error>,
    flushErr: Option<Error>,
    shutdownErr: Option<Error>)

  /** The outcome of a backend's constructor, such as stdoutlog.New or otlptracegrpc.New. */
  datatype Construction = Built(behaviour: Behaviour) | Failed(error: Error)

  datatype Op<R> = ExportOp(batch: seq<R>) | FlushOp | ShutdownOp

  datatype Call<R> = Call(target: Backend<R>, op: Op<R>)

  /** Every call the backends of one composite have received, oldest first. */
  class CallLog<R> {
    var entries: seq<Call<R>>

    constructor ()
      ensures entries == []
    {
      entries := [];
    }
  }

  class Backend<R> {
    const kind: Kind
    const behaviour: Behaviour
    const log: CallLog<R>

    constructor (kind: Kind, behaviour: Behaviour, log: CallLog<R>)
      ensures this.kind == kind && this.behaviour == behaviour && this.log == log
    {
      this.kind := kind;
      this.behaviour := behaviour;
      this.log := log;
    }

    method Export(batch: seq<R>) returns (err: Option<Error>)
      modifies log
      ensures log.entries == old(log.entries) + [Call(this, ExportOp(batch))]
      ensures err == behaviour.exportErr
    {
      log.entries := log.entries + [Call(this, ExportOp(batch))];
      err := behaviour.exportErr;
    }

    method ForceFlush() returns (err: Option<Error>)
      requires behaviour.canFlush
      modifies log
      ensures log.entries == old(log.entries) + [Call(this, FlushOp)]
      ensures err == behaviour.flushErr
    {
      log.entries := log.entries + [Call(this, FlushOp)];
      err := behaviour.flushErr;
    }

    method Shutdown() returns (err: Option<Error>)
      requires behaviour.canShutdown
      modifies log
      ensures log.entries == old(log.entries) + [Call(this, ShutdownOp)]
      ensures err == behaviour.shutdownErr
    {
      log.entries := log.entries + [Call(this, ShutdownOp)];
      err := behaviour.shutdownErr;
    }
  }

  /** Whether a backend has the operation: every backend exports; flush and shutdown are optional. */
  predicate Supports<R>(b: Backend<R>, op: Op<R>)
  {
    match op
    case ExportOp(_) => true
    case FlushOp => b.behaviour.canFlush
    case ShutdownOp => b.behaviour.canShutdown
  }

  /** What the backend returns when `op` is called on it. */
  function Outcome<R>(b: Backend<R>, op: Op<R>): Option<Error>
  {
    match op
    case ExportOp(_) => b.behaviour.exportErr
    case FlushOp => b.behaviour.flushErr
    case ShutdownOp => b.behaviour.shutdownErr
  }

  /** The backends a fan-out of `op` calls, in registration order: every one of them,
      or, when the fan-out probes for the capability, only those that have it. */
  function Targets<R>(bs: seq<Backend<R>>, op: Op<R>, probe: bool): seq<Backend<R>>
    decreases |bs|
  {
    if bs == [] then []
    else
      var last := bs[|bs| - 1];
      Targets(bs[..|bs| - 1], op, probe) + (if !probe || Supports(last, op) then [last] else [])
  }

  /** The calls a fan-out of `op` to `targets` appends to the call log. */
  function CallsTo<R>(targets: seq<Backend<R>>, op: Op<R>): seq<Call<R>>
  {
    seq(|targets|, k requires 0 <= k < |targets| => Call(targets[k], op))
  }

  /** The errors the targets of a fan-out return, in call order; successes leave no trace. */
  function Failures<R>(targets: seq<Backend<R>>, op: Op<R>): seq<Error>
    decreases |targets|
  {
    if targets == [] then []
    else
      var last := targets[|targets| - 1];
      Failures(targets[..|targets| - 1], op) + (if Outcome(last, op).Some? then [Outcome(last, op).value] else [])
  }

  /** Moving past backend i adds it to the targets exactly when the fan-out calls it. */
  lemma TargetsStep<R>(bs: seq<Backend<R>>, i: nat, op: Op<R>, probe: bool)
    requires i < |bs|
    ensures Targets(bs[..i + 1], op, probe)
         == Targets(bs[..i], op, probe) + (if !probe || Supports(bs[i], op) then [bs[i]] else [])
  {
    assert bs[..i + 1][..i] == bs[..i];
  }

  /** Calling one more target appends its call to the log. */
  lemma CallsToAppend<R>(ts: seq<Backend<R>>, b: Backend<R>, op: Op<R>)
    ensures CallsTo(ts + [b], op) == CallsTo(ts, op) + [Call(b, op)]
  {
  }

  /** Calling one more target appends its failure, if it fails. */
  lemma FailuresAppend<R>(ts: seq<Backend<R>>, b: Backend<R>, op: Op<R>)
    ensures Failures(ts + [b], op)
         == Failures(ts, op) + (if Outcome(b, op).Some? then [Outcome(b, op).value] else [])
  {
    assert (ts + [b])[..|ts|] == ts;
  }

  /** A fan-out that does not probe calls every backend, in order. */
  lemma {:induction false} UnprobedTargetsAll<R>(bs: seq<Backend<R>>, op: Op<R>)
    ensures Targets(bs, op, false) == bs
    decreases |bs|
  {
    if bs != [] {
      UnprobedTargetsAll(bs[..|bs| - 1], op);
    }
  }

  /** Probing changes nothing when every backend has the operation; exporting is always supported. */
  lemma {:induction false} ProbeIrrelevantWhenCapable<R>(bs: seq<Backend<R>>, op: Op<R>)
    requires forall b :: b in bs ==> Supports(b, op)
    ensures Targets(bs, op, true) == bs
    decreases |bs|
  {
    if bs != [] {
      assert bs[|bs| - 1] in bs;
      ProbeIrrelevantWhenCapable(bs[..|bs| - 1], op);
    }
  }

  /** A probing fan-out calls exactly the backends that have the operation: every target
      is a backend with the capability, and every backend with it is a target. */
  lemma {:induction false} ProbedTargetsExactlyCapable<R>(bs: seq<Backend<R>>, op: Op<R>)
    ensures forall t :: t in Targets(bs, op, true) <==> t in bs && Supports(t, op)
    decreases |bs|
  {
    if bs != [] {
      var init := bs[..|bs| - 1];
      ProbedTargetsExactlyCapable(init, op);
      assert bs == init + [bs[|bs| - 1]];
    }
  }

  /** The fan-out reports no failure exactly when every backend it called succeeded. */
  lemma {:induction false} NoFailuresIffAllSucceed<R>(targets: seq<Backend<R>>, op: Op<R>)
    ensures Failures(targets, op) == [] <==> forall t :: t in targets ==> Outcome(t, op).None?
    decreases |targets|
  {
    if targets != [] {
      var init := targets[..|targets| - 1];
      NoFailuresIffAllSucceed(init, op);
      assert targets == init + [targets[|targets| - 1]];
    }
  }

  /** Every reported failure is the error of a backend that was called, and there are
      never more failures than calls. */
  lemma {:induction false} FailuresComeFromTargets<R>(targets: seq<Backend<R>>, op: Op<R>)
    ensures |Failures(targets, op)| <= |targets|
    ensures forall e :: e in Failures(targets, op) ==> exists t :: t in targets && Outcome(t, op) == Some(e)
    decreases |targets|
  {
    if targets != [] {
      var init := targets[..|targets| - 1];
      FailuresComeFromTargets(init, op);
      assert targets == init + [targets[|targets| - 1]];
    }
  }
}
