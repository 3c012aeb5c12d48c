/** The daemon entry point (pkg/daemon/daemon.go): start telemetry, run the daemon's
    logic, shut telemetry down. The three callbacks are abstracted to their outcomes;
    the result is the error runDaemon returns, which callbacks ran, in order, and what
    it printed. */
module Daemon {
  import opened Base

  datatype Callback = Init | Logic | Shutdown

  /** What a run did: the callbacks it ran, in order, the error it returned, and the
      lines it wrote to standard output. */
  datatype Run = Run(ran: seq<Callback>, err: Option<Error>, printed: seq<string>)

  /** How many times `c` was run. */
  function Times(ran: seq<Callback>, c: Callback): nat
  {
    multiset(ran)[c]
  }

  /** Models runDaemon for the outcomes of telemetry initialisation, of the logic and of
      the shutdown procedure. Initialisation failing stops everything; logic failing
      still shuts down, and a shutdown failure on that path is printed, not returned. */
  function RunDaemon(initErr: Option<Error>, logicErr: Option<Error>, shutdownErr: Option<Error>): (r: Run)
    ensures Times(r.ran, Shutdown) == (if initErr.None? then 1 else 0)
    ensures Times(r.ran, Init) == 1 && Times(r.ran, Logic) <= 1
    ensures r.ran[0] == Init && (Logic in r.ran <==> initErr.None?)
    ensures r.err.None? <==> initErr.None? && logicErr.None? && shutdownErr.None?
    ensures initErr.Some? ==> r.err == Some(Wrap(initErr.value, "telemetry.InitTelemetry"))
    ensures initErr.None? && logicErr.Some? ==> r.err == Some(Wrap(logicErr.value, "logic"))
    ensures initErr.None? && logicErr.None? && shutdownErr.Some? ==> r.err == Some(Wrap(shutdownErr.value, "shutdown"))
    ensures r.printed == if initErr.None? && logicErr.Some? && shutdownErr.Some? then [shutdownErr.value.msg] else []
  {
    if initErr.Some? then
      Run([Init], Some(Wrap(initErr.value, "telemetry.InitTelemetry")), [])
    else if logicErr.Some? then
      Run([Init, Logic, Shutdown], Some(Wrap(logicErr.value, "logic")),
          if shutdownErr.Some? then [shutdownErr.value.msg] else [])
    else if shutdownErr.Some? then
      Run([Init, Logic, Shutdown], Some(Wrap(shutdownErr.value, "shutdown")), [])
    else
      Run([Init, Logic, Shutdown], None, [])
  }

  /** Whenever shutdown runs it runs last, after the logic: telemetry is never torn down
      while the logic may still use it. */
  lemma ShutdownRunsLast(initErr: Option<Error>, logicErr: Option<Error>, shutdownErr: Option<Error>)
    ensures var r := RunDaemon(initErr, logicErr, shutdownErr);
      Shutdown in r.ran ==> r.ran == [Init, Logic, Shutdown]
  {
  }

  /** The returned error keeps its cause: removing the annotation of the stage that
      failed gives back exactly the error that stage reported. */
  lemma ReturnedErrorKeepsCause(initErr: Option<Error>, logicErr: Option<Error>, shutdownErr: Option<Error>)
    ensures var r := RunDaemon(initErr, logicErr, shutdownErr);
      && (initErr.Some? ==> Unwrap(r.err.value, "telemetry.InitTelemetry") == initErr)
      && (initErr.None? && logicErr.Some? ==> Unwrap(r.err.value, "logic") == logicErr)
      && (initErr.None? && logicErr.None? && shutdownErr.Some? ==> Unwrap(r.err.value, "shutdown") == shutdownErr)
  {
    if initErr.Some? {
      UnwrapWrap(initErr.value, "telemetry.InitTelemetry");
    } else if logicErr.Some? {
      UnwrapWrap(logicErr.value, "logic");
    } else if shutdownErr.Some? {
      UnwrapWrap(shutdownErr.value, "shutdown");
    }
  }

  /** A logic failure hides the shutdown outcome from the caller: whatever shutdown
      returns, the returned error is the same. */
  lemma LogicFailureMasksShutdown(logicErr: Error, s1: Option<Error>, s2: Option<Error>)
    ensures RunDaemon(None, Some(logicErr), s1).err == RunDaemon(None, Some(logicErr), s2).err
  {
  }
}
