/** The base class of the app's background workers: one run of a worker decides, from the
    attempt count the host scheduler supplies and from what the worker's body does, whether
    the scheduler should count the work as done, retry it later, or give it up. */
module WorkerBase {
  import opened Logs

  /** Attempts after which a worker gives up without running its body. */
  const MaxRunAttempts: nat := 7

  /** The result a worker hands back to the host scheduler. */
  datatype WorkResult = Success | Failure | Retry

  /** What the worker's body does when it runs: returns a result, or throws. */
  datatype BodyOutcome = Returns(result: WorkResult) | Throws(t: Throwable)

  /** How one run ends: with a result for the scheduler, or with a throwable that is not an
      Exception escaping the run. */
  datatype DoWorkOutcome = Completed(result: WorkResult) | Escaped(t: Throwable)

  datatype Run = Run(outcome: DoWorkOutcome, sinks: Sinks)

  /** The breadcrumb written for a body that threw: the worker's class, then the exception. */
  function ErroredMessage(workerClass: string, e: Throwable): string
  {
    "class " + workerClass + " errored: " + ToText(e)
  }

  /** `WorkerBase.doWork`. At the cap the body is not run and the work fails for good. Below
      it, a result the body returns is handed on unchanged, and nothing is logged even when
      that result is a retry; an Exception the body throws is logged as one breadcrumb, never
      as a reported exception, and turns into a retry; any other throwable escapes. */
  function DoWork(cfg: Config, s: Sinks, workerClass: string, runAttemptCount: int, body: BodyOutcome): (r: Run)
    ensures runAttemptCount >= MaxRunAttempts ==> r == Run(Completed(Failure), s)
    ensures runAttemptCount < MaxRunAttempts && body.Returns? ==> r == Run(Completed(body.result), s)
    ensures runAttemptCount < MaxRunAttempts && body.Throws? && IsException(body.t.kind) ==>
              r.outcome == Completed(Retry) &&
              r.sinks.breadcrumbs == s.breadcrumbs + [ErroredMessage(workerClass, body.t)]
    ensures r.outcome == Completed(Failure) ==> runAttemptCount >= MaxRunAttempts || body == Returns(Failure)
    ensures r.outcome.Escaped? <==> runAttemptCount < MaxRunAttempts && body.Throws? && !IsException(body.t.kind)
    ensures r.outcome.Escaped? ==> r.outcome.t == body.t && r.sinks == s
    ensures r.sinks.exceptions == s.exceptions
    ensures r.sinks == s || (body.Throws? && r.sinks == LogCrashLog(cfg, s, ErroredMessage(workerClass, body.t)))
  {
    if runAttemptCount >= MaxRunAttempts then Run(Completed(Failure), s)
    else match body
      case Returns(result) => Run(Completed(result), s)
      case Throws(t) =>
        if IsException(t.kind) then Run(Completed(Retry), LogCrashLog(cfg, s, ErroredMessage(workerClass, t)))
        else Run(Escaped(t), s)
  }

  /** At the cap the body is never run: what it would have done makes no difference. */
  lemma BodyNotRunAtCap(cfg: Config, s: Sinks, workerClass: string, runAttemptCount: int, b1: BodyOutcome, b2: BodyOutcome)
    requires runAttemptCount >= MaxRunAttempts
    ensures DoWork(cfg, s, workerClass, runAttemptCount, b1) == DoWork(cfg, s, workerClass, runAttemptCount, b2)
  {
  }

  /** Three runs: the last attempt below the cap whose body
      throws is retried with one breadcrumb; the first attempt at the cap fails with none; a
      body that succeeds below the cap succeeds with none. */
  lemma Scenarios(cfg: Config, s: Sinks, workerClass: string, e: Throwable)
    requires e.kind.ExceptionKind?
    ensures var r := DoWork(cfg, s, workerClass, 6, Throws(e));
            r.outcome == Completed(Retry) && |r.sinks.breadcrumbs| == |s.breadcrumbs| + 1
    ensures DoWork(cfg, s, workerClass, 7, Throws(e)) == Run(Completed(Failure), s)
    ensures DoWork(cfg, s, workerClass, 3, Returns(Success)) == Run(Completed(Success), s)
  {
  }

  /** The host scheduler's re-dispatch, which this code does not own: the worker runs again,
      with the attempt count one higher, each time it asks for a retry, and `bodies[i]` is what
      the body does on its i-th run. The result is the number of times the body ran, which the
      cap bounds by the attempts left. */
  function BodiesRun(cfg: Config, s: Sinks, workerClass: string, runAttemptCount: nat, bodies: seq<BodyOutcome>): (n: nat)
    ensures n <= |bodies|
    ensures n <= if runAttemptCount >= MaxRunAttempts then 0 else MaxRunAttempts - runAttemptCount
    decreases |bodies|
  {
    if runAttemptCount >= MaxRunAttempts || bodies == [] then 0
    else
      var run := DoWork(cfg, s, workerClass, runAttemptCount, bodies[0]);
      if run.outcome == Completed(Retry)
      then 1 + BodiesRun(cfg, run.sinks, workerClass, runAttemptCount + 1, bodies[1..])
      else 1
  }
}
