/** The error-logging facade of the core library: where every failure of the app ends up.

    The two remote and local diagnostic sinks (the crash reporter's breadcrumb log and
    exception log, and the platform console) are modelled as append-only sequences held in
    one `Sinks` value; the build's DEBUG flag and the test-mode flag are a `Config` value.
 */
module Logs {

  datatype Option<T> = None | Some(value: T)

  // ---------------------------------------------------------------------------------------
  // Throwables and stack traces
  // ---------------------------------------------------------------------------------------

  /** One element of a JVM stack trace. */
  datatype Frame = Frame(declaringClass: string, methodName: string, fileName: string, lineNumber: int)

  /** The synthetic frame that separates the trace captured at registration time from the
      trace the throwable had when it was raised. */
  const Marker: Frame := Frame("Hack", "startOriginalStackTrace", "Hack.kt", 0)

  /** Frames at the top of the current stack that do not belong to the caller: two for the
      runtime's stack-walking methods, one for the trace generator, one for its caller. */
  const SkippedFrames: nat := 4

  /** Where a throwable sits in the JVM hierarchy, as far as this code tells them apart:
      coroutine cancellation (a subclass of Exception), any other Exception, and the
      throwables that are not Exceptions at all (Errors). */
  datatype ThrowableKind = CancellationKind | ExceptionKind | ErrorKind

  predicate IsException(k: ThrowableKind) { !k.ErrorKind? }

  /** A JVM throwable. Only its stack trace is ever updated. */
  class Throwable {
    const kind: ThrowableKind
    const className: string
    const message: Option<string>
    var stackTrace: seq<Frame>

    constructor (kind: ThrowableKind, className: string, message: Option<string>, stackTrace: seq<Frame>)
      ensures this.kind == kind && this.className == className && this.message == message
      ensures this.stackTrace == stackTrace
    {
      this.kind := kind;
      this.className := className;
      this.message := message;
      this.stackTrace := stackTrace;
    }
  }

  /** `Throwable.toString()`: the class name, then ": message" when there is a message. */
  function ToText(t: Throwable): string
  {
    t.className + match t.message case None => "" case Some(m) => ": " + m
  }

  /** Kotlin's `takeLast(n)` for a non-negative `n`: the last `n` elements, or all of them. */
  function TakeLast<T>(s: seq<T>, n: nat): seq<T>
  {
    if n >= |s| then s else s[|s| - n..]
  }

  /** `generateStackTrace`: the current thread's stack with the frames that belong to the
      stack walk itself removed, so that the trace starts at the caller's caller.
      A runtime stack seen from inside this function always holds those frames; with fewer,
      `takeLast` would be asked for a negative count and throw. */
  function GenerateStackTrace(stack: seq<Frame>): (r: seq<Frame>)
    requires |stack| >= SkippedFrames
    ensures |r| == |stack| - SkippedFrames
    ensures forall i :: 0 <= i < |r| ==> r[i] == stack[i + SkippedFrames]
  {
    TakeLast(stack, |stack| - SkippedFrames)
  }

  /** `injectRoot`: puts the captured `trace` and then the marker frame in front of the
      throwable's own trace, through a mutable copy of that trace, and returns the same
      throwable. Nothing but its stack trace changes. */
  method InjectRoot(t: Throwable, trace: seq<Frame>) returns (r: Throwable)
    modifies t`stackTrace
    ensures r == t
    ensures t.stackTrace == trace + [Marker] + old(t.stackTrace)
    ensures |t.stackTrace| == |trace| + 1 + |old(t.stackTrace)|
    ensures t.stackTrace[|trace|] == Marker
  {
    var list := t.stackTrace;
    // addAll(0, trace)
    list := list[..0] + trace + list[0..];
    // add(trace.size, marker)
    list := list[..|trace|] + [Marker] + list[|trace|..];
    t.stackTrace := list;
    r := t;
  }

  // ---------------------------------------------------------------------------------------
  // Sinks
  // ---------------------------------------------------------------------------------------

  datatype Config = Config(debug: bool, testMode: bool)

  datatype Priority = Debug | Error

  /** One line written to the platform console. */
  datatype LogLine = LogLine(priority: Priority, tag: string, message: string, thrown: Option<Throwable>)

  /** Everything the facade has written so far: breadcrumbs and exceptions sent to the
      crash reporter, and lines printed on the console. */
  datatype Sinks = Sinks(breadcrumbs: seq<string>, exceptions: seq<Throwable>, console: seq<LogLine>)

  /** The sinks only ever grow: `r` is `s` with entries appended. */
  ghost predicate Extends(s: Sinks, r: Sinks)
  {
    s.breadcrumbs <= r.breadcrumbs && s.exceptions <= r.exceptions && s.console <= r.console
  }

  /** Total number of entries written to all sinks. */
  function EntryCount(s: Sinks): nat
  {
    |s.breadcrumbs| + |s.exceptions| + |s.console|
  }

  /** The crash reporter's `log`: a breadcrumb. */
  function ReportBreadcrumb(s: Sinks, message: string): Sinks
  {
    s.(breadcrumbs := s.breadcrumbs + [message])
  }

  /** The crash reporter's `logException`. */
  function ReportException(s: Sinks, t: Throwable): Sinks
  {
    s.(exceptions := s.exceptions + [t])
  }

  /** The platform console's `Log.d` and `Log.e`. */
  function Print(s: Sinks, line: LogLine): Sinks
  {
    s.(console := s.console + [line])
  }

  /** `logCrashLog`: the message always becomes a breadcrumb; a debug build also prints it. */
  function LogCrashLog(cfg: Config, s: Sinks, message: string): (r: Sinks)
    ensures Extends(s, r)
    ensures r.breadcrumbs == s.breadcrumbs + [message]
    ensures r.exceptions == s.exceptions
    ensures cfg.debug ==> r.console == s.console + [LogLine(Debug, "CrashLogs", message, None)]
    ensures !cfg.debug ==> r.console == s.console
  {
    var reported := ReportBreadcrumb(s, message);
    if cfg.debug then Print(reported, LogLine(Debug, "CrashLogs", message, None)) else reported
  }

  // ---------------------------------------------------------------------------------------
  // CrashLogger
  // ---------------------------------------------------------------------------------------

  /** True when `CrashLogger` drops `t` without writing anything. */
  predicate Ignored(t: Throwable?)
  {
    t == null || t.kind.CancellationKind?
  }

  /** `CrashLogger.invoke`: nothing for null or a cancellation; otherwise exactly one entry,
      printed on the console in a debug build or in test mode, and sent to the crash
      reporter's exception log otherwise. */
  function Invoke(cfg: Config, s: Sinks, t: Throwable?): (r: Sinks)
    ensures Extends(s, r)
    ensures Ignored(t) ==> r == s
    ensures r.breadcrumbs == s.breadcrumbs
    ensures !Ignored(t) && (cfg.debug || cfg.testMode) ==>
              r.console == s.console + [LogLine(Error, "CrashLogger", "An error occurred", Some(t))] &&
              r.exceptions == s.exceptions
    ensures !Ignored(t) && !(cfg.debug || cfg.testMode) ==>
              r.exceptions == s.exceptions + [t] && r.console == s.console
  {
    if Ignored(t) then s
    else if cfg.debug || cfg.testMode then Print(s, LogLine(Error, "CrashLogger", "An error occurred", Some(t)))
    else ReportException(s, t)
  }

  /** Whatever the configuration, `Invoke` writes one entry for a real error and none for
      null or a cancellation, and never to both the console and the crash reporter. */
  lemma InvokeWritesAtMostOne(cfg: Config, s: Sinks, t: Throwable?)
    ensures EntryCount(Invoke(cfg, s, t)) == EntryCount(s) + (if Ignored(t) then 0 else 1)
    ensures Invoke(cfg, s, t).exceptions == s.exceptions || Invoke(cfg, s, t).console == s.console
  {
  }

  /** `CrashLogger.onFailure`: a failed task's exception goes to `Invoke`. */
  function OnFailure(cfg: Config, s: Sinks, e: Throwable): (r: Sinks)
    ensures e.kind.CancellationKind? ==> r == s
    ensures !e.kind.CancellationKind? ==> EntryCount(r) == EntryCount(s) + 1
    ensures r.breadcrumbs == s.breadcrumbs
    ensures !e.kind.CancellationKind? && (cfg.debug || cfg.testMode) ==>
              r.console == s.console + [LogLine(Error, "CrashLogger", "An error occurred", Some(e))] &&
              r.exceptions == s.exceptions
    ensures !e.kind.CancellationKind? && !(cfg.debug || cfg.testMode) ==>
              r.exceptions == s.exceptions + [e] && r.console == s.console
    ensures r == Invoke(cfg, s, e)
  {
    Invoke(cfg, s, e)
  }

  /** `CrashLogger.onComplete`: a completed task's exception, null when it succeeded, goes to
      `Invoke`; a successful task writes nothing. */
  function OnComplete(cfg: Config, s: Sinks, taskException: Throwable?): (r: Sinks)
    ensures taskException == null ==> r == s
    ensures r == Invoke(cfg, s, taskException)
  {
    Invoke(cfg, s, taskException)
  }

  // ---------------------------------------------------------------------------------------
  // Attaching the facade to asynchronous operations
  // ---------------------------------------------------------------------------------------

  /** A hint passed to `logFailures`: any value, possibly null, logged through `toString()`. */
  datatype Hint = NullHint | HintValue(text: string)

  function HintText(h: Hint): string
  {
    match h case NullHint => "null" case HintValue(text) => text
  }

  function HintTexts(hints: seq<Hint>): (r: seq<string>)
    ensures |r| == |hints|
  {
    seq(|hints|, i requires 0 <= i < |hints| => HintText(hints[i]))
  }

  function DebugLines(messages: seq<string>): (r: seq<LogLine>)
    ensures |r| == |messages|
  {
    seq(|messages|, i requires 0 <= i < |messages| => LogLine(Debug, "CrashLogs", messages[i], None))
  }

  /** The sinks after every hint has gone through `LogCrashLog`, in order. */
  function LoggedHints(cfg: Config, s: Sinks, hints: seq<Hint>): Sinks
  {
    Sinks(s.breadcrumbs + HintTexts(hints), s.exceptions,
          s.console + if cfg.debug then DebugLines(HintTexts(hints)) else [])
  }

  /** Logging one more hint is one more `LogCrashLog` call. */
  lemma LoggedHintsSnoc(cfg: Config, s: Sinks, hints: seq<Hint>, h: Hint)
    ensures LoggedHints(cfg, s, hints + [h]) == LogCrashLog(cfg, LoggedHints(cfg, s, hints), HintText(h))
  {
  }

  /** The loop over the hints in the failure listener that `logFailures` attaches. */
  method LogHints(cfg: Config, s: Sinks, hints: seq<Hint>) returns (r: Sinks)
    ensures r == LoggedHints(cfg, s, hints)
    ensures Extends(s, r)
  {
    r := s;
    var i := 0;
    while i < |hints|
      invariant 0 <= i <= |hints|
      invariant r == LoggedHints(cfg, s, hints[..i])
    {
      LoggedHintsSnoc(cfg, s, hints[..i], hints[i]);
      assert hints[..i + 1] == hints[..i] + [hints[i]];
      r := LogCrashLog(cfg, r, HintText(hints[i]));
      i := i + 1;
    }
    assert hints[..i] == hints;
  }

  /** A callback this file registers on an asynchronous operation: the failure listener of
      `Task.logFailures`, which carries the hints and the trace captured when it was attached,
      or `CrashLogger` itself. */
  datatype Listener = LogFailuresListener(hints: seq<Hint>, trace: seq<Frame>) | CrashLoggerListener

  /** A task of the Play services task API, reduced to its failure listeners. */
  class Task {
    var failureListeners: seq<Listener>

    constructor ()
      ensures failureListeners == []
    {
      failureListeners := [];
    }

    /** `Task.logFailures`: captures the caller's stack now, attaches a failure listener that
        will log the hints and forward the error with that stack in front, and returns this
        same task. `stack` is the current thread's stack as the trace generator sees it. */
    method LogFailures(hints: seq<Hint>, stack: seq<Frame>) returns (r: Task)
      requires |stack| >= SkippedFrames
      modifies this`failureListeners
      ensures r == this
      ensures failureListeners == old(failureListeners) + [LogFailuresListener(hints, GenerateStackTrace(stack))]
    {
      var trace := GenerateStackTrace(stack);
      failureListeners := failureListeners + [LogFailuresListener(hints, trace)];
      r := this;
    }
  }

  /** A coroutine `Deferred`, reduced to its completion handlers. */
  class Deferred {
    var completionHandlers: seq<Listener>

    constructor ()
      ensures completionHandlers == []
    {
      completionHandlers := [];
    }

    /** `Deferred.logFailures`: registers `CrashLogger` as a completion handler and returns
        this same deferred. */
    method LogFailures() returns (r: Deferred)
      modifies this`completionHandlers
      ensures r == this
      ensures completionHandlers == old(completionHandlers) + [CrashLoggerListener]
    {
      completionHandlers := completionHandlers + [CrashLoggerListener];
      r := this;
    }
  }

  /** What a registered listener does when it is called with `e`: the failure of a task (never
      null), or the completion cause of a deferred (null when it completed normally).
      The `logFailures` listener logs each hint once, in order, then forwards exactly the
      failure, with the trace captured at registration and the marker in front of its own. */
  method Notify(l: Listener, cfg: Config, s: Sinks, e: Throwable?) returns (r: Sinks)
    requires l.LogFailuresListener? ==> e != null
    modifies e
    ensures Extends(s, r)
    ensures l.CrashLoggerListener? ==> r == Invoke(cfg, s, e) && (e != null ==> unchanged(e))
    ensures l.LogFailuresListener? ==>
              r == Invoke(cfg, LoggedHints(cfg, s, l.hints), e) &&
              e.stackTrace == l.trace + [Marker] + old(e.stackTrace)
  {
    match l
    case CrashLoggerListener =>
      r := Invoke(cfg, s, e);
    case LogFailuresListener(hints, trace) =>
      r := LogHints(cfg, s, hints);
      var rooted := InjectRoot(e, trace);
      r := Invoke(cfg, r, rooted);
  }
}
