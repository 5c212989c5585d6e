/** The coroutine exception handler that reports an uncaught coroutine failure and keeps a
    background thread alive: the coroutine runtime goes on to call the current thread's
    uncaught-exception handler, so this handler first parks a one-shot handler in that
    thread's slot, which on firing puts back what the slot held before. */
module LoggingHandler {
  import opened Logs

  /** A value of a thread's uncaught-exception-handler slot: a handler installed by other code
      (opaque here), the handler that empties the slot, or the handler that puts back the
      handler it replaced. */
  datatype Handler = Original(id: nat) | Resetting | Restore(removed: Handler)

  /** The slot after the runtime hands an uncaught exception to the handler in it. An empty
      slot leaves the exception to the runtime's defaults; what a handler installed by other
      code does is not known here, and it is taken to leave the slot alone. */
  function Fired(slot: Option<Handler>): Option<Handler>
  {
    match slot
    case None => None
    case Some(Original(_)) => slot
    case Some(Resetting) => None
    case Some(Restore(removed)) => Some(removed)
  }

  /** The slot after `handleException` on a thread. The main thread is left alone, so that it
      does crash; any other thread gets a new one-shot handler whose firing gives back exactly
      the slot it found, empty or not. */
  function Handled(isMain: bool, slot: Option<Handler>): (r: Option<Handler>)
    ensures isMain ==> r == slot
    ensures !isMain ==> r.Some? && r != slot && Fired(r) == slot
  {
    if isMain then slot
    else match slot
      case None => Some(Resetting)
      case Some(removed) =>
        assert removed < Restore(removed);
        Some(Restore(removed))
  }

  /** The slot after `n` failures handled one after another on a background thread, with no
      firing in between. */
  function HandledTimes(n: nat, slot: Option<Handler>): Option<Handler>
  {
    if n == 0 then slot else Handled(false, HandledTimes(n - 1, slot))
  }

  /** The slot after the handler in it has fired `k` times in a row. */
  function FiredTimes(k: nat, slot: Option<Handler>): Option<Handler>
  {
    if k == 0 then slot else FiredTimes(k - 1, Fired(slot))
  }

  /** Nested installs unwind one level per firing: after `n` installs, `k <= n` firings leave
      the slot as it was after `n - k` installs, and `n` firings leave it as it was before. */
  lemma {:induction false} Unwind(k: nat, n: nat, slot: Option<Handler>)
    requires k <= n
    ensures FiredTimes(k, HandledTimes(n, slot)) == HandledTimes(n - k, slot)
  {
    if k > 0 {
      assert Fired(HandledTimes(n, slot)) == HandledTimes(n - 1, slot);
      Unwind(k - 1, n - 1, slot);
    }
  }

  /** A thread, reduced to whether it is the main thread and its handler slot. */
  class Thread {
    const isMain: bool
    var uncaughtExceptionHandler: Option<Handler>

    constructor (isMain: bool, handler: Option<Handler>)
      ensures this.isMain == isMain && uncaughtExceptionHandler == handler
    {
      this.isMain := isMain;
      uncaughtExceptionHandler := handler;
    }

    /** The runtime hands an uncaught exception on this thread to the handler in its slot:
        the resetting handler empties the slot, the restoring handler writes back the handler
        it captured. */
    method DispatchUncaughtException()
      modifies this`uncaughtExceptionHandler
      ensures uncaughtExceptionHandler == Fired(old(uncaughtExceptionHandler))
    {
      match uncaughtExceptionHandler
      case Some(Resetting) =>
        uncaughtExceptionHandler := None;
      case Some(Restore(removed)) =>
        uncaughtExceptionHandler := Some(removed);
      case Some(Original(_)) =>
      case None =>
    }
  }

  /** `LoggingHandler.handleException`: the exception always goes to `CrashLogger` first;
      then, unless `thread` is the main thread, the slot's current value is removed and
      replaced by a handler that will put it back (or by the resetting handler when the slot
      was empty). */
  method HandleException(cfg: Config, s: Sinks, thread: Thread, exception: Throwable) returns (r: Sinks)
    modifies thread`uncaughtExceptionHandler
    ensures r == Invoke(cfg, s, exception)
    ensures thread.uncaughtExceptionHandler == Handled(thread.isMain, old(thread.uncaughtExceptionHandler))
    ensures thread.isMain ==> unchanged(thread)
  {
    r := Invoke(cfg, s, exception);
    if thread.isMain {
      return;
    }
    var removed := thread.uncaughtExceptionHandler;
    thread.uncaughtExceptionHandler := if removed.None? then Some(Resetting) else Some(Restore(removed.value));
  }

  /** A failure handled on a background thread, followed by the firing of the handler it
      installed, leaves the thread's slot exactly as it was and has reported the failure. */
  method HandleThenFire(cfg: Config, s: Sinks, thread: Thread, exception: Throwable) returns (r: Sinks)
    requires !thread.isMain
    modifies thread`uncaughtExceptionHandler
    ensures r == Invoke(cfg, s, exception)
    ensures thread.uncaughtExceptionHandler == old(thread.uncaughtExceptionHandler)
  {
    r := HandleException(cfg, s, thread, exception);
    thread.DispatchUncaughtException();
  }
}
