# Robot Scouter: background-worker retry decision and error-logging facade

This project models the two pieces of Robot Scouter's Android libraries that hold
behaviour of their own.

- **The worker base class** (`WorkerBase.doWork`): one run of a background worker. It
  gives up with `FAILURE` once the host scheduler's attempt count reaches 7. Otherwise it
  runs the worker's body. It hands on the result the body returns. It turns an Exception
  the body throws into `RETRY`, after logging one breadcrumb.
- **The error-logging facade** (`Logs.kt`):
  - `logCrashLog` writes breadcrumbs.
  - `generateStackTrace` and `injectRoot` capture and splice stack traces.
  - `CrashLogger` routes an error to the console (debug build or test mode) or to the crash
    reporter (production). It drops null and coroutine cancellation.
  - `Task.logFailures` and `Deferred.logFailures` attach the facade to asynchronous
    operations.
  - `LoggingHandler.handleException` reports uncaught coroutine failures. On a background
    thread it also parks a one-shot handler in the thread's uncaught-exception-handler slot.
    That handler puts back whatever the slot held before when it fires.

Files:

- `logs.dfy` (module `Logs`): throwables and stack traces, the sinks, `CrashLogger`, and the
  `logFailures` attachments.
- `logging_handler.dfy` (module `LoggingHandler`): the handler slot, its one-shot handlers,
  and `handleException`.
- `worker_base.dfy` (module `WorkerBase`): `doWork` and its cap.

The crash reporter's breadcrumb log, its exception log and the platform console are
append-only sequences in one `Sinks` value. Each operation maps the sinks before to the
sinks after. The DEBUG build flag and the test-mode flag form a `Config` value. "Is this the
main thread" is a constant field of `Thread`. A throwable is a class because `injectRoot`
rewrites its stack trace in place and returns the same object. Its kind tells apart
coroutine cancellation (an Exception), other Exceptions, and non-Exception throwables
(Errors).

Behaviour of the code worth noting:

- The worker logs a thrown Exception as a breadcrumb through `logCrashLog`, not through
  `CrashLogger`, so nothing reaches the crash reporter's exception log.
- The worker catches `Exception` only. Any other throwable escapes `doWork` (`Escaped`).
- A coroutine cancellation thrown by the body is an Exception, so the worker turns it into
  `RETRY` with a breadcrumb.
- The handler slot holds a single handler, and each one-shot handler captures the value it
  replaced. There is no separate stack. Nested installs still unwind one level per firing
  (`LoggingHandler.Unwind`).

## Model

| member | source | states |
|---|---|---|
| `Logs.GenerateStackTrace` | library/core/src/main/java/com/supercilex/robotscouter/core/Logs.kt:37-40 | the trace is the current stack without its first 4 frames, in order: length `|stack| - 4`, element `i` is stack element `i + 4`; a stack of fewer than 4 frames is excluded (`takeLast` of a negative count throws) |
| `Logs.InjectRoot` | library/core/src/main/java/com/supercilex/robotscouter/core/Logs.kt:42-47 | returns the same throwable, whose stack trace becomes `trace + [marker] + old trace` (length `|trace| + 1 + |old|`, marker at index `|trace|`); only the stack-trace field may change |
| `Logs.LogCrashLog` | library/core/src/main/java/com/supercilex/robotscouter/core/Logs.kt:32-35 | the message is always appended to the breadcrumbs; a debug-tagged console line is appended exactly when DEBUG is on; the exception log never changes; the sinks only grow |
| `Logs.Invoke` | library/core/src/main/java/com/supercilex/robotscouter/core/Logs.kt:58-65 | null or a cancellation leaves every sink unchanged; any other throwable adds one console error line (DEBUG or test mode) or one reported exception (otherwise), and nothing else |
| `Logs.InvokeWritesAtMostOne` | library/core/src/main/java/com/supercilex/robotscouter/core/Logs.kt:59-64 | the total entry count grows by exactly 1 for a real error and 0 for null or cancellation; console and exception log are never both written |
| `Logs.OnFailure` | library/core/src/main/java/com/supercilex/robotscouter/core/Logs.kt:50-52 | a failed task's exception goes through `Invoke`: a cancellation adds nothing; any other exception adds exactly one entry, a console error line in DEBUG or test mode and a reported exception otherwise, and no breadcrumb |
| `Logs.OnComplete` | library/core/src/main/java/com/supercilex/robotscouter/core/Logs.kt:54-56 | a task that completed without an exception writes nothing; otherwise the exception goes through `Invoke` |
| `Logs.LoggedHintsSnoc` | library/core/src/main/java/com/supercilex/robotscouter/core/Logs.kt:22 | logging the hints `hs + [h]` equals logging `hs` and then one `logCrashLog` of `h`'s text |
| `Logs.LogHints` | library/core/src/main/java/com/supercilex/robotscouter/core/Logs.kt:22 | the loop logs every hint once, in order: breadcrumbs gain exactly the hints' texts (a null hint as "null"), the console gains one debug line per hint only in DEBUG, the exception log is untouched |
| `Logs.Task.LogFailures` | library/core/src/main/java/com/supercilex/robotscouter/core/Logs.kt:19-21 | returns the task it was called on and appends one failure listener carrying the hints and the trace generated at attach time |
| `Logs.Deferred.LogFailures` | library/core/src/main/java/com/supercilex/robotscouter/core/Logs.kt:27-30 | returns the deferred it was called on and appends `CrashLogger` to its completion handlers |
| `Logs.Notify` | library/core/src/main/java/com/supercilex/robotscouter/core/Logs.kt:21-24 | the `logFailures` listener logs the hints, then forwards exactly the failing throwable, whose trace now starts with the captured trace and the marker; `CrashLogger` as a handler is `Invoke` and changes no throwable; sinks only grow |
| `LoggingHandler.Handled` | library/core/src/main/java/com/supercilex/robotscouter/core/Logs.kt:82-93 | on the main thread the slot is unchanged; on any other thread the slot holds a new handler (never empty, never the old value) whose firing restores exactly the previous value, empty or not |
| `LoggingHandler.Unwind` | library/core/src/main/java/com/supercilex/robotscouter/core/Logs.kt:86-92 | after `n` nested installs, `k <= n` firings leave the slot as after `n - k` installs; `n` firings restore the original slot |
| `LoggingHandler.Thread.DispatchUncaughtException` | library/core/src/main/java/com/supercilex/robotscouter/core/Logs.kt:90-100 | firing the resetting handler empties the slot; firing a restoring handler writes back the handler it captured; other handlers leave the slot alone |
| `LoggingHandler.HandleException` | library/core/src/main/java/com/supercilex/robotscouter/core/Logs.kt:76-95 | the exception always goes through `CrashLogger`; the thread's slot becomes `Handled(isMain, old slot)`, and a main thread is not changed at all |
| `LoggingHandler.HandleThenFire` | library/core/src/main/java/com/supercilex/robotscouter/core/Logs.kt:79-92 | on a background thread, handling a failure and then firing the installed handler reports the failure and leaves the slot exactly as it was |
| `WorkerBase.DoWork` | library/core-data/src/main/java/com/supercilex/robotscouter/core/data/client/WorkerBase.kt:15-26 | count >= 7 gives `FAILURE` and no log; below 7 a returned result is handed on unchanged with no log (even `RETRY`); a thrown Exception gives `RETRY` and exactly one breadcrumb `class <worker> errored: <e>`; a non-Exception escapes; `FAILURE` only at the cap or from the body; no exception is ever reported |
| `WorkerBase.BodyNotRunAtCap` | library/core-data/src/main/java/com/supercilex/robotscouter/core/data/client/WorkerBase.kt:16 | at or above the cap the outcome and the sinks do not depend on what the body would do |
| `WorkerBase.Scenarios` | library/core-data/src/main/java/com/supercilex/robotscouter/core/data/client/WorkerBase.kt:16-24 | attempt 6 with a throwing body gives `RETRY` and one breadcrumb; attempt 7 gives `FAILURE` and no log; attempt 3 with a successful body gives `SUCCESS` and no log |
| `WorkerBase.BodiesRun` | library/core-data/src/main/java/com/supercilex/robotscouter/core/data/client/WorkerBase.kt:29 | if the scheduler re-dispatches on every `RETRY` with the count one higher, the body runs at most `7 - count` times |

## Left out

- `LoggingExceptionHandler` and `AppScope` (Logs.kt:68-71) register a coroutine exception handler whose body is `CrashLogger.invoke`. Coroutine-context registration is not modelled; the handler's effect is `Logs.Invoke`.
- Coroutine machinery (`runBlocking`, `withContext(Dispatchers.IO)`, suspension) is left out. The worker's body is a synchronous outcome: it either returns a result or throws.
- The crash-reporting SDK and the platform console are append-only sequences. Network delivery, formatting of console output and thread safety of the sinks are not modelled.
- Concurrent calls from several threads are not modelled. Each thread's slot is touched only by that thread.
- The Play services task API and the coroutine runtime deliver failures to registered listeners. That delivery is not modelled. `Logs.Notify` is what one listener does once it is called.
- Hints are arbitrary objects logged through `toString()`. A hint is modelled as its text, or as null, which prints as "null".
- `Throwable.toString()` is modelled as class name plus optional ": message"; localized messages are not modelled. `Class.toString()` is modelled as "class " plus the name; interfaces and primitive classes do not apply to workers.
- LoggingHandler.Handled: `None` stands for the slot getter returning null. The JVM getter substitutes the thread's group when no handler is set; that substitution is not modelled, so the resetting-handler branch is reached only when the getter returns null.
- LoggingHandler.Thread.DispatchUncaughtException: a handler that other code installed is opaque. The model assumes firing it leaves the slot alone. It does not model that the default handler kills the process, nor the crash on the main thread.
- Logs.GenerateStackTrace: requires at least 4 frames. A runtime stack seen from inside the trace generator always has them. The `IllegalArgumentException` that `takeLast` would throw for fewer is not modelled.
- WorkerBase.BodiesRun: the host scheduler's backoff delays and the durability of the attempt count are not modelled. Only the count of body runs is bounded.
