# responsive_multiprocessing in Dafny

This project models the deterministic core of `responsive_multiprocessing.py`. That module runs a closed
`multiprocessing` pool over a list of jobs. While the jobs run, it relays progress and log messages from
the workers to the main process through a shared queue. The model has three parts.

- **Worker-side handle** (`SubProcessMessageHandler`, module `SubProcess`). `send_message`, `info`,
  `error` and `_log` each append one tagged message `(pid, kind, payload)` to the queue. The queue is a
  sequence of messages. The process id and the clock reading are parameters.
- **Listener** (`MainProcessMessageHandler.run`, module `Listener`). The loop is a state machine folded
  over the results of successive `queue.get()` calls: a dequeued message, or an exception that `get`
  raised. Callbacks are functions that return normally or raise. The listener produces a trace of
  callback invocations and diagnostics, plus a status. The status is still listening, stopped by
  `break`, or propagated (re-raised). Module `ListenerProperties` proves what the loop does over whole
  event sequences.
- **Result collection** (end of `multiprocessWithMessaging`, module `Results`). There is one result slot
  per job, in submission order. Jobs fill their slots in any completion order. The slots are then read
  back in submission order, and the first failed job's exception is re-raised. A job that raises
  KeyboardInterrupt, SystemExit or GeneratorExit makes the call never return (see below).

Python values are modelled by `Python.PyValue`, so a malformed log payload is concrete. Among the
modelled values, unpacking a tuple, list or string of three elements succeeds. A tuple, list or string
of any other length raises `ValueError`, and the other modelled values raise `TypeError`. Both are
ordinary exceptions for the listener.

One behaviour of the code is worth knowing. The `except EOFError: break` clause also catches an
`EOFError` raised by a callback. So such a callback stops the listener, and every later message is
never delivered (`ListenerProperties.CallbackEofStopsListener`).

A failed job hides every other job's result. `result.get()` at line 95 re-raises the first failure in
submission order, and no list is returned.

A `multiprocessing` pool worker runs each job inside `except Exception`. A job that raises
KeyboardInterrupt, SystemExit or GeneratorExit is outside that class, so it kills its worker, and its
result is never set. While that result is pending, the pool keeps starting replacement workers. So the
polling loop at lines 90-91 never sees a single active child, and the call never returns
(`Results.MultiprocessWithMessaging` yields `NeverReturns`).

## Model

| member | source | states |
|---|---|---|
| Python.Unpack3 | responsive_multiprocessing.py:49 | `timestamp, level, text = msg` succeeds exactly on a modelled iterable (tuple, list or string) of three elements and yields them in order; otherwise it raises ValueError (wrong length) or TypeError (not iterable) |
| SubProcess.SendMessage | responsive_multiprocessing.py:24-25 | appends exactly one message, leaving earlier ones untouched; it carries the caller's pid, tag `generic` and the payload unchanged |
| SubProcess.WriteLog | responsive_multiprocessing.py:33-34 | appends exactly one `log` message, leaving earlier ones untouched; it carries the caller's pid and the tuple (timestamp, level, text), which unpacks back to those three values |
| SubProcess.Info | responsive_multiprocessing.py:27-28 | appends exactly one `log` message with the caller's pid and the tuple (now, "info", text), which unpacks back to those three values |
| SubProcess.Error | responsive_multiprocessing.py:30-31 | appends exactly one `log` message with the caller's pid and the tuple (now, "error", text), which unpacks back to those three values |
| Listener.Deliver | responsive_multiprocessing.py:47-53 | `log_handler` is invoked iff the tag is `log`, a log handler is set and the payload unpacks; it then gets (pid, level, text) with the timestamp dropped. `msg_handler` is invoked iff the tag is not `log` or no log handler is set, and a message handler is set; it then gets all three fields unchanged. At most one callback runs. A log payload that does not unpack while a log handler is set invokes nothing and raises the unpacking error. Any other escaping exception is the callback's own |
| Listener.Step | responsive_multiprocessing.py:45-59 | one iteration only appends to the trace, adding at most one invocation and at most one diagnostic. It keeps listening iff nothing escaped or an ordinary exception escaped, which is then reported exactly once. It stops iff EOFError escaped and propagates iff KeyboardInterrupt or SystemExit escaped |
| Listener.RunFrom | responsive_multiprocessing.py:44-59 | the loop only extends its trace, by at most two entries per event; once it has left, it consumes no more events |
| Listener.RunFromCalls | responsive_multiprocessing.py:45-53 | the invocations made are a prefix of the per-message routing in dequeue order, and all of it while the loop is still listening |
| Listener.RoutedAtMostOnePerMessage | responsive_multiprocessing.py:45-53 | routing asks for at most one callback per dequeued message |
| Listener.Run | responsive_multiprocessing.py:44-59 | callbacks run in dequeue order, at most one per message, and exactly as routed while listening |
| ListenerProperties.RunFromAppend | responsive_multiprocessing.py:45-59 | running over `a + b` equals running over `a`, then over `b` from the resulting state |
| ListenerProperties.BreakEndsLoop | responsive_multiprocessing.py:56-57 | an EOFError escaping the loop body stops the loop; no later event is consumed and no further callback runs |
| ListenerProperties.ReraiseEndsLoop | responsive_multiprocessing.py:54-55 | KeyboardInterrupt or SystemExit escaping the loop body is propagated, with no further callbacks |
| ListenerProperties.ReportAndContinue | responsive_multiprocessing.py:58-59 | any other escaping exception adds exactly one diagnostic, and the loop goes on with the next event unaffected |
| ListenerProperties.EofStopsListener | responsive_multiprocessing.py:47-57 | `get` raising EOFError ends the loop normally, with the trace unchanged |
| ListenerProperties.InterruptPropagates | responsive_multiprocessing.py:47-55 | KeyboardInterrupt or SystemExit raised while waiting in `get` propagates out of the loop instead of being swallowed |
| ListenerProperties.FailingCallbackIsReported | responsive_multiprocessing.py:48-59 | a callback raising an ordinary exception is recorded as invoked, one diagnostic follows, and the loop continues |
| ListenerProperties.MalformedLogIsReported | responsive_multiprocessing.py:48-59 | a `log` message whose payload does not unpack, seen while a log handler is set, invokes no callback; it adds one diagnostic and the loop continues |
| ListenerProperties.CallbackEofStopsListener | responsive_multiprocessing.py:50-57 | a callback raising EOFError stops the listener after its invocation, so later messages are not delivered |
| ListenerProperties.SentMessageDelivery | responsive_multiprocessing.py:24-53 | a message from `send_message` reaches `msg_handler` as (pid, "generic", msg) whether or not a log handler is set, and reaches nothing without a message handler |
| ListenerProperties.LoggedMessageDelivery | responsive_multiprocessing.py:27-53 | a message from `info`/`error` reaches `log_handler` as (pid, level, text) when one is set; otherwise it reaches `msg_handler` tagged `log` with the (timestamp, level, text) payload unchanged |
| ListenerProperties.ExactlyOnceDelivery | responsive_multiprocessing.py:44-59 | take a queue of worker-built messages followed by end-of-file, with a message handler set and no raising callback. Then every message gets exactly one invocation, in queue order, carrying the sender's pid and routed by its tag, and the loop stops |
| ListenerProperties.StaysListening | responsive_multiprocessing.py:47-59 | while callbacks raise only ordinary exceptions, no run of dequeued messages ends the loop, including messages with malformed log payloads |
| ListenerProperties.RoutedOnePerMessage | responsive_multiprocessing.py:48-53 | with a message handler set and well-formed log payloads, routing asks for exactly one callback per message, in queue order, routed by tag with the sender's pid |
| ListenerProperties.FailingCallbacksKeepDelivering | responsive_multiprocessing.py:44-59 | when callbacks raise at most ordinary exceptions, a queue followed by end-of-file ends in Stopped, having made every invocation routing asks for, in queue order |
| ListenerProperties.ExactlyOnceDespiteFailingCallbacks | responsive_multiprocessing.py:44-59 | with a message handler set and callbacks raising at most ordinary exceptions, every message put before end-of-file gets exactly one invocation, in queue order, routed by its tag |
| Results.Complete | responsive_multiprocessing.py:84-86 | when jobs finish in any order, each finished job's outcome lands in the slot of its submission index and every other slot is unchanged |
| Results.Collect | responsive_multiprocessing.py:93-96 | it returns a list iff every job succeeded; the list has one element per job, and element i is job i's value. Otherwise it raises the exception of the lowest-indexed failed job |
| Results.MultiprocessWithMessaging | responsive_multiprocessing.py:61-96 | a process count below one raises ValueError, as `Pool` does at line 82. Otherwise the call never returns iff some job raises KeyboardInterrupt, SystemExit or GeneratorExit. It returns iff every job succeeds, with job i's value at position i. In the remaining case it raises the lowest-indexed failure |
| Results.ExitingJobHangs | responsive_multiprocessing.py:86-91 | with a valid pool, a job that calls `sys.exit` (raises SystemExit) for every argument list makes the call never return |
| Results.CompletionOrderIrrelevant | responsive_multiprocessing.py:84-96 | two completion orders of the same jobs give the same result |

## Left out

- The `Manager()` process and `m.Queue()` transport, including the process safety of `put` and `get` (lines 77-78). This is inter-process machinery; the queue is a sequence of messages and the listener's input is a sequence of `get` results.
- The unpacking of each queue item at line 47. Only the worker-side handle puts items on the queue, and it always puts a 3-tuple, so a message is a `(pid, kind, payload)` record.
- `Pool`, `apply_async`, `pool.close()`, the `active_children()` polling loop with `time.sleep`, and `pool.join()` (lines 82, 86-92). The `check_interval` parameter (line 61, described at line 75) is never read: line 91 always sleeps a fixed 0.1 seconds, and no member takes that parameter. They exist for process scheduling and deadlock avoidance. The model does not run them. It assumes every job that does not kill its worker finishes exactly once, in some order (`Results.IsCompletionOrder`), and that the polling loop then exits. The source does not guarantee either. A job raising KeyboardInterrupt, SystemExit or GeneratorExit makes the loop spin forever; the model states this as `NeverReturns`. The same happens when the calling process has any other live child process, because `active_children()` counts every child. That case is not modelled.
- The listener thread's construction, daemon flag and start (lines 37-42, 79-80). This is concurrency. The handlers are the `Handlers` value that the fold receives.
- `os.getpid()` and `time.time()` are parameters of the worker-side functions.
- `traceback.print_exc(file=sys.stderr)` becomes one `Diagnostic` entry holding the exception. The printed text is not modelled.
- Callbacks are pure functions of their arguments. A callback whose behaviour depends on earlier calls is not modelled. An interrupt that arrives while a callback runs counts as that callback raising it.
- Job functions are pure functions from their argument list to an outcome. The messages a job sends through its handle reach the listener only as events in its input sequence, so no link between a job and its messages is modelled.
- Messages still on the queue when `multiprocessWithMessaging` returns, and the daemon listener that may still be draining them, are not modelled.
- Line 85 rebinds the parameter name `msg_handler` to each worker-side handle. The listener was built at line 79 with the caller's handler, so this has no effect and is not modelled.
- SendMessage: always appends. `queue.put` at line 25 can raise in the worker when the payload cannot be pickled or the manager process is gone, and that surfaces as the job's failure. Pickling and the manager's lifetime are inter-process machinery outside this model.
- WriteLog: always appends, for the same reason as SendMessage (`queue.put` at line 34). Info and Error inherit this through WriteLog.
- Info: always appends; see WriteLog.
- Error: always appends; see WriteLog.
- MultiprocessWithMessaging: takes the process count as an integer. `Pool(processes=None)`, which picks the CPU count, is not modelled.
- MultiprocessWithMessaging: only the three standard classes outside `Exception` (KeyboardInterrupt, SystemExit, GeneratorExit) make a job kill its worker. A user-defined direct subclass of `BaseException` would do the same, but it has no `Python.Exception` constructor.
- MultiprocessWithMessaging: does not model other live child processes of the caller. They keep the polling loop at line 90 spinning forever, so the call never returns.
- Python iterables other than tuples, lists and strings (dicts, sets, bytes, ranges, generators) have no `PyValue`, so the model cannot show them unpacking at line 49. This is harmless for queued log messages, because `_log` always builds a tuple.
- The unused imports `subprocess`, `glob` and `Queue` are not modelled.
