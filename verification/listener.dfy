/**
  The coordinator's listener thread (`MainProcessMessageHandler.run`) as a
  state machine folded over what successive `queue.get()` calls produce.
  Callbacks are functions from their arguments to an outcome, and
  `traceback.print_exc` becomes one diagnostic entry in the trace.
 */
module Listener {
  import opened Wrappers
  import opened Python
  import opened SubProcess

  /** The optional `msg_handler(pid, msg_type, msg)` and `log_handler(pid, level, text)`.
      A callback yields the exception it raised, or None when it returned. */
  datatype Handlers = Handlers(
    msgHandler: Option<(int, string, PyValue) -> Option<Exception>>,
    logHandler: Option<(int, PyValue, PyValue) -> Option<Exception>>)

  /** One callback invocation with its arguments. */
  datatype Call =
    | MsgCall(pid: int, kind: string, payload: PyValue)
    | LogCall(pid: int, level: PyValue, text: PyValue)

  /** What the consumer can observe about one pass through the loop body. */
  datatype Entry = Invoked(call: Call) | Diagnostic(exc: Exception)

  /** One result of `queue.get()`: a message, or the exception it raised. */
  datatype Event = Got(msg: Message) | GetRaised(exc: Exception)

  /** Whether the loop is still running, left through `break`, or re-raised. */
  datatype Status = Listening | Stopped | Propagated(exc: Exception)

  datatype ListenerState = ListenerState(trace: seq<Entry>, status: Status)

  /** The effect of the `try` body: the callback it invoked, if any, and the
      exception that escaped it, if any. */
  datatype Delivery = Delivery(invoked: Option<Call>, raised: Option<Exception>)

  /** The three `except` clauses, in the order Python tries them. */
  datatype Handling = Reraise | Break | Report

  function HandlingOf(e: Exception): Handling {
    if e == KeyboardInterrupt || e == SystemExit then Reraise
    else if e == EOFError then Break
    else Report
  }

  predicate Installed(h: Handlers, c: Call) {
    match c
    case MsgCall(_, _, _) => h.msgHandler.Some?
    case LogCall(_, _, _) => h.logHandler.Some?
  }

  /** Runs the callback a call names; the result is the exception it raised, if any. */
  function Invoke(h: Handlers, c: Call): Option<Exception>
    requires Installed(h, c)
  {
    match c
    case MsgCall(pid, kind, payload) => h.msgHandler.value(pid, kind, payload)
    case LogCall(pid, level, text) => h.logHandler.value(pid, level, text)
  }

  /** The routing rule for one dequeued message. */
  function Deliver(h: Handlers, m: Message): (r: Delivery)
    ensures r.invoked.Some? && r.invoked.value.LogCall?
            <==> m.kind == LogKind && h.logHandler.Some? && Unpack3(m.payload).Success?
    ensures r.invoked.Some? && r.invoked.value.MsgCall?
            <==> (m.kind != LogKind || h.logHandler.None?) && h.msgHandler.Some?
    ensures r.invoked.Some? ==> r.invoked.value.pid == m.pid
    ensures r.invoked.Some? && r.invoked.value.MsgCall? ==>
              r.invoked.value.kind == m.kind && r.invoked.value.payload == m.payload
    ensures r.invoked.Some? && r.invoked.value.LogCall? ==>
              IsIterable(m.payload) && |Elements(m.payload)| == 3
              && r.invoked.value.level == Elements(m.payload)[1]
              && r.invoked.value.text == Elements(m.payload)[2]
    ensures r.invoked.Some? ==>
              Installed(h, r.invoked.value) && r.raised == Invoke(h, r.invoked.value)
    ensures m.kind == LogKind && h.logHandler.Some? && Unpack3(m.payload).Failure? ==>
              r.invoked.None? && r.raised == Some(Unpack3(m.payload).error)
    ensures r.invoked.None? && r.raised.Some? ==>
              m.kind == LogKind && h.logHandler.Some? && Unpack3(m.payload) == Failure(r.raised.value)
  {
    if m.kind == LogKind && h.logHandler.Some? then
      match Unpack3(m.payload)
      case Failure(e) => Delivery(None, Some(e))
      case Success(t) =>
        var c := LogCall(m.pid, t.1, t.2);
        Delivery(Some(c), Invoke(h, c))
    else if h.msgHandler.Some? then
      var c := MsgCall(m.pid, m.kind, m.payload);
      Delivery(Some(c), Invoke(h, c))
    else
      Delivery(None, None)
  }

  /** The whole `try` body for one event; a failed `get` invokes nothing. */
  function Attempt(h: Handlers, ev: Event): Delivery {
    match ev
    case Got(m) => Deliver(h, m)
    case GetRaised(e) => Delivery(None, Some(e))
  }

  function InvokedEntries(d: Delivery): seq<Entry> {
    match d.invoked
    case None => []
    case Some(c) => [Invoked(c)]
  }

  /** The callback invocations recorded in a trace, in order. */
  function Calls(trace: seq<Entry>): seq<Call> {
    if |trace| == 0 then []
    else (if trace[0].Invoked? then [trace[0].call] else []) + Calls(trace[1..])
  }

  /** The number of diagnostics recorded in a trace. */
  function Diagnostics(trace: seq<Entry>): nat {
    if |trace| == 0 then 0
    else (if trace[0].Diagnostic? then 1 else 0) + Diagnostics(trace[1..])
  }

  lemma {:induction false} TraceAppend(a: seq<Entry>, b: seq<Entry>)
    ensures Calls(a + b) == Calls(a) + Calls(b)
    ensures Diagnostics(a + b) == Diagnostics(a) + Diagnostics(b)
  {
    if |a| == 0 {
      assert a + b == b;
    } else {
      assert (a + b)[0] == a[0];
      assert (a + b)[1..] == a[1..] + b;
      TraceAppend(a[1..], b);
    }
  }

  /** The invocations the routing rule asks for, event by event, ignoring
      whether the loop would still be running to make them. */
  function Routed(h: Handlers, evs: seq<Event>): seq<Call> {
    if |evs| == 0 then []
    else OptionToSeq(Attempt(h, evs[0]).invoked) + Routed(h, evs[1..])
  }

  /** The messages among the events, in dequeue order. */
  function Messages(evs: seq<Event>): seq<Message> {
    if |evs| == 0 then []
    else (if evs[0].Got? then [evs[0].msg] else []) + Messages(evs[1..])
  }

  /** One iteration of `while True`: run the `try` body, then apply the
      first matching `except` clause to whatever escaped it. */
  function Step(h: Handlers, s: ListenerState, ev: Event): (r: ListenerState)
    requires s.status.Listening?
    ensures s.trace <= r.trace && |r.trace| <= |s.trace| + 2
    ensures Calls(r.trace) == Calls(s.trace) + OptionToSeq(Attempt(h, ev).invoked)
    ensures r.status.Listening? <==>
              Attempt(h, ev).raised.None? || HandlingOf(Attempt(h, ev).raised.value) == Report
    ensures r.status == Stopped <==> Attempt(h, ev).raised == Some(EOFError)
    ensures r.status.Propagated? <==>
              Attempt(h, ev).raised.Some? && HandlingOf(Attempt(h, ev).raised.value) == Reraise
    ensures r.status.Propagated? ==> Some(r.status.exc) == Attempt(h, ev).raised
    ensures Diagnostics(r.trace) ==
              Diagnostics(s.trace) + (if r.status.Listening? && Attempt(h, ev).raised.Some? then 1 else 0)
  {
    var d := Attempt(h, ev);
    var t := s.trace + InvokedEntries(d);
    TraceAppend(s.trace, InvokedEntries(d));
    assert Calls(InvokedEntries(d)) == OptionToSeq(d.invoked);
    match d.raised
    case None => ListenerState(t, Listening)
    case Some(e) =>
      match HandlingOf(e)
      case Reraise => ListenerState(t, Propagated(e))
      case Break => ListenerState(t, Stopped)
      case Report =>
        TraceAppend(t, [Diagnostic(e)]);
        assert Calls([Diagnostic(e)]) == [];
        ListenerState(t + [Diagnostic(e)], Listening)
  }

  /** Continues the loop from state `s` over the remaining events. Once the
      loop has left, later events are never consumed. */
  function RunFrom(h: Handlers, s: ListenerState, evs: seq<Event>): (r: ListenerState)
    decreases |evs|
    ensures s.trace <= r.trace
    ensures |r.trace| <= |s.trace| + 2 * |evs|
    ensures !s.status.Listening? ==> r == s
    ensures r.status.Listening? ==> s.status.Listening?
  {
    if |evs| == 0 || !s.status.Listening? then s
    else RunFrom(h, Step(h, s, evs[0]), evs[1..])
  }

  const Initial: ListenerState := ListenerState([], Listening)

  lemma {:induction false} RunFromCalls(h: Handlers, s: ListenerState, evs: seq<Event>)
    ensures Calls(RunFrom(h, s, evs).trace) <= Calls(s.trace) + Routed(h, evs)
    ensures RunFrom(h, s, evs).status.Listening? ==>
              Calls(RunFrom(h, s, evs).trace) == Calls(s.trace) + Routed(h, evs)
    decreases |evs|
  {
    if |evs| == 0 {
    } else if !s.status.Listening? {
    } else {
      var s' := Step(h, s, evs[0]);
      var first := OptionToSeq(Attempt(h, evs[0]).invoked);
      RunFromCalls(h, s', evs[1..]);
      assert RunFrom(h, s, evs) == RunFrom(h, s', evs[1..]);
      assert Routed(h, evs) == first + Routed(h, evs[1..]);
      assert Calls(s'.trace) == Calls(s.trace) + first;
      assert Calls(s.trace) + Routed(h, evs)
          == Calls(s'.trace) + Routed(h, evs[1..]);
    }
  }

  lemma {:induction false} RoutedAtMostOnePerMessage(h: Handlers, evs: seq<Event>)
    ensures |Routed(h, evs)| <= |Messages(evs)|
  {
    if |evs| > 0 {
      RoutedAtMostOnePerMessage(h, evs[1..]);
    }
  }

  /** The listener run over the events `get` produces, from an empty trace.
      Its callbacks are invoked in dequeue order, at most one per message. */
  function Run(h: Handlers, evs: seq<Event>): (r: ListenerState)
    ensures Calls(r.trace) <= Routed(h, evs)
    ensures r.status.Listening? ==> Calls(r.trace) == Routed(h, evs)
    ensures |Calls(r.trace)| <= |Messages(evs)|
  {
    RunFromCalls(h, Initial, evs);
    RoutedAtMostOnePerMessage(h, evs);
    RunFrom(h, Initial, evs)
  }
}
