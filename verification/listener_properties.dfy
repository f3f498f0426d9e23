/**
  Properties of the listener loop over whole event sequences: how it
  leaves, that ordinary exceptions never stop it, and that messages put
  by the worker-side handle reach the right callback exactly once.
 */
module ListenerProperties {
  import opened Wrappers
  import opened Python
  import opened SubProcess
  import opened Listener

  /** Running over `a + b` is running over `a`, then over `b` from there. */
  lemma {:induction false} RunFromAppend(h: Handlers, s: ListenerState, a: seq<Event>, b: seq<Event>)
    ensures RunFrom(h, s, a + b) == RunFrom(h, RunFrom(h, s, a), b)
    decreases |a|
  {
    if |a| == 0 {
      assert a + b == b;
    } else if !s.status.Listening? {
    } else {
      assert (a + b)[0] == a[0];
      assert (a + b)[1..] == a[1..] + b;
      RunFromAppend(h, Step(h, s, a[0]), a[1..], b);
    }
  }

  /** The event after a prefix `a`, seen from the state `a` leaves. */
  lemma {:induction false} RunAfterPrefix(h: Handlers, a: seq<Event>, ev: Event, b: seq<Event>)
    requires Run(h, a).status.Listening?
    ensures Run(h, a + [ev] + b) == RunFrom(h, Step(h, Run(h, a), ev), b)
  {
    assert a + [ev] + b == a + ([ev] + b);
    RunFromAppend(h, Initial, a, [ev] + b);
    assert ([ev] + b)[0] == ev;
    assert ([ev] + b)[1..] == b;
  }

  /** An EOFError escaping the loop body ends the loop: later events are
      never consumed and no further callback runs. */
  lemma BreakEndsLoop(h: Handlers, a: seq<Event>, ev: Event, b: seq<Event>)
    requires Run(h, a).status.Listening?
    requires Attempt(h, ev).raised == Some(EOFError)
    ensures Run(h, a + [ev] + b) ==
              ListenerState(Run(h, a).trace + InvokedEntries(Attempt(h, ev)), Stopped)
  {
    RunAfterPrefix(h, a, ev, b);
  }

  /** KeyboardInterrupt and SystemExit escaping the loop body leave the loop
      by propagating, and no further callback runs. */
  lemma ReraiseEndsLoop(h: Handlers, a: seq<Event>, ev: Event, b: seq<Event>)
    requires Run(h, a).status.Listening?
    requires Attempt(h, ev).raised == Some(KeyboardInterrupt) || Attempt(h, ev).raised == Some(SystemExit)
    ensures Run(h, a + [ev] + b) ==
              ListenerState(Run(h, a).trace + InvokedEntries(Attempt(h, ev)), Propagated(Attempt(h, ev).raised.value))
  {
    RunAfterPrefix(h, a, ev, b);
  }

  /** Any other exception is reported once and the loop carries on with the
      next event as if nothing had happened. */
  lemma ReportAndContinue(h: Handlers, a: seq<Event>, ev: Event, b: seq<Event>)
    requires Run(h, a).status.Listening?
    requires Attempt(h, ev).raised.Some? && HandlingOf(Attempt(h, ev).raised.value) == Report
    ensures Run(h, a + [ev] + b) ==
              RunFrom(h, ListenerState(Run(h, a).trace + InvokedEntries(Attempt(h, ev))
                                         + [Diagnostic(Attempt(h, ev).raised.value)], Listening), b)
  {
    RunAfterPrefix(h, a, ev, b);
  }

  /** `get` raising EOFError ends the loop normally with the trace it had. */
  lemma EofStopsListener(h: Handlers, a: seq<Event>, b: seq<Event>)
    requires Run(h, a).status.Listening?
    ensures Run(h, a + [GetRaised(EOFError)] + b) == ListenerState(Run(h, a).trace, Stopped)
  {
    BreakEndsLoop(h, a, GetRaised(EOFError), b);
  }

  /** An interrupt while waiting in `get` propagates out of the loop. */
  lemma InterruptPropagates(h: Handlers, a: seq<Event>, e: Exception, b: seq<Event>)
    requires Run(h, a).status.Listening?
    requires e == KeyboardInterrupt || e == SystemExit
    ensures Run(h, a + [GetRaised(e)] + b) == ListenerState(Run(h, a).trace, Propagated(e))
  {
    ReraiseEndsLoop(h, a, GetRaised(e), b);
  }

  /** A callback that raises an ordinary exception is recorded as invoked,
      one diagnostic follows, and the loop goes on. */
  lemma FailingCallbackIsReported(h: Handlers, a: seq<Event>, m: Message, e: Exception, b: seq<Event>)
    requires Run(h, a).status.Listening?
    requires Deliver(h, m).invoked.Some?
    requires Invoke(h, Deliver(h, m).invoked.value) == Some(e)
    requires HandlingOf(e) == Report
    ensures Run(h, a + [Got(m)] + b) ==
              RunFrom(h, ListenerState(Run(h, a).trace + [Invoked(Deliver(h, m).invoked.value), Diagnostic(e)], Listening), b)
  {
    ReportAndContinue(h, a, Got(m), b);
    assert Run(h, a).trace + [Invoked(Deliver(h, m).invoked.value)] + [Diagnostic(e)]
        == Run(h, a).trace + [Invoked(Deliver(h, m).invoked.value), Diagnostic(e)];
  }

  /** A log message whose payload does not unpack into three values, seen
      while a log handler is set, invokes nothing: one diagnostic, and the
      loop goes on. */
  lemma MalformedLogIsReported(h: Handlers, a: seq<Event>, m: Message, b: seq<Event>)
    requires Run(h, a).status.Listening?
    requires m.kind == LogKind && h.logHandler.Some? && !WellFormed(m)
    ensures Run(h, a + [Got(m)] + b) ==
              RunFrom(h, ListenerState(Run(h, a).trace + [Diagnostic(Unpack3(m.payload).error)], Listening), b)
  {
    ReportAndContinue(h, a, Got(m), b);
    assert InvokedEntries(Deliver(h, m)) == [];
    assert Run(h, a).trace + [] == Run(h, a).trace;
  }

  /** The `except EOFError` clause also catches an EOFError raised by a
      callback, which ends the listener: every later message goes undelivered. */
  lemma CallbackEofStopsListener(h: Handlers, a: seq<Event>, m: Message, b: seq<Event>)
    requires Run(h, a).status.Listening?
    requires Deliver(h, m).invoked.Some?
    requires Invoke(h, Deliver(h, m).invoked.value) == Some(EOFError)
    ensures Run(h, a + [Got(m)] + b) ==
              ListenerState(Run(h, a).trace + [Invoked(Deliver(h, m).invoked.value)], Stopped)
    ensures Calls(Run(h, a + [Got(m)] + b).trace) == Calls(Run(h, a).trace) + [Deliver(h, m).invoked.value]
  {
    BreakEndsLoop(h, a, Got(m), b);
    TraceAppend(Run(h, a).trace, [Invoked(Deliver(h, m).invoked.value)]);
  }

  /** A message put by `send_message` reaches `msg_handler` unchanged, tagged
      generic, whether or not a log handler is set. */
  lemma SentMessageDelivery(h: Handlers, q: Queue, pid: int, msg: PyValue)
    ensures Deliver(h, SendMessage(q, pid, msg)[|q|]).invoked ==
              if h.msgHandler.Some? then Some(MsgCall(pid, GenericKind, msg)) else None
  {
  }

  /** A message put by `info`/`error` reaches `log_handler` as
      (pid, level, text) with the timestamp dropped; without a log handler
      it reaches `msg_handler` unchanged, tagged log. */
  lemma LoggedMessageDelivery(h: Handlers, q: Queue, pid: int, timestamp: real, level: string, text: PyValue)
    ensures var m := WriteLog(q, pid, timestamp, level, text)[|q|];
            Deliver(h, m).invoked ==
              if h.logHandler.Some? then Some(LogCall(pid, PyStr(level), text))
              else if h.msgHandler.Some? then Some(MsgCall(pid, LogKind, m.payload))
              else None
  {
  }

  /** The events of dequeuing every message of `q` in order. */
  function Gots(q: Queue): seq<Event> {
    seq(|q|, i requires 0 <= i < |q| => Got(q[i]))
  }

  /** No installed callback ever raises. */
  ghost predicate NeverRaise(h: Handlers) {
    && (h.msgHandler.Some? ==> forall p, k, v :: h.msgHandler.value(p, k, v) == None)
    && (h.logHandler.Some? ==> forall p, l, t :: h.logHandler.value(p, l, t) == None)
  }

  /** The invocation the routing rule makes for a message that has a callback. */
  ghost predicate DeliveredAs(h: Handlers, m: Message, c: Call) {
    && c.pid == m.pid
    && (c.LogCall? <==> m.kind == LogKind && h.logHandler.Some?)
    && (c.MsgCall? ==> c.kind == m.kind && c.payload == m.payload)
    && (c.LogCall? ==> IsIterable(m.payload) && |Elements(m.payload)| == 3
                       && c.level == Elements(m.payload)[1] && c.text == Elements(m.payload)[2])
  }

  lemma {:induction false} DeliversEach(h: Handlers, q: Queue)
    requires h.msgHandler.Some? && NeverRaise(h)
    requires h.logHandler.Some? ==> forall i :: 0 <= i < |q| ==> WellFormed(q[i])
    ensures Run(h, Gots(q)).status.Listening?
    ensures |Run(h, Gots(q)).trace| == |q|
    ensures forall i :: 0 <= i < |q| ==>
              Run(h, Gots(q)).trace[i].Invoked? && DeliveredAs(h, q[i], Run(h, Gots(q)).trace[i].call)
    decreases |q|
  {
    if |q| == 0 {
      assert Gots(q) == [];
    } else {
      var n := |q| - 1;
      var p := q[..n];
      DeliversEach(h, p);
      assert Gots(q) == Gots(p) + [Got(q[n])] + [];
      RunAfterPrefix(h, Gots(p), Got(q[n]), []);
      var d := Deliver(h, q[n]);
      assert d.invoked.Some?;
      assert d.raised.None?;
      var r := Run(h, Gots(q));
      assert r.trace == Run(h, Gots(p)).trace + [Invoked(d.invoked.value)];
      forall i | 0 <= i < |q|
        ensures r.trace[i].Invoked? && DeliveredAs(h, q[i], r.trace[i].call)
      {
        if i < n {
          assert q[i] == p[i];
        }
      }
    }
  }

  /** Every message put on the queue before it reports end-of-file is
      delivered to exactly one callback, in queue order, with the sender's
      pid, when a message handler is set and no callback raises. */
  lemma ExactlyOnceDelivery(h: Handlers, q: Queue)
    requires h.msgHandler.Some? && NeverRaise(h)
    requires h.logHandler.Some? ==> forall i :: 0 <= i < |q| ==> WellFormed(q[i])
    ensures Run(h, Gots(q) + [GetRaised(EOFError)]).status == Stopped
    ensures |Run(h, Gots(q) + [GetRaised(EOFError)]).trace| == |q|
    ensures forall i :: 0 <= i < |q| ==>
              var e := Run(h, Gots(q) + [GetRaised(EOFError)]).trace[i];
              e.Invoked? && DeliveredAs(h, q[i], e.call)
  {
    DeliversEach(h, q);
    EofStopsListener(h, Gots(q), []);
    assert Gots(q) + [GetRaised(EOFError)] + [] == Gots(q) + [GetRaised(EOFError)];
  }

  /** Every exception an installed callback raises is one the bare `except:`
      reports, so none of them can end the loop. */
  ghost predicate OnlyOrdinaryRaise(h: Handlers) {
    && (h.msgHandler.Some? ==> forall p, k, v :: h.msgHandler.value(p, k, v).Some? ==>
          HandlingOf(h.msgHandler.value(p, k, v).value) == Report)
    && (h.logHandler.Some? ==> forall p, l, t :: h.logHandler.value(p, l, t).Some? ==>
          HandlingOf(h.logHandler.value(p, l, t).value) == Report)
  }

  /** While callbacks raise only ordinary exceptions, no dequeued message
      ends the loop: not a raising callback, not a malformed log payload. */
  lemma {:induction false} StaysListening(h: Handlers, s: ListenerState, q: Queue)
    requires s.status.Listening? && OnlyOrdinaryRaise(h)
    ensures RunFrom(h, s, Gots(q)).status.Listening?
    decreases |q|
  {
    if |q| > 0 {
      var evs := Gots(q);
      assert evs[0] == Got(q[0]);
      assert evs[1..] == Gots(q[1..]);
      var d := Deliver(h, q[0]);
      if d.invoked.Some? {
        match d.invoked.value
        case MsgCall(p, k, v) => assert d.raised == h.msgHandler.value(p, k, v);
        case LogCall(p, l, t) => assert d.raised == h.logHandler.value(p, l, t);
      }
      var s' := Step(h, s, evs[0]);
      assert s'.status.Listening?;
      StaysListening(h, s', q[1..]);
    }
  }

  /** With a message handler set, routing dequeued messages asks for exactly
      one callback per message, in queue order. */
  lemma {:induction false} RoutedOnePerMessage(h: Handlers, q: Queue)
    requires h.msgHandler.Some?
    requires h.logHandler.Some? ==> forall i :: 0 <= i < |q| ==> WellFormed(q[i])
    ensures |Routed(h, Gots(q))| == |q|
    ensures forall i :: 0 <= i < |q| ==> DeliveredAs(h, q[i], Routed(h, Gots(q))[i])
    decreases |q|
  {
    if |q| > 0 {
      var evs := Gots(q);
      assert evs[0] == Got(q[0]);
      assert evs[1..] == Gots(q[1..]);
      RoutedOnePerMessage(h, q[1..]);
      var d := Deliver(h, q[0]);
      assert d.invoked.Some?;
      var rest := Routed(h, Gots(q[1..]));
      assert Routed(h, evs) == [d.invoked.value] + rest;
      forall i | 0 <= i < |q|
        ensures DeliveredAs(h, q[i], Routed(h, evs)[i])
      {
        if i > 0 {
          assert q[i] == q[1..][i - 1];
        }
      }
    }
  }

  /** Callbacks that raise ordinary exceptions do not cost any delivery: the
      loop runs until end-of-file and makes every invocation routing asks
      for, in queue order. */
  lemma FailingCallbacksKeepDelivering(h: Handlers, q: Queue)
    requires OnlyOrdinaryRaise(h)
    ensures Run(h, Gots(q) + [GetRaised(EOFError)]).status == Stopped
    ensures Calls(Run(h, Gots(q) + [GetRaised(EOFError)]).trace) == Routed(h, Gots(q))
  {
    StaysListening(h, Initial, q);
    RunFromCalls(h, Initial, Gots(q));
    assert Calls(Initial.trace) == [];
    EofStopsListener(h, Gots(q), []);
    assert Gots(q) + [GetRaised(EOFError)] + [] == Gots(q) + [GetRaised(EOFError)];
  }

  /** Every message put on the queue before end-of-file is delivered to
      exactly one callback, in queue order, when a message handler is set
      and callbacks raise at most ordinary exceptions. */
  lemma ExactlyOnceDespiteFailingCallbacks(h: Handlers, q: Queue)
    requires h.msgHandler.Some? && OnlyOrdinaryRaise(h)
    requires h.logHandler.Some? ==> forall i :: 0 <= i < |q| ==> WellFormed(q[i])
    ensures Run(h, Gots(q) + [GetRaised(EOFError)]).status == Stopped
    ensures |Calls(Run(h, Gots(q) + [GetRaised(EOFError)]).trace)| == |q|
    ensures forall i :: 0 <= i < |q| ==>
              DeliveredAs(h, q[i], Calls(Run(h, Gots(q) + [GetRaised(EOFError)]).trace)[i])
  {
    FailingCallbacksKeepDelivering(h, q);
    RoutedOnePerMessage(h, q);
  }
}
