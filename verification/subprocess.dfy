/**
  The worker-side handle (`SubProcessMessageHandler`). Every call appends
  one tagged message `(pid, kind, payload)` to the shared queue. The
  process id and the clock are parameters, and the queue is the sequence
  of messages put so far.
 */
module SubProcess {
  import opened Wrappers
  import opened Python

  /** The tag of a free-form message. */
  const GenericKind: string := "generic"
  /** The tag of a logging message. */
  const LogKind: string := "log"

  /** One queue item: the sender's process id, the tag and the payload. */
  datatype Message = Message(pid: int, kind: string, payload: PyValue)

  /** The messages put on the queue, oldest first. */
  type Queue = seq<Message>

  /** A message the listener can dispatch without an unpacking error: a log
      message carries a three-element payload. */
  predicate WellFormed(m: Message) {
    m.kind == LogKind ==> Unpack3(m.payload).Success?
  }

  /** `send_message(msg)`: one generic message carrying `msg` untouched. */
  function SendMessage(q: Queue, pid: int, msg: PyValue): (r: Queue)
    ensures |r| == |q| + 1 && r[..|q|] == q
    ensures r[|q|].pid == pid && r[|q|].kind == GenericKind && r[|q|].payload == msg
    ensures WellFormed(r[|q|])
  {
    q + [Message(pid, GenericKind, msg)]
  }

  /** `_log(timestamp, level, text)`: one log message whose payload unpacks
      to the timestamp, the level and the text. */
  function WriteLog(q: Queue, pid: int, timestamp: real, level: string, text: PyValue): (r: Queue)
    ensures |r| == |q| + 1 && r[..|q|] == q
    ensures r[|q|].pid == pid && r[|q|].kind == LogKind
    ensures r[|q|].payload == PyTuple([PyFloat(timestamp), PyStr(level), text])
    ensures Unpack3(r[|q|].payload) == Success((PyFloat(timestamp), PyStr(level), text))
    ensures WellFormed(r[|q|])
  {
    q + [Message(pid, LogKind, PyTuple([PyFloat(timestamp), PyStr(level), text]))]
  }

  /** `info(text)`, with `now` the value `time.time()` returned. */
  function Info(q: Queue, pid: int, now: real, text: PyValue): (r: Queue)
    ensures |r| == |q| + 1 && r[..|q|] == q
    ensures r[|q|].pid == pid && r[|q|].kind == LogKind
    ensures r[|q|].payload == PyTuple([PyFloat(now), PyStr("info"), text])
    ensures Unpack3(r[|q|].payload) == Success((PyFloat(now), PyStr("info"), text))
  {
    WriteLog(q, pid, now, "info", text)
  }

  /** `error(text)`, with `now` the value `time.time()` returned. */
  function Error(q: Queue, pid: int, now: real, text: PyValue): (r: Queue)
    ensures |r| == |q| + 1 && r[..|q|] == q
    ensures r[|q|].pid == pid && r[|q|].kind == LogKind
    ensures r[|q|].payload == PyTuple([PyFloat(now), PyStr("error"), text])
    ensures Unpack3(r[|q|].payload) == Success((PyFloat(now), PyStr("error"), text))
  {
    WriteLog(q, pid, now, "error", text)
  }
}
