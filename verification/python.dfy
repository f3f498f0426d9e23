/**
  The slice of Python's value and exception model that the messaging code
  depends on: message payloads are arbitrary Python objects, and the
  listener unpacks a log payload with `timestamp, level, text = msg`.
 */
module Python {
  import opened Wrappers

  /** A Python object as far as the messaging code can observe it.
      `PyObject` stands for any object that is not iterable. */
  datatype PyValue =
    | PyNone
    | PyInt(i: int)
    | PyFloat(f: real)
    | PyStr(s: string)
    | PyTuple(items: seq<PyValue>)
    | PyList(items: seq<PyValue>)
    | PyObject(id: nat)

  /** The exception classes the listener and the pool distinguish, plus every
      other one. An instance of a subclass of KeyboardInterrupt, SystemExit or
      EOFError is written as that base class's constructor, since the `except`
      clauses catch it as the base. KeyboardInterrupt, SystemExit and
      GeneratorExit derive from BaseException but not from Exception.
      `OtherError` names only subclasses of Exception outside the classes
      listed here. */
  datatype Exception =
    | KeyboardInterrupt
    | SystemExit
    | GeneratorExit
    | EOFError
    | ValueError
    | TypeError
    | OtherError(name: string)

  /** Objects that iterable unpacking accepts. */
  predicate IsIterable(v: PyValue) {
    v.PyStr? || v.PyTuple? || v.PyList?
  }

  /** What iterating over `v` yields: the items of a tuple or list, the
      one-character strings of a string. */
  function Elements(v: PyValue): seq<PyValue>
    requires IsIterable(v)
  {
    match v
    case PyStr(s) => seq(|s|, i requires 0 <= i < |s| => PyStr([s[i]]))
    case PyTuple(items) => items
    case PyList(items) => items
  }

  /** `a, b, c = v`: succeeds exactly on iterables of three elements, and
      fails with ValueError on other iterables and TypeError on the rest. */
  function Unpack3(v: PyValue): (r: Result<(PyValue, PyValue, PyValue), Exception>)
    ensures r.Success? <==> IsIterable(v) && |Elements(v)| == 3
    ensures r.Success? ==> [r.value.0, r.value.1, r.value.2] == Elements(v)
    ensures r.Failure? ==> r.error == (if IsIterable(v) then ValueError else TypeError)
  {
    match v
    case PyTuple(items) =>
      if |items| == 3 then Success((items[0], items[1], items[2])) else Failure(ValueError)
    case PyList(items) =>
      if |items| == 3 then Success((items[0], items[1], items[2])) else Failure(ValueError)
    case PyStr(s) =>
      if |s| == 3 then Success((PyStr([s[0]]), PyStr([s[1]]), PyStr([s[2]]))) else Failure(ValueError)
    case _ => Failure(TypeError)
  }
}
