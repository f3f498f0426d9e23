/**
  Result collection in `multiprocessWithMessaging`: one asynchronous result
  per job in submission order, filled in whatever order the jobs finish,
  then read back in submission order by `result.get()`, which re-raises a
  failed job's exception.
 */
module Results {
  import opened Wrappers
  import opened Python

  /** What one job did: returned a value or raised. */
  type JobOutcome<V> = Result<V, Exception>

  /** An asynchronous result: not finished yet, or finished with an outcome. */
  datatype Slot<V> = Pending | Ready(outcome: JobOutcome<V>)

  /** `order` lists every job index below `n` once: the order jobs finish in. */
  predicate IsCompletionOrder(order: seq<nat>, n: nat) {
    && |order| == n
    && (forall k :: 0 <= k < |order| ==> order[k] < n)
    && (forall i :: 0 <= i < n ==> i in order)
  }

  /** The result slots after the jobs in `order` finish, one after another. */
  function Complete<V>(slots: seq<Slot<V>>, order: seq<nat>, outcomes: seq<JobOutcome<V>>): (r: seq<Slot<V>>)
    requires |outcomes| == |slots|
    requires forall k :: 0 <= k < |order| ==> order[k] < |slots|
    ensures |r| == |slots|
    ensures forall i :: 0 <= i < |slots| ==> r[i] == if i in order then Ready(outcomes[i]) else slots[i]
    decreases |order|
  {
    if |order| == 0 then slots
    else
      var j := order[0];
      assert forall k :: 0 <= k < |order[1..]| ==> order[1..][k] == order[k + 1];
      assert forall i :: i in order <==> i == j || i in order[1..];
      Complete(slots[j := Ready(outcomes[j])], order[1..], outcomes)
  }

  /** The loop `for result in results: r.append(result.get())`: the values in
      submission order, or the exception of the first failed job, which
      leaves the loop before any later result is read. */
  function Collect<V>(outcomes: seq<JobOutcome<V>>): (r: Result<seq<V>, Exception>)
    ensures r.Success? <==> forall i :: 0 <= i < |outcomes| ==> outcomes[i].Success?
    ensures r.Success? ==> |r.value| == |outcomes|
    ensures r.Success? ==> forall i :: 0 <= i < |outcomes| ==> outcomes[i] == Success(r.value[i])
    ensures r.Failure? ==> exists i :: 0 <= i < |outcomes| && outcomes[i] == Failure(r.error)
                                       && forall j :: 0 <= j < i ==> outcomes[j].Success?
  {
    if |outcomes| == 0 then Success([])
    else
      match outcomes[0]
      case Failure(e) => Failure(e)
      case Success(v) =>
        match Collect(outcomes[1..])
        case Failure(e) =>
          ghost var i :| 0 <= i < |outcomes[1..]| && outcomes[1..][i] == Failure(e)
                         && forall j :: 0 <= j < i ==> outcomes[1..][j].Success?;
          assert outcomes[i + 1] == Failure(e);
          Failure(e)
        case Success(vs) =>
          assert forall i :: 0 < i < |outcomes| ==> outcomes[i] == outcomes[1..][i - 1];
          Success([v] + vs)
  }

  /** How a call to `multiprocessWithMessaging` ends: it returns the list of
      values, raises, or never returns. */
  datatype CallEnd<V> = Returns(values: seq<V>) | Raises(exc: Exception) | NeverReturns

  /** A pool worker runs each job inside `except Exception`; an exception
      outside that hierarchy kills the worker instead of being stored as the
      job's result. */
  predicate EscapesPoolWorker(e: Exception) {
    e == KeyboardInterrupt || e == SystemExit || e == GeneratorExit
  }

  /** Creates a pool of `processCount` workers, submits one job per argument
      list, lets them finish in `order`, waits for all of them and collects
      their results in submission order.
      - `Pool` refuses a process count below one with ValueError before any
        job is submitted.
      - A job raising an exception that escapes its pool worker never sets
        its result. The pool keeps replacing workers while that result is
        pending, so the polling loop never sees a single active child and the
        call never returns. */
  function MultiprocessWithMessaging<A, V>(processCount: int, job: A -> JobOutcome<V>, argsList: seq<A>, order: seq<nat>)
    : (r: CallEnd<V>)
    requires IsCompletionOrder(order, |argsList|)
    ensures processCount < 1 ==> r == Raises(ValueError)
    ensures processCount >= 1 ==>
              (r.NeverReturns? <==> exists i :: 0 <= i < |argsList| && job(argsList[i]).Failure?
                                                 && EscapesPoolWorker(job(argsList[i]).error))
    ensures r.Returns? <==>
              processCount >= 1 && forall i :: 0 <= i < |argsList| ==> job(argsList[i]).Success?
    ensures r.Returns? ==> |r.values| == |argsList|
    ensures r.Returns? ==> forall i :: 0 <= i < |argsList| ==> job(argsList[i]) == Success(r.values[i])
    ensures processCount >= 1 && r.Raises? ==>
              exists i :: 0 <= i < |argsList| && job(argsList[i]) == Failure(r.exc)
                          && forall j :: 0 <= j < i ==> job(argsList[j]).Success?
  {
    var n := |argsList|;
    if processCount < 1 then Raises(ValueError)
    else if exists i :: 0 <= i < n && job(argsList[i]).Failure? && EscapesPoolWorker(job(argsList[i]).error) then
      NeverReturns
    else
      var outcomes := seq(n, i requires 0 <= i < n => job(argsList[i]));
      var slots := Complete(seq(n, _ => Pending), order, outcomes);
      var collected := seq(n, i requires 0 <= i < n => slots[i].outcome);
      assert forall i :: 0 <= i < n ==> collected[i] == job(argsList[i]);
      match Collect(collected)
      case Success(vs) => Returns(vs)
      case Failure(e) => Raises(e)
  }

  /** The collected results do not depend on the order the jobs finish in. */
  lemma CompletionOrderIrrelevant<A, V>(processCount: int, job: A -> JobOutcome<V>, argsList: seq<A>, o1: seq<nat>, o2: seq<nat>)
    requires IsCompletionOrder(o1, |argsList|) && IsCompletionOrder(o2, |argsList|)
    ensures MultiprocessWithMessaging(processCount, job, argsList, o1)
         == MultiprocessWithMessaging(processCount, job, argsList, o2)
  {
    var r1 := MultiprocessWithMessaging(processCount, job, argsList, o1);
    var r2 := MultiprocessWithMessaging(processCount, job, argsList, o2);
    if processCount < 1 || r1.NeverReturns? {
    } else if r1.Returns? {
      assert r1.values == r2.values;
    } else {
      var i1 :| 0 <= i1 < |argsList| && job(argsList[i1]) == Failure(r1.exc)
                && forall j :: 0 <= j < i1 ==> job(argsList[j]).Success?;
      var i2 :| 0 <= i2 < |argsList| && job(argsList[i2]) == Failure(r2.exc)
                && forall j :: 0 <= j < i2 ==> job(argsList[j]).Success?;
      assert i1 == i2;
    }
  }

  /** A job that calls `sys.exit` inside the pool makes the whole call hang. */
  lemma ExitingJobHangs(processCount: int, args: seq<int>, order: seq<nat>)
    requires processCount >= 1 && |args| > 0 && IsCompletionOrder(order, |args|)
    ensures MultiprocessWithMessaging<int, int>(processCount, (a: int) => Failure(SystemExit), args, order) == NeverReturns
  {
    var job: int -> JobOutcome<int> := (a: int) => Failure(SystemExit);
    assert job(args[0]).Failure? && EscapesPoolWorker(job(args[0]).error);
  }
}
