/** `RequestQueue` of src/lib/langchain/creativeAgent.ts: a FIFO of pending tasks
    with an `isProcessing` flag, drained one task at a time. */
module Queue {
  import opened Js

  /** How a caller's promise settled: with its task's value, or with its task's error. */
  datatype Settlement<T> = Resolved(task: nat, value: T) | Rejected(task: nat, error: string)

  /** The wrapper pushed by `enqueue` runs `fn` and settles the caller's promise
      with whatever `fn` produced; it never throws. */
  function Settle<T>(run: nat -> Outcome<T>, task: nat): (s: Settlement<T>)
    ensures s.task == task
    ensures s.Resolved? <==> run(task).Ok?
    ensures s.Resolved? ==> s.value == run(task).value
    ensures s.Rejected? ==> s.error == run(task).message
  {
    match run(task)
    case Ok(v) => Resolved(task, v)
    case Fail(e) => Rejected(task, e)
  }

  /** The settlements a drain of `pending` produces, in order. */
  function Drain<T>(run: nat -> Outcome<T>, pending: seq<nat>): (r: seq<Settlement<T>>)
  {
    if pending == [] then [] else [Settle(run, pending[0])] + Drain(run, pending[1..])
  }

  /** A drain runs each pending task once, in push order, and each promise settles only
      from its own task's outcome: a failure rejects that task's promise and no other. */
  lemma {:induction false} DrainRunsEachOnceInOrder<T>(run: nat -> Outcome<T>, pending: seq<nat>)
    ensures |Drain(run, pending)| == |pending|
    ensures forall i :: 0 <= i < |pending| ==> Drain(run, pending)[i] == Settle(run, pending[i])
  {
    if pending != [] {
      DrainRunsEachOnceInOrder(run, pending[1..]);
    }
  }

  lemma {:induction false} DrainAppend<T>(run: nat -> Outcome<T>, a: seq<nat>, b: seq<nat>)
    ensures Drain(run, a + b) == Drain(run, a) + Drain(run, b)
  {
    if a != [] {
      assert (a + b)[0] == a[0] && (a + b)[1..] == a[1..] + b;
      DrainAppend(run, a[1..], b);
      assert Drain(run, a + b) == [Settle(run, a[0])] + Drain(run, a[1..] + b);
    } else {
      assert a + b == b;
    }
  }

  class RequestQueue<T> {
    /** The pushed tasks not yet run, oldest first. */
    var queue: seq<nat>
    var isProcessing: bool
    /** Every promise settled so far, in the order the tasks ran. */
    var settled: seq<Settlement<T>>
    /** What each task's `fn` yields. */
    const run: nat -> Outcome<T>

    /** At rest, tasks wait only while a drain is in progress. */
    ghost predicate Valid()
      reads this
    {
      !isProcessing ==> queue == []
    }

    constructor (run: nat -> Outcome<T>)
      ensures Valid()
      ensures queue == [] && !isProcessing && settled == [] && this.run == run
    {
      queue := [];
      isProcessing := false;
      settled := [];
      this.run := run;
    }

    /** `process()`: a no-op while a drain is already in progress or when nothing waits;
        otherwise runs every waiting task to completion, oldest first, and clears the flag. */
    method Process()
      modifies this
      ensures old(isProcessing) || old(queue) == [] ==>
        queue == old(queue) && isProcessing == old(isProcessing) && settled == old(settled)
      ensures !old(isProcessing) && old(queue) != [] ==>
        queue == [] && !isProcessing && settled == old(settled) + Drain(run, old(queue))
    {
      if isProcessing || |queue| == 0 {
        return;
      }
      isProcessing := true;
      while |queue| > 0
        invariant isProcessing
        invariant settled + Drain(run, queue) == old(settled) + Drain(run, old(queue))
        decreases |queue|
      {
        var task := queue[0];
        queue := queue[1..];
        settled := settled + [Settle(run, task)];
      }
      isProcessing := false;
    }

    /** `enqueue(fn)`: pushes the task and calls `process()`. On an idle queue the task
        runs at once and its own settlement is returned; while another drain is in
        progress the task only waits at the back (`None`: its promise is still pending). */
    method Enqueue(task: nat) returns (mine: Option<Settlement<T>>)
      requires Valid()
      modifies this
      ensures Valid()
      ensures old(isProcessing) ==>
        queue == old(queue) + [task] && isProcessing && settled == old(settled) && mine == None
      ensures !old(isProcessing) ==>
        queue == [] && !isProcessing && settled == old(settled) + [Settle(run, task)]
        && mine == Some(Settle(run, task))
    {
      var busy := isProcessing;
      queue := queue + [task];
      Process();
      if busy {
        mine := None;
      } else {
        mine := Some(Settle(run, task));
      }
    }
  }

  /** Callers that enqueue one after another on an idle queue: their promises settle in
      push order, each from its own task's outcome, and a failing task does not stop the
      ones after it. */
  method SequentialCallers<T>(q: RequestQueue<T>, tasks: seq<nat>)
    requires q.Valid() && !q.isProcessing
    modifies q
    ensures q.Valid() && !q.isProcessing && q.queue == []
    ensures q.settled == old(q.settled) + Drain(q.run, tasks)
  {
    var i := 0;
    while i < |tasks|
      invariant 0 <= i <= |tasks|
      invariant q.Valid() && !q.isProcessing
      invariant q.settled == old(q.settled) + Drain(q.run, tasks[..i])
    {
      var _ := q.Enqueue(tasks[i]);
      DrainAppend(q.run, tasks[..i], [tasks[i]]);
      assert tasks[..i + 1] == tasks[..i] + [tasks[i]];
      i := i + 1;
    }
    assert tasks[..i] == tasks;
  }
}
