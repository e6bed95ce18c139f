/**
 * Components.TaskStack: the per-session LIFO stack of named cleanup tasks
 * (an ArrayDeque used with push/pop), drained by execute().
 */
module TaskStacks {
  import opened JavaLang

  /**
   * What a task's runnable does. The registry's own unregister task never throws;
   * every other runnable is a call into an external service (release a gateway
   * session, delete a blob, ...) that either completes or throws.
   */
  datatype Action = UnregisterSession(sessionId: string) | External(throws: bool)

  datatype Task = Task(name: string, action: Action)

  /** Task.run: runs the runnable and reports false exactly when it threw. */
  predicate Run(t: Task): (r: bool)
    ensures !r <==> t.action.External? && t.action.throws
  {
    match t.action
    case UnregisterSession(_) => true
    case External(throws) => !throws
  }

  predicate AllSucceed(ts: seq<Task>) {
    forall k :: 0 <= k < |ts| ==> Run(ts[k])
  }

  lemma AllSucceedAppend(ts: seq<Task>, t: Task)
    ensures AllSucceed(ts + [t]) == (AllSucceed(ts) && Run(t))
  {
    assert (ts + [t])[|ts|] == t;
    assert forall k :: 0 <= k < |ts| ==> (ts + [t])[k] == ts[k];
  }

  /** The deque after pushing ts[0], ts[1], ... in turn onto `stack` (head first). */
  function PushAll(stack: seq<Task>, ts: seq<Task>): seq<Task>
    decreases |ts|
  {
    if ts == [] then stack else PushAll([ts[0]] + stack, ts[1..])
  }

  function Reverse(ts: seq<Task>): (r: seq<Task>)
    ensures |r| == |ts|
  {
    if ts == [] then [] else Reverse(ts[1..]) + [ts[0]]
  }

  /** Pushing a sequence of tasks leaves them on the stack in reverse order, above what was there. */
  lemma {:induction false} PushAllReverses(stack: seq<Task>, ts: seq<Task>)
    ensures PushAll(stack, ts) == Reverse(ts) + stack
    decreases |ts|
  {
    if ts != [] {
      PushAllReverses([ts[0]] + stack, ts[1..]);
      assert Reverse(ts) + stack == Reverse(ts[1..]) + ([ts[0]] + stack);
    }
  }

  class TaskStack {
    /** The deque's contents, head (the most recently pushed task) first. */
    var tasks: seq<Task>

    constructor ()
      ensures tasks == []
    {
      tasks := [];
    }

    predicate IsEmpty()
      reads this
    {
      tasks == []
    }

    method Push(t: Task)
      modifies this
      ensures tasks == [t] + old(tasks)
    {
      tasks := [t] + tasks;
    }

    /** ArrayDeque.pop: removes the head; on an empty deque it throws (None here). */
    method Pop() returns (t: Option<Task>)
      modifies this
      ensures old(tasks) == [] ==> t == None && tasks == []
      ensures old(tasks) != [] ==> t == Some(old(tasks)[0]) && tasks == old(tasks)[1..]
    {
      if tasks == [] {
        t := None;
      } else {
        t := Some(tasks[0]);
        tasks := tasks[1..];
      }
    }

    /**
     * execute(), with the short-circuit defect corrected (see ExecuteAsWritten below):
     * every task is popped and run, most recently pushed first, the stack ends empty,
     * and the result is true exactly when no task threw. `ran` lists every task in the
     * order they ran.
     */
    method Execute() returns (ok: bool, ran: seq<Task>)
      modifies this
      ensures tasks == []
      ensures ran == old(tasks)
      ensures ok == AllSucceed(old(tasks))
    {
      ok := true;
      ran := [];
      while !IsEmpty()
        invariant old(tasks) == ran + tasks
        invariant ok == AllSucceed(ran)
        decreases |tasks|
      {
        var t := Pop();
        var succeeded := Run(t.value);
        ok := succeeded && ok;
        AllSucceedAppend(ran, t.value);
        ran := ran + [t.value];
      }
    }
  }

  /*
   * execute() as written: `result = result && this.pop().run()`. Java's && does not
   * evaluate its right operand when `result` is already false, so after the first
   * failing task nothing is popped any more and `while (!this.isEmpty())` never exits.
   */

  datatype DrainState = DrainState(result: bool, tasks: seq<Task>, ran: seq<Task>)

  /** One iteration of the loop body as written. */
  function StepAsWritten(s: DrainState): (r: DrainState)
    requires s.tasks != []
    ensures s.result ==> r.tasks == s.tasks[1..] && r.ran == s.ran + [s.tasks[0]] && r.result == Run(s.tasks[0])
    ensures !s.result ==> r == s
  {
    if s.result then DrainState(Run(s.tasks[0]), s.tasks[1..], s.ran + [s.tasks[0]]) else s
  }

  /** The loop as written, cut off after `fuel` iterations. */
  function ExecuteAsWritten(s: DrainState, fuel: nat): (r: DrainState)
    ensures r.ran + r.tasks == s.ran + s.tasks
    ensures r.result ==> s.result
    ensures |r.tasks| <= |s.tasks|
    decreases fuel
  {
    if fuel == 0 || s.tasks == [] then s else ExecuteAsWritten(StepAsWritten(s), fuel - 1)
  }

  /** Once a task has failed and tasks remain, no number of iterations changes the state. */
  lemma {:induction false} AsWrittenSpinsAfterFailure(s: DrainState, fuel: nat)
    requires !s.result && s.tasks != []
    ensures ExecuteAsWritten(s, fuel) == s
  {
    if fuel > 0 {
      AsWrittenSpinsAfterFailure(s, fuel - 1);
    }
  }

  /**
   * Counterexample: push a task that succeeds, then one that throws. The thrower runs
   * first, fails, and the remaining task keeps the loop running forever.
   */
  lemma ExecuteAsWrittenNeverDrains(fuel: nat)
    ensures
      var first := Task("release-session/a", External(false));
      var second := Task("delete-blob/b", External(true));
      var start := DrainState(true, PushAll([], [first, second]), []);
      && ExecuteAsWritten(start, fuel).tasks != []
      && (fuel >= 1 ==> ExecuteAsWritten(start, fuel) == DrainState(false, [first], [second]))
  {
    var first := Task("release-session/a", External(false));
    var second := Task("delete-blob/b", External(true));
    var start := DrainState(true, PushAll([], [first, second]), []);
    assert start.tasks == [second, first] by {
      PushAllReverses([], [first, second]);
      assert [first, second][1..] == [second];
      assert Reverse([second]) == [second];
    }
    var stuck := DrainState(false, [first], [second]);
    assert StepAsWritten(start) == stuck;
    if fuel > 0 {
      AsWrittenSpinsAfterFailure(stuck, fuel - 1);
    }
  }

  /** When every task succeeds, the loop as written and the corrected Execute agree. */
  lemma {:induction false} AsWrittenAgreesWhenAllSucceed(ts: seq<Task>, ran: seq<Task>)
    requires AllSucceed(ts)
    ensures ExecuteAsWritten(DrainState(true, ts, ran), |ts|) == DrainState(true, [], ran + ts)
  {
    if ts != [] {
      assert Run(ts[0]);
      assert AllSucceed(ts[1..]) by {
        forall k | 0 <= k < |ts[1..]| ensures Run(ts[1..][k]) {
          assert ts[1..][k] == ts[k + 1];
        }
      }
      AsWrittenAgreesWhenAllSucceed(ts[1..], ran + [ts[0]]);
      assert ran + [ts[0]] + ts[1..] == ran + ts;
    }
  }
}
