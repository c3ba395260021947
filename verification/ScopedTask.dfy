/** A branch of a scoped `parallel_call` as the object it is (src/scoped/task.rs): the closure is
    taken out of its cell once, by the caller that popped the branch back or by whoever executes
    it, and the latch is set after the result was stored. */
module ScopedTask {
  import opened Basics
  import opened ForkJoin

  class StackTask {
    var func: Option<Closure>
    var result: Option<int>
    var latch: bool
    /** The closure this task was made from, and how often it was run. */
    ghost const body: Closure
    ghost var runs: nat

    ghost predicate Valid()
      reads this
    {
      && (func == if runs == 0 then Some(body) else None)
      && runs <= 1
      && (result.Some? ==> latch && result.value == Eval(body))
      && (latch ==> runs == 1)
    }

    constructor (f: Closure)
      ensures Valid() && body == f && runs == 0 && !latch && result == None
    {
      func, result, latch := Some(f), None, false;
      body, runs := f, 0;
    }

    /** `execute_trampoline`; `false` is its "executed twice" panic, which happens exactly if the
        closure was taken before. */
    method Execute() returns (ok: bool)
      requires Valid()
      modifies this
      ensures Valid() && ok == (old(runs) == 0)
      ensures ok ==> runs == 1 && latch && result == Some(Eval(body))
      ensures !ok ==> func == old(func) && result == old(result) && latch == old(latch) && runs == old(runs)
    {
      var f := func;
      func := None;
      if f.None? {
        return false;
      }
      runs := runs + 1;
      var r := Eval(f.value);
      result := Some(r);
      latch := true;
      ok := true;
    }

    /** `run_inline`: no latch involved; `None` is its "run twice" panic. */
    method RunInline() returns (r: Option<int>)
      requires Valid()
      modifies this
      ensures Valid() && latch == old(latch) && result == old(result)
      ensures r == if old(runs) == 0 then Some(Eval(body)) else None
      ensures runs == 1
    {
      var f := func;
      func := None;
      if f.None? {
        return None;
      }
      runs := runs + 1;
      r := Some(Eval(f.value));
    }

    /** `take_result`; `None` is its "latch set without a result" panic. */
    method TakeResult() returns (r: Option<int>)
      requires Valid()
      modifies this`result
      ensures Valid() && r == old(result) && result == None
      ensures r.Some? ==> latch && r.value == Eval(body)
    {
      r := result;
      result := None;
    }
  }

  /** The two ways a branch can go: popped back, or stolen, executed and collected after its latch
      was seen.  Either way it runs once and gives its sequential result. */
  method RunBranch(b: Closure, stolen: bool) returns (rb: int)
    ensures rb == Eval(b)
  {
    var task := new StackTask(b);
    var r: Option<int>;
    if stolen {
      var ok := task.Execute();
      assert ok && task.latch;
      r := task.TakeResult();
    } else {
      r := task.RunInline();
    }
    rb := r.value;
  }

  /** `parallel_call` of a whole program, given for every call whether its branch gets stolen. */
  method RunProgram(c: Closure, stolen: seq<int> -> bool) returns (v: int)
    ensures v == Eval(c)
    decreases c.p
  {
    match c.p
    case Give(f) => v := f(c.env);
    case Test(t, yes, no) =>
      if t(c.env) {
        v := RunProgram(Closure(yes, c.env), stolen);
      } else {
        v := RunProgram(Closure(no, c.env), stolen);
      }
    case Par(a, b, rest) =>
      var ra := RunProgram(Closure(a, c.env), stolen);
      var rb := RunBranch(Closure(b, c.env), stolen(c.env));
      v := RunProgram(Closure(rest, c.env + [ra, rb]), stolen);
  }
}
