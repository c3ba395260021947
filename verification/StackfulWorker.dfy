/** One stackful worker's cells, updated in place (src/resumable/common/worker.rs and
    src/resumable/stackful/worker.rs): suspending, suspending on a condition, exiting, and the
    scheduler loop's dispatch, each as one call.  How the steps of several workers interleave is
    in `Switching`.  A saved context is an object, new at every save, so that no two are the same;
    `entered` is the one the worker's last switch went to. */
module StackfulWorker {

  class Context { }

  class Task {
    const isRoot: bool
    var ctx: Context?

    constructor (isRoot: bool, ctx: Context?)
      ensures this.isRoot == isRoot && this.ctx == ctx
    {
      this.isRoot, this.ctx := isRoot, ctx;
    }
  }

  /** What the dispatch policy came up with for a suspending task: the newest task of the own
      queue, a task stolen or taken from the external queue, or nothing. */
  datatype Pick = Local | Elsewhere(t: Task) | Nothing

  function Taken(p: Pick): set<Task> {
    if p.Elsewhere? then {p.t} else {}
  }

  class UltWorker {
    const rootTask: Task
    var curTask: Task?
    var rootCont: Task?
    var queue: seq<Task>
    var entered: Context?

    /** The worker is inside the code of `curTask`. */
    ghost predicate Valid()
      reads this, rootTask, curTask, queue
    {
      && curTask != null && curTask.ctx == null
      && rootTask.isRoot && (curTask.isRoot ==> curTask == rootTask)
      && (if curTask == rootTask then rootCont == null else rootCont == rootTask && rootTask.ctx != null)
      && (forall i :: 0 <= i < |queue| ==> queue[i].ctx != null && !queue[i].isRoot && queue[i] != curTask)
      && (forall i, j :: 0 <= i < j < |queue| ==> queue[i] != queue[j])
    }

    constructor ()
      ensures Valid() && fresh(rootTask) && curTask == rootTask && queue == []
    {
      rootTask := new Task(true, null);
      curTask, rootCont, queue, entered := rootTask, null, [], null;
    }

    /** What the dispatch policy can find: the own queue's end only when there is one; any other
        source yields a suspended task this worker does not hold. */
    ghost predicate CanPick(p: Pick)
      requires Valid()
      reads this, rootTask, curTask, queue, Taken(p)
    {
      match p
      case Local => queue != []
      case Elsewhere(t) => t.ctx != null && !t.isRoot && t !in queue && t != curTask
      case Nothing => true
    }

    /** The task a suspending task switches to. */
    ghost function Next(p: Pick): Task
      requires p.Local? ==> queue != []
      reads this
    {
      match p
      case Local => queue[|queue| - 1]
      case Elsewhere(t) => t
      case Nothing => rootTask
    }

    ghost function QueueLeft(p: Pick): seq<Task>
      requires p.Local? ==> queue != []
      reads this
    {
      if p.Local? then queue[..|queue| - 1] else queue
    }

    /** `next_or_root` with the pick `p`: it never panics, since the root continuation is there. */
    method NextOrRoot(p: Pick) returns (next: Task)
      requires Valid() && curTask != rootTask && CanPick(p)
      modifies this`queue, this`rootCont
      ensures next == old(Next(p)) && next.ctx != null && next != curTask
      ensures queue == old(QueueLeft(p)) && next !in queue
      ensures rootCont == if next.isRoot then null else rootTask
      ensures next.isRoot <==> next == rootTask
    {
      match p
      case Local =>
        next := queue[|queue| - 1];
        queue := queue[..|queue| - 1];
      case Elsewhere(t) =>
        next := t;
      case Nothing =>
        next := rootTask;
        rootCont := null;
    }

    /** `suspend_to_sched`: afterwards the picked task runs and the old one, its context saved, has
        been handed to the callback, here returned. */
    method SuspendToSched(p: Pick) returns (prev: Task)
      requires Valid() && curTask != rootTask && CanPick(p)
      modifies this, curTask, Next(p)
      ensures Valid() && prev == old(curTask) && curTask == old(Next(p)) && queue == old(QueueLeft(p))
      ensures prev.ctx != null && fresh(prev.ctx) && prev !in queue && prev != curTask && !prev.isRoot
      ensures entered == old(Next(p).ctx)
    {
      var next := NextOrRoot(p);
      assert next.ctx != null;        // no double resume
      entered := next.ctx;
      next.ctx := null;
      prev := curTask;
      assert prev.ctx == null;        // no suspend over a live context
      prev.ctx := new Context;
      curTask := next;
    }

    /** `yield_now`, up to the order of the queue it defers to. */
    method YieldNow(p: Pick)
      requires Valid() && curTask != rootTask && CanPick(p)
      modifies this, curTask, Next(p)
      ensures Valid() && curTask == old(Next(p)) && queue == [old(curTask)] + old(QueueLeft(p))
      ensures queue[0].ctx != null && fresh(queue[0].ctx) && entered == old(Next(p).ctx)
    {
      var prev := SuspendToSched(p);
      queue := [prev] + queue;
    }

    /** `cond_suspend_to_sched`: with the callback committing, as `SuspendToSched`; with it
        cancelling, the same task runs, it and the task picked have the contexts they had, and
        the task picked is in the root slot if it came from there and else on top of the own
        queue, wherever it came from. */
    method CondSuspendToSched(p: Pick, commit: bool) returns (prev: Task?)
      requires Valid() && curTask != rootTask && CanPick(p)
      modifies this, curTask, Next(p)
      ensures Valid()
      ensures commit ==> prev == old(curTask) && prev.ctx != null && fresh(prev.ctx) && prev !in queue && prev != curTask
                         && curTask == old(Next(p)) && queue == old(QueueLeft(p)) && entered == old(Next(p).ctx)
      ensures !commit ==> prev == null && curTask == old(curTask) && rootCont == old(rootCont) && entered == old(entered)
                          && queue == old(queue) + (if p.Elsewhere? then [p.t] else [])
                          && old(Next(p)).ctx == old(Next(p).ctx)
    {
      var next := NextOrRoot(p);
      var me := curTask;
      me.ctx := new Context;          // publish; the context of `next` is only looked at
      curTask := next;
      if commit {
        entered := next.ctx;
        curTask.ctx := null;
        return me;
      }
      me.ctx := null;
      curTask := me;
      if next.isRoot {
        assert rootCont == null;      // no overwriting of a live root continuation
        rootCont := next;
      } else {
        queue := queue + [next];
      }
      prev := null;
    }

    /** `exit_to_sched`: the old task is gone from the worker. */
    method ExitToSched(p: Pick)
      requires Valid() && curTask != rootTask && CanPick(p)
      modifies this, Next(p)
      ensures Valid() && curTask == old(Next(p)) && queue == old(QueueLeft(p)) && old(curTask) !in queue && curTask != old(curTask)
      ensures entered == old(Next(p).ctx)
    {
      var next := NextOrRoot(p);
      entered := next.ctx;
      next.ctx := null;
      curTask := next;
    }

    /** `run_on`: the scheduler loop switches to a task and keeps its own context as the root
        continuation. */
    method RunOn(t: Task)
      requires Valid() && curTask == rootTask && t.ctx != null && !t.isRoot && t !in queue
      modifies this, rootTask, t
      ensures Valid() && curTask == t && queue == old(queue)
      ensures entered == old(t.ctx) && fresh(rootTask.ctx)
    {
      entered := t.ctx;
      t.ctx := null;
      rootTask.ctx := new Context;
      curTask := t;
      assert rootCont == null;
      rootCont := rootTask;
    }
  }
}
