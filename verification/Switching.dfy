/** Stackful workers (src/resumable/stackful/worker.rs, src/resumable/common/worker.rs): the
    current task, the root continuation and the saved contexts, through suspension, conditional
    suspension with cancel, exit, child-first fork and the scheduler loop's dispatch.

    Task `w`, for `w` below the number of workers, is the scheduler loop of worker `w`.  Every
    other place that holds suspended tasks (run queues, wait lists, join words) is one pool,
    from which any worker may take any task at any time.  A worker's switch is several steps,
    so that others may pick up a published task before the switch is over.  A context is an
    abstract token, never issued twice. */
module Switching {
  import opened Basics
  import opened Folds

  /** `ctx` is the saved context.  `first` is the context the task was created with; `started`,
      `inlined` and `live` are history: switched to, popped back and called as a function, not
      yet exited. */
  datatype Task = Task(ctx: Option<nat>, first: nat, started: bool, inlined: bool, live: bool)

  /** What a switch is for: suspending, leaving the scheduler loop for a task, suspending on a
      condition, exiting. */
  datatype Goal = Suspend | Dispatch | Conditional | Exit

  /** Where a worker stands in a switch. */
  datatype Op =
    | Run                            // in the code of the current task
    | Pick(next: nat, goal: Goal)    // holds the task to switch to
    | Claimed(next: nat, goal: Goal) // took that task's context
    | Landed(prev: nat, goal: Goal)  // switched: the callback is about to publish `prev`
    | Trial(prev: nat)               // switched on trial: the callback is about to decide
    | Commit                         // `prev` is handed over: about to clear the context switched to
    | Cancel(prev: nat)              // `prev` is still here: about to switch back
    | PutBack(next: nat)             // switched back: about to return the task not switched to

  datatype Worker = Worker(cur: Option<nat>, root: Option<nat>, op: Op)

  datatype State = State(tasks: seq<Task>, ws: seq<Worker>, pool: multiset<nat>, nextCtx: nat)

  ghost predicate Init(s: State) {
    && |s.tasks| == |s.ws| && s.pool == multiset{}
    && (forall w :: 0 <= w < |s.ws| ==> s.ws[w] == Worker(Some(w), None, Run))
    && (forall t :: 0 <= t < |s.tasks| ==> s.tasks[t].ctx == None && s.tasks[t].live && s.tasks[t].started && !s.tasks[t].inlined
                                           && s.tasks[t].first < s.nextCtx)
  }

  predicate IsRoot(s: State, t: nat) { t < |s.ws| }

  // ---------------------------------------------------------------------------
  // Steps
  // ---------------------------------------------------------------------------

  datatype Action =
    | Create                                          // a task with a prepared context is queued
    | Fork(w: nat)                                    // child-first spawn: switch to a fresh stack
    | Inline(w: nat, t: nat)                          // `parallel_call` pops its branch back and calls it
    | Begin(w: nat, goal: Goal, pick: Option<nat>)    // choose what to switch to
    | Move(w: nat, commit: bool)                      // the worker's next step of its switch

  /** The guards say what the code checks by itself, and what the scheduler loop and the tasks
      call; that every slot is full or empty as needed is proved, not assumed. */
  predicate Enabled(s: State, a: Action) {
    match a
    case Create => true
    case Fork(w) => w < |s.ws| && s.ws[w].op == Run && InTask(s, w)
    case Inline(w, t) =>
      && w < |s.ws| && s.ws[w].op == Run && InTask(s, w) && t in s.pool && t < |s.tasks|
      && s.tasks[t].ctx == Some(s.tasks[t].first)
    case Begin(w, goal, pick) =>
      && w < |s.ws| && s.ws[w].op == Run && (InTask(s, w) <==> goal != Dispatch)
      && (pick.Some? ==> pick.value in s.pool)
      && (pick.None? ==> InTask(s, w) && s.ws[w].root.Some?)
    case Move(w, _) => w < |s.ws| && s.ws[w].op != Run && KnownOp(s, s.ws[w])
  }

  /** The worker runs a task rather than its scheduler loop. */
  predicate InTask(s: State, w: nat)
    requires w < |s.ws|
  {
    s.ws[w].cur.Some? && !IsRoot(s, s.ws[w].cur.value) && s.ws[w].cur.value < |s.tasks|
  }

  predicate KnownOp(s: State, k: Worker) {
    && k.cur.Some? && k.cur.value < |s.tasks|
    && match k.op {
         case Pick(next, _) => next < |s.tasks|
         case Claimed(next, _) => next < |s.tasks|
         case Landed(prev, _) => prev < |s.tasks|
         case Trial(prev) => prev < |s.tasks|
         case Cancel(prev) => prev < |s.tasks|
         case PutBack(next) => next < |s.tasks|
         case _ => true
       }
  }

  function SetCtx(s: State, t: nat, c: Option<nat>): State
    requires t < |s.tasks|
  {
    s.(tasks := s.tasks[t := s.tasks[t].(ctx := c, started := s.tasks[t].started || c == None)])
  }

  /** `publish_saved_context` with the context just saved. */
  function Publish(s: State, t: nat): State
    requires t < |s.tasks|
  {
    SetCtx(s, t, Some(s.nextCtx)).(nextCtx := s.nextCtx + 1)
  }

  function SetWorker(s: State, w: nat, k: Worker): State
    requires w < |s.ws|
  {
    s.(ws := s.ws[w := k])
  }

  function NewTask(s: State, started: bool): Task {
    Task(if started then None else Some(s.nextCtx), s.nextCtx, started, false, true)
  }

  function Apply(s: State, a: Action): State
    requires Enabled(s, a)
  {
    match a
    case Create =>
      s.(tasks := s.tasks + [NewTask(s, false)], pool := s.pool + multiset{|s.tasks|}, nextCtx := s.nextCtx + 1)
    case Fork(w) =>
      var c := s.ws[w].cur.value;
      var s1 := Publish(s, c);
      var s2 := s1.(tasks := s1.tasks + [NewTask(s1, true)], nextCtx := s1.nextCtx + 1);
      SetWorker(s2, w, s.ws[w].(cur := Some(|s.tasks|), op := Landed(c, Suspend)))
    case Inline(w, t) =>
      s.(tasks := s.tasks[t := s.tasks[t].(live := false, inlined := true)], pool := s.pool - multiset{t})
    case Begin(w, goal, pick) =>
      var k := s.ws[w];
      if pick.Some? then SetWorker(s, w, k.(op := Pick(pick.value, goal))).(pool := s.pool - multiset{pick.value})
      else SetWorker(s, w, k.(root := None, op := Pick(k.root.value, goal)))
    case Move(w, commit) => StepMove(s, w, commit)
  }

  function StepMove(s: State, w: nat, commit: bool): State
    requires w < |s.ws| && KnownOp(s, s.ws[w])
  {
    var k := s.ws[w];
    var c := k.cur.value;
    match k.op
    case Run => s
    case Pick(next, goal) =>
      if goal == Conditional then
        // The context is only looked at; the switch is provisional.
        SetWorker(Publish(s, c), w, k.(cur := Some(next), op := Trial(c)))
      else
        SetWorker(SetCtx(s, next, None), w, k.(op := Claimed(next, goal)))
    case Claimed(next, goal) =>
      if goal == Exit then
        var s1 := s.(tasks := s.tasks[c := s.tasks[c].(live := false)]);
        SetWorker(s1, w, k.(cur := Some(next), op := Run))
      else
        SetWorker(Publish(s, c), w, k.(cur := Some(next), op := Landed(c, goal)))
    case Landed(prev, goal) =>
      if goal == Dispatch then SetWorker(s, w, k.(root := Some(prev), op := Run))
      else SetWorker(s, w, k.(op := Run)).(pool := s.pool + multiset{prev})
    case Trial(prev) =>
      if commit then SetWorker(s, w, k.(op := Commit)).(pool := s.pool + multiset{prev})
      else SetWorker(s, w, k.(op := Cancel(prev)))
    case Commit => SetWorker(SetCtx(s, c, None), w, k.(op := Run))
    case Cancel(prev) => SetWorker(SetCtx(s, prev, None), w, k.(cur := Some(prev), op := PutBack(c)))
    case PutBack(next) =>
      if IsRoot(s, next) then SetWorker(s, w, k.(root := Some(next), op := Run))
      else SetWorker(s, w, k.(op := Run)).(pool := s.pool + multiset{next})
  }

  // ---------------------------------------------------------------------------
  // Inductive invariant
  // ---------------------------------------------------------------------------

  function Slot(t: Option<nat>): multiset<nat> { if t.Some? then multiset{t.value} else multiset{} }

  function OpHeld(op: Op): multiset<nat> {
    match op
    case Run => multiset{}
    case Pick(next, _) => multiset{next}
    case Claimed(next, _) => multiset{next}
    case Landed(prev, _) => multiset{prev}
    case Trial(prev) => multiset{prev}
    case Commit => multiset{}
    case Cancel(prev) => multiset{prev}
    case PutBack(next) => multiset{next}
  }

  /** The tasks a worker owns: the current one, the root continuation, and the one in its hand. */
  function Held(k: Worker): multiset<nat> { Slot(k.cur) + Slot(k.root) + OpHeld(k.op) }

  /** How often worker `k` holds task `t`. */
  function Has(k: Worker, t: nat): nat { One(k.cur == Some(t)) + One(k.root == Some(t)) + One(OpHas(k.op, t)) }

  predicate OpHas(op: Op, t: nat) {
    match op
    case Run => false
    case Pick(next, _) => next == t
    case Claimed(next, _) => next == t
    case Landed(prev, _) => prev == t
    case Trial(prev) => prev == t
    case Commit => false
    case Cancel(prev) => prev == t
    case PutBack(next) => next == t
  }

  lemma HeldCount(k: Worker, t: nat)
    ensures Held(k)[t] == Has(k, t)
  {
    assert Slot(k.cur)[t] == One(k.cur == Some(t)) && Slot(k.root)[t] == One(k.root == Some(t));
    assert OpHeld(k.op)[t] == One(OpHas(k.op, t));
  }

  function Owned(s: State): multiset<nat> { s.pool + Bag(s.ws, Held) }

  /** Every live task has exactly one owner; an exited one has none. */
  ghost predicate OwnersOk(s: State) {
    && |s.ws| <= |s.tasks|
    && (forall t: nat :: t < |s.tasks| ==> Owned(s)[t] == One(s.tasks[t].live))
    && (forall t: nat :: t >= |s.tasks| ==> t !in Owned(s))
  }

  predicate Saved(tasks: seq<Task>, t: nat) { t < |tasks| && tasks[t].ctx.Some? }

  predicate Unsaved(tasks: seq<Task>, t: nat) { t < |tasks| && tasks[t].ctx.None? }

  /** A worker's slots are as full, and its tasks as saved, as its place in the switch says.
      `roots` is the number of workers. */
  predicate WorkerOk(tasks: seq<Task>, roots: nat, w: nat, k: Worker) {
    && k.cur.Some?
    && (k.root.Some? ==> k.root.value == w && Saved(tasks, w))
    && (k.cur.value < roots ==> k.cur.value == w)
    && (if k.op.Trial? || k.op.Commit? || k.op.Cancel? then Saved(tasks, k.cur.value) else Unsaved(tasks, k.cur.value))
    && match k.op {
         case Run => true
         case Pick(next, goal) =>
           Saved(tasks, next) && (next < roots ==> next == w) && (goal == Dispatch <==> k.cur.value < roots)
         case Claimed(next, goal) =>
           Unsaved(tasks, next) && goal != Conditional && (next < roots ==> next == w) && (goal == Dispatch <==> k.cur.value < roots)
         case Landed(prev, goal) =>
           Saved(tasks, prev) && (prev < roots ==> prev == w) && (goal == Dispatch <==> prev < roots)
         case Trial(prev) => Saved(tasks, prev) && prev >= roots
         case Commit => true
         case Cancel(prev) => Saved(tasks, prev) && prev >= roots
         case PutBack(next) => Saved(tasks, next) && (next < roots ==> next == w) && k.cur.value >= roots
       }
  }

  /** A task has its first context exactly until it is switched to, and no context is used
      twice. */
  predicate TaskOk(s: State, t: Task) {
    && t.first < s.nextCtx
    && (t.ctx.Some? ==> t.ctx.value < s.nextCtx)
    && (t.started ==> !t.inlined && t.ctx != Some(t.first))
    && (t.inlined ==> !t.live)
    && (!t.started ==> t.ctx == Some(t.first))
  }

  ghost predicate Inv(s: State) {
    && OwnersOk(s)
    && (forall w: nat :: w < |s.ws| ==> WorkerOk(s.tasks, |s.ws|, w, s.ws[w]))
    && (forall t: nat :: t in s.pool ==> Saved(s.tasks, t) && !IsRoot(s, t))
    && (forall t: nat :: t < |s.ws| ==> s.tasks[t].live)
    && (forall t: nat :: t < |s.tasks| ==> TaskOk(s, s.tasks[t]))
  }

  // ---------------------------------------------------------------------------
  // Ownership
  // ---------------------------------------------------------------------------

  /** What a worker holds, nobody else holds. */
  lemma HeldAlone(s: State, w: nat, t: nat)
    requires OwnersOk(s) && w < |s.ws| && t in Held(s.ws[w])
    ensures t < |s.tasks| && s.tasks[t].live && t !in s.pool && Held(s.ws[w])[t] == 1
    ensures forall v: nat :: v < |s.ws| && v != w ==> t !in Held(s.ws[v])
  {
    hide Held, Bag;
    BagAt(s.ws, w, Held, t);
    assert t in Owned(s);
    forall v: nat | v < |s.ws| && v != w ensures t !in Held(s.ws[v]) {
      if v < w { BagPair(s.ws, v, w, Held, t); } else { BagPair(s.ws, w, v, Held, t); }
    }
  }

  /** A live root is held by its own worker. */
  lemma RootHeld(s: State, w: nat)
    requires Inv(s) && w < |s.ws|
    ensures w in Held(s.ws[w])
  {
    hide Held, Bag;
    assert Owned(s)[w] == 1;
    assert w !in s.pool;
    var v := BagWitness(s.ws, Held, w);
    RootOwner(s, v, w);
  }

  lemma RootOwner(s: State, v: nat, t: nat)
    requires v < |s.ws| && WorkerOk(s.tasks, |s.ws|, v, s.ws[v]) && t in Held(s.ws[v]) && t < |s.ws|
    ensures v == t
  {
  }

  lemma WorkerStays(tasks: seq<Task>, tasks': seq<Task>, roots: nat, w: nat, k: Worker)
    requires WorkerOk(tasks, roots, w, k) && |tasks| <= |tasks'|
    requires forall t: nat :: t < |tasks| && Has(k, t) > 0 ==> tasks'[t].ctx == tasks[t].ctx
    ensures WorkerOk(tasks', roots, w, k)
  {
    assert forall t: nat :: t < |tasks| && k.cur == Some(t) ==> Has(k, t) > 0;
    assert forall t: nat :: t < |tasks| && k.root == Some(t) ==> Has(k, t) > 0;
    assert forall t: nat :: t < |tasks| && OpHas(k.op, t) ==> Has(k, t) > 0;
  }

  /** What a worker holds, nobody else holds. */
  lemma HasAlone(s: State, w: nat, t: nat)
    requires OwnersOk(s) && w < |s.ws| && Has(s.ws[w], t) > 0
    ensures t < |s.tasks| && s.tasks[t].live && s.pool[t] == 0 && Has(s.ws[w], t) == 1
    ensures forall v: nat :: v < |s.ws| && v != w ==> Has(s.ws[v], t) == 0
  {
    hide Held, Bag, Has;
    HeldCount(s.ws[w], t);
    HeldAlone(s, w, t);
    forall v: nat | v < |s.ws| && v != w ensures Has(s.ws[v], t) == 0 { HeldCount(s.ws[v], t); }
  }

  /** Task `t` keeps having one owner when worker `w` hands tasks to and from the pool. */
  ghost predicate CountKept(s: State, s': State, w: nat, t: nat)
    requires w < |s.ws| && w < |s'.ws|
  {
    s'.pool[t] + Has(s'.ws[w], t) + One(t < |s.tasks| && s.tasks[t].live)
    == s.pool[t] + Has(s.ws[w], t) + One(t < |s'.tasks| && s'.tasks[t].live)
  }

  /** The step touches task `t` only if worker `w` has it in its hands, and leaves it in order. */
  ghost predicate TaskKept(s: State, s': State, w: nat, t: nat)
    requires w < |s.ws| && t < |s'.tasks|
  {
    && TaskOk(s', s'.tasks[t])
    && (t < |s.tasks| && Has(s.ws[w], t) == 0 ==> s'.tasks[t].ctx == s.tasks[t].ctx)
    && (t < |s.ws| ==> s'.tasks[t].live)
  }

  /** A step of worker `w`. */
  lemma LocalStep(s: State, s': State, w: nat)
    requires Inv(s) && w < |s.ws| && |s'.ws| == |s.ws| && s'.ws == s.ws[w := s'.ws[w]]
    requires |s.tasks| <= |s'.tasks|
    requires forall t: nat :: CountKept(s, s', w, t)
    requires forall t: nat :: t < |s'.tasks| ==> TaskKept(s, s', w, t)
    requires WorkerOk(s'.tasks, |s.ws|, w, s'.ws[w])
    requires forall t: nat :: t in s'.pool && t !in s.pool ==> Saved(s'.tasks, t) && !IsRoot(s, t)
    ensures Inv(s')
  {
    hide Held, Has, Bag, WorkerOk, TaskOk;
    LocalOwners(s, s', w);
    forall v: nat | v < |s'.ws| ensures WorkerOk(s'.tasks, |s'.ws|, v, s'.ws[v]) {
      if v != w {
        forall t: nat | t < |s.tasks| && Has(s.ws[v], t) > 0 ensures s'.tasks[t].ctx == s.tasks[t].ctx {
          HasAlone(s, v, t);
          assert TaskKept(s, s', w, t);
        }
        WorkerStays(s.tasks, s'.tasks, |s.ws|, v, s.ws[v]);
      }
    }
    forall t: nat | t in s'.pool ensures Saved(s'.tasks, t) && !IsRoot(s', t) {
      if t in s.pool {
        PoolAlone(s, t);
        assert TaskKept(s, s', w, t);
      }
    }
    forall t: nat | t < |s'.tasks| ensures TaskOk(s', s'.tasks[t]) { assert TaskKept(s, s', w, t); }
    forall t: nat | t < |s'.ws| ensures s'.tasks[t].live { assert TaskKept(s, s', w, t); }
  }

  lemma LocalOwners(s: State, s': State, w: nat)
    requires OwnersOk(s) && w < |s.ws| && |s'.ws| == |s.ws| && s'.ws == s.ws[w := s'.ws[w]]
    requires |s.tasks| <= |s'.tasks|
    requires forall t: nat :: CountKept(s, s', w, t)
    ensures OwnersOk(s')
  {
    hide Held, Has, Bag;
    BagUpdate(s.ws, w, s'.ws[w], Held);
    forall t: nat ensures Owned(s')[t] == One(t < |s'.tasks| && s'.tasks[t].live) {
      Counts(Bag(s'.ws, Held), Bag(s.ws, Held), Held(s.ws[w]), Held(s'.ws[w]));
      HeldCount(s.ws[w], t);
      HeldCount(s'.ws[w], t);
      assert CountKept(s, s', w, t);
      assert Owned(s)[t] == One(t < |s.tasks| && s.tasks[t].live);
    }
  }

  lemma PoolAlone(s: State, t: nat)
    requires Inv(s) && t in s.pool
    ensures t < |s.tasks| && s.tasks[t].live && s.pool[t] == 1 && Saved(s.tasks, t) && !IsRoot(s, t)
    ensures forall w: nat :: w < |s.ws| ==> Has(s.ws[w], t) == 0
  {
    hide Bag, Held, WorkerOk, TaskOk, Has;
    assert t in Owned(s);
    forall w: nat | w < |s.ws| ensures Has(s.ws[w], t) == 0 {
      if Has(s.ws[w], t) > 0 { HasAlone(s, w, t); }
    }
  }

  // ---------------------------------------------------------------------------
  // Preservation
  // ---------------------------------------------------------------------------

  lemma CreateKeeps(s: State)
    requires Inv(s)
    ensures Inv(Apply(s, Create))
  {
    hide Held, Bag, WorkerOk, Saved, Has;
    var s' := Apply(s, Create);
    assert OwnersOk(s') by {
      forall t: nat ensures Owned(s')[t] == One(t < |s'.tasks| && s'.tasks[t].live) {
        assert Owned(s')[t] == Owned(s)[t] + multiset{|s.tasks|}[t];
      }
    }
    forall w: nat | w < |s'.ws| ensures WorkerOk(s'.tasks, |s'.ws|, w, s'.ws[w]) {
      WorkerStays(s.tasks, s'.tasks, |s.ws|, w, s.ws[w]);
    }
    assert forall t: nat :: t < |s.tasks| ==> s'.tasks[t] == s.tasks[t];
    forall t: nat | t in s'.pool ensures Saved(s'.tasks, t) && !IsRoot(s', t) { SavedGrows(s.tasks, NewTask(s, false), t); }
  }

  lemma SavedGrows(tasks: seq<Task>, t: Task, x: nat)
    requires t.ctx.Some?
    ensures Saved(tasks, x) || x == |tasks| ==> Saved(tasks + [t], x)
  {
  }

  lemma InlineKeeps(s: State, w: nat, b: nat)
    requires Inv(s) && Enabled(s, Inline(w, b))
    ensures Inv(Apply(s, Inline(w, b)))
  {
    hide OwnersOk, WorkerOk, Has, TaskOk, CountKept, TaskKept;
    var s' := Apply(s, Inline(w, b));
    PoolAlone(s, b);
    InlineTasks(s, w, b);
    assert WorkerOk(s.tasks, |s.ws|, w, s.ws[w]);
    forall t: nat ensures CountKept(s, s', w, t) { InlineCounts(s, w, b, t); }
    WorkerStays(s.tasks, s'.tasks, |s.ws|, w, s.ws[w]);
    LocalStep(s, s', w);
  }

  lemma InlineTasks(s: State, w: nat, b: nat)
    requires Inv(s) && Enabled(s, Inline(w, b)) && !IsRoot(s, b)
    ensures forall t: nat :: t < |s.tasks| ==> TaskKept(s, Apply(s, Inline(w, b)), w, t)
  {
    hide OwnersOk, WorkerOk, Has;
    var s' := Apply(s, Inline(w, b));
    forall t: nat | t < |s.tasks| ensures TaskKept(s, s', w, t) { assert TaskOk(s, s.tasks[t]); }
  }

  lemma InlineCounts(s: State, w: nat, b: nat, t: nat)
    requires Enabled(s, Inline(w, b)) && s.pool[b] == 1 && s.tasks[b].live
    ensures CountKept(s, Apply(s, Inline(w, b)), w, t)
  {
    hide Has;
    assert multiset{b}[t] == One(t == b);
  }

  lemma ForkKeeps(s: State, w: nat)
    requires Inv(s) && Enabled(s, Fork(w))
    ensures Inv(Apply(s, Fork(w)))
  {
    var s' := Apply(s, Fork(w));
    ForkShape(s, w);
    WorkerDistinct(s, w);
    NotHeldYet(s, w);
    assert WorkerOk(s.tasks, |s.ws|, w, s.ws[w]);
    ForkWorker(s, s', w);
    ForkTasks(s, s', w);
    forall t: nat ensures CountKept(s, s', w, t) { ForkCounts(s, s', w, t); }
    hide OwnersOk, WorkerOk, Has, TaskOk, CountKept, TaskKept, Enabled, Apply;
    LocalStep(s, s', w);
  }

  /** The state after a child-first fork. */
  ghost predicate Forked(s: State, s': State, w: nat) {
    && w < |s.ws| && s.ws[w].cur.Some? && s.ws[w].cur.value < |s.tasks| && s.ws[w].op == Run
    && var c := s.ws[w].cur.value;
       && s'.tasks == s.tasks[c := s.tasks[c].(ctx := Some(s.nextCtx))] + [Task(None, s.nextCtx + 1, true, false, true)]
       && s'.ws == s.ws[w := s.ws[w].(cur := Some(|s.tasks|), op := Landed(c, Suspend))]
       && s'.pool == s.pool && s'.nextCtx == s.nextCtx + 2
  }

  lemma ForkWorker(s: State, s': State, w: nat)
    requires Forked(s, s', w) && WorkerOk(s.tasks, |s.ws|, w, s.ws[w]) && Distinct(s.ws[w])
    requires s.ws[w].cur.value >= |s.ws| && |s.ws| <= |s.tasks|
    ensures WorkerOk(s'.tasks, |s.ws|, w, s'.ws[w])
  {
  }

  lemma ForkTasks(s: State, s': State, w: nat)
    requires Inv(s) && Forked(s, s', w)
    ensures forall t: nat :: t < |s'.tasks| ==> TaskKept(s, s', w, t)
  {
    assert |s.ws| <= |s.tasks|;
    hide OwnersOk;
    var c := s.ws[w].cur.value;
    assert WorkerOk(s.tasks, |s.ws|, w, s.ws[w]) && TaskOk(s, s.tasks[c]);
    hide WorkerOk;
    forall t: nat | t < |s'.tasks| ensures TaskKept(s, s', w, t) {
      if t < |s.tasks| { assert TaskOk(s, s.tasks[t]); }
    }
  }

  lemma ForkCounts(s: State, s': State, w: nat, t: nat)
    requires Forked(s, s', w) && s.pool[|s.tasks|] == 0 && Has(s.ws[w], |s.tasks|) == 0
    ensures CountKept(s, s', w, t)
  {
  }

  lemma NotHeldYet(s: State, w: nat)
    requires OwnersOk(s) && w < |s.ws|
    ensures s.pool[|s.tasks|] == 0 && Has(s.ws[w], |s.tasks|) == 0
  {
    hide Bag, Held, Has;
    assert |s.tasks| !in Owned(s);
    if Has(s.ws[w], |s.tasks|) > 0 { HasAlone(s, w, |s.tasks|); }
  }

  lemma ForkShape(s: State, w: nat)
    requires Enabled(s, Fork(w))
    ensures Forked(s, Apply(s, Fork(w)), w)
  {
  }

  lemma BeginKeeps(s: State, w: nat, goal: Goal, pick: Option<nat>)
    requires Inv(s) && Enabled(s, Begin(w, goal, pick))
    ensures Inv(Apply(s, Begin(w, goal, pick)))
  {
    var s' := Apply(s, Begin(w, goal, pick));
    if pick.Some? { PoolAlone(s, pick.value); }
    BeginTasks(s, w, goal, pick);
    BeginWorker(s, w, goal, pick);
    forall t: nat ensures CountKept(s, s', w, t) { BeginCounts(s, w, goal, pick, t); }
    hide OwnersOk, WorkerOk, Has, TaskOk, CountKept, TaskKept, Enabled;
    LocalStep(s, s', w);
  }

  lemma BeginTasks(s: State, w: nat, goal: Goal, pick: Option<nat>)
    requires Inv(s) && Enabled(s, Begin(w, goal, pick))
    ensures var s' := Apply(s, Begin(w, goal, pick));
            forall t: nat :: t < |s.tasks| ==> TaskKept(s, s', w, t)
  {
    hide OwnersOk, WorkerOk, Has;
    var s' := Apply(s, Begin(w, goal, pick));
    forall t: nat | t < |s.tasks| ensures TaskKept(s, s', w, t) { assert TaskOk(s, s.tasks[t]); }
  }

  lemma BeginWorker(s: State, w: nat, goal: Goal, pick: Option<nat>)
    requires Inv(s) && Enabled(s, Begin(w, goal, pick))
    requires pick.Some? ==> Saved(s.tasks, pick.value) && !IsRoot(s, pick.value)
    ensures WorkerOk(s.tasks, |s.ws|, w, Apply(s, Begin(w, goal, pick)).ws[w])
  {
    hide OwnersOk, TaskOk;
    assert WorkerOk(s.tasks, |s.ws|, w, s.ws[w]);
  }

  lemma BeginCounts(s: State, w: nat, goal: Goal, pick: Option<nat>, t: nat)
    requires Enabled(s, Begin(w, goal, pick))
    ensures CountKept(s, Apply(s, Begin(w, goal, pick)), w, t)
  {
    if pick.Some? { assert multiset{pick.value}[t] == One(t == pick.value); }
  }

  /** The three places of a worker hold different tasks. */
  predicate Distinct(k: Worker) {
    && k.root != k.cur
    && (k.cur.Some? ==> !OpHas(k.op, k.cur.value))
    && (k.root.Some? ==> !OpHas(k.op, k.root.value))
  }

  lemma WorkerDistinct(s: State, w: nat)
    requires Inv(s) && w < |s.ws|
    ensures s.ws[w].cur.Some? && s.ws[w].cur.value < |s.tasks| && s.tasks[s.ws[w].cur.value].live && Distinct(s.ws[w])
    ensures KnownOp(s, s.ws[w])
    ensures |s.ws| <= |s.tasks|
  {
    var k := s.ws[w];
    assert |s.ws| <= |s.tasks|;
    hide OwnersOk;
    assert WorkerOk(s.tasks, |s.ws|, w, k);
    HasAlone(s, w, k.cur.value);
    if k.root.Some? { HasAlone(s, w, k.root.value); }
  }

  lemma MoveCounts(s: State, w: nat, commit: bool, t: nat)
    requires w < |s.ws| && KnownOp(s, s.ws[w]) && WorkerOk(s.tasks, |s.ws|, w, s.ws[w])
    requires Distinct(s.ws[w]) && s.tasks[s.ws[w].cur.value].live
    ensures CountKept(s, StepMove(s, w, commit), w, t)
  {
    if s.ws[w].op.Pick? || s.ws[w].op.Claimed? {
      SwitchCounts(s, w, commit, t);
    } else if s.ws[w].op.Landed? || s.ws[w].op.PutBack? {
      PublishCounts(s, w, commit, t);
    }
  }

  lemma SwitchCounts(s: State, w: nat, commit: bool, t: nat)
    requires w < |s.ws| && KnownOp(s, s.ws[w]) && Distinct(s.ws[w]) && s.tasks[s.ws[w].cur.value].live
    requires s.ws[w].op.Pick? || s.ws[w].op.Claimed?
    ensures CountKept(s, StepMove(s, w, commit), w, t)
  {
  }

  lemma PublishCounts(s: State, w: nat, commit: bool, t: nat)
    requires w < |s.ws| && KnownOp(s, s.ws[w]) && WorkerOk(s.tasks, |s.ws|, w, s.ws[w]) && Distinct(s.ws[w])
    requires s.ws[w].op.Landed? || s.ws[w].op.PutBack?
    ensures CountKept(s, StepMove(s, w, commit), w, t)
  {
  }

  lemma MoveTask(s: State, w: nat, commit: bool, t: nat)
    requires w < |s.ws| && KnownOp(s, s.ws[w]) && WorkerOk(s.tasks, |s.ws|, w, s.ws[w]) && t < |s.tasks|
    requires TaskOk(s, s.tasks[t]) && (Has(s.ws[w], t) > 0 ==> !s.tasks[t].inlined) && (t < |s.ws| ==> s.tasks[t].live)
    ensures |StepMove(s, w, commit).tasks| == |s.tasks| && TaskKept(s, StepMove(s, w, commit), w, t)
  {
    hide StepMove, TaskKept, TaskOk, WorkerOk;
    if s.ws[w].op.Pick? || s.ws[w].op.Claimed? { SwitchTask(s, w, commit, t); } else { LandTask(s, w, commit, t); }
  }

  lemma SwitchTask(s: State, w: nat, commit: bool, t: nat)
    requires w < |s.ws| && KnownOp(s, s.ws[w]) && WorkerOk(s.tasks, |s.ws|, w, s.ws[w]) && t < |s.tasks|
    requires TaskOk(s, s.tasks[t]) && (Has(s.ws[w], t) > 0 ==> !s.tasks[t].inlined) && (t < |s.ws| ==> s.tasks[t].live)
    requires s.ws[w].op.Pick? || s.ws[w].op.Claimed?
    ensures |StepMove(s, w, commit).tasks| == |s.tasks| && TaskKept(s, StepMove(s, w, commit), w, t)
  {
  }

  lemma LandTask(s: State, w: nat, commit: bool, t: nat)
    requires w < |s.ws| && KnownOp(s, s.ws[w]) && WorkerOk(s.tasks, |s.ws|, w, s.ws[w]) && t < |s.tasks|
    requires TaskOk(s, s.tasks[t]) && (Has(s.ws[w], t) > 0 ==> !s.tasks[t].inlined) && (t < |s.ws| ==> s.tasks[t].live)
    requires !s.ws[w].op.Pick? && !s.ws[w].op.Claimed?
    ensures |StepMove(s, w, commit).tasks| == |s.tasks| && TaskKept(s, StepMove(s, w, commit), w, t)
  {
  }

  lemma MoveWorker(s: State, w: nat, commit: bool)
    requires w < |s.ws| && KnownOp(s, s.ws[w]) && WorkerOk(s.tasks, |s.ws|, w, s.ws[w]) && |s.ws| <= |s.tasks|
    requires Distinct(s.ws[w])
    ensures var s' := StepMove(s, w, commit);
            && |s'.ws| == |s.ws| && s'.ws == s.ws[w := s'.ws[w]]
            && WorkerOk(s'.tasks, |s.ws|, w, s'.ws[w])
  {
    if s.ws[w].op.Pick? || s.ws[w].op.Claimed? { SwitchWorker(s, w, commit); }
  }

  lemma SwitchWorker(s: State, w: nat, commit: bool)
    requires w < |s.ws| && KnownOp(s, s.ws[w]) && WorkerOk(s.tasks, |s.ws|, w, s.ws[w]) && |s.ws| <= |s.tasks|
    requires Distinct(s.ws[w]) && (s.ws[w].op.Pick? || s.ws[w].op.Claimed?)
    ensures var s' := StepMove(s, w, commit);
            && |s'.ws| == |s.ws| && s'.ws == s.ws[w := s'.ws[w]]
            && WorkerOk(s'.tasks, |s.ws|, w, s'.ws[w])
  {
  }

  lemma MovePool(s: State, w: nat, commit: bool)
    requires w < |s.ws| && KnownOp(s, s.ws[w]) && WorkerOk(s.tasks, |s.ws|, w, s.ws[w])
    ensures var s' := StepMove(s, w, commit);
            forall t: nat :: t in s'.pool && t !in s.pool ==> Saved(s'.tasks, t) && !IsRoot(s, t)
  {
  }

  lemma MoveKeeps(s: State, w: nat, commit: bool)
    requires Inv(s) && Enabled(s, Move(w, commit))
    ensures Inv(StepMove(s, w, commit))
  {
    var s' := StepMove(s, w, commit);
    assert WorkerOk(s.tasks, |s.ws|, w, s.ws[w]);
    hide OwnersOk, WorkerOk, Has, TaskOk, StepMove, KnownOp, CountKept, TaskKept;
    WorkerDistinct(s, w);
    MoveWorker(s, w, commit);
    MovePool(s, w, commit);
    MoveSize(s, w, commit);
    forall t: nat ensures CountKept(s, s', w, t) { MoveCounts(s, w, commit, t); }
    forall t: nat | t < |s.tasks| ensures TaskKept(s, s', w, t) {
      if Has(s.ws[w], t) > 0 { LiveNotInlined(s, w, t); }
      MoveTask(s, w, commit, t);
    }
    LocalStep(s, s', w);
  }

  lemma MoveSize(s: State, w: nat, commit: bool)
    requires w < |s.ws| && KnownOp(s, s.ws[w])
    ensures |StepMove(s, w, commit).tasks| == |s.tasks|
  {
  }

  lemma LiveNotInlined(s: State, w: nat, t: nat)
    requires Inv(s) && w < |s.ws| && t < |s.tasks| && Has(s.ws[w], t) > 0
    ensures !s.tasks[t].inlined
  {
    HasAlone(s, w, t);
    assert TaskOk(s, s.tasks[t]);
  }

  lemma StepKeeps(s: State, a: Action)
    requires Inv(s) && Enabled(s, a)
    ensures Inv(Apply(s, a))
  {
    hide Inv, StepMove;
    match a
    case Create => CreateKeeps(s);
    case Fork(w) => ForkKeeps(s, w);
    case Inline(w, b) => InlineKeeps(s, w, b);
    case Begin(w, goal, pick) => BeginKeeps(s, w, goal, pick);
    case Move(w, commit) => MoveKeeps(s, w, commit);
  }

  lemma InitKeeps(s: State)
    requires Init(s)
    ensures Inv(s)
  {
    assert OwnersOk(s) by {
      InitOwners(s.ws, |s.ws|);
      assert s.ws[..|s.ws|] == s.ws;
    }
  }

  lemma {:induction false} InitOwners(ws: seq<Worker>, n: nat)
    requires n <= |ws| && forall w :: 0 <= w < |ws| ==> ws[w] == Worker(Some(w), None, Run)
    ensures forall t: nat :: Bag(ws[..n], Held)[t] == One(t < n)
  {
    if n > 0 {
      InitOwners(ws, n - 1);
      assert ws[..n][..n - 1] == ws[..n - 1];
      forall t: nat ensures Bag(ws[..n], Held)[t] == One(t < n) { HeldCount(ws[n - 1], t); }
    }
  }

  /** A run: the states passed through and the steps between them. */
  ghost predicate IsRun(run: seq<State>, acts: seq<Action>) {
    && |run| == |acts| + 1 && Init(run[0])
    && forall i :: 0 <= i < |acts| ==> Enabled(run[i], acts[i]) && run[i + 1] == Apply(run[i], acts[i])
  }

  lemma RunLength(run: seq<State>, acts: seq<Action>)
    requires IsRun(run, acts)
    ensures |run| == |acts| + 1
  {
  }

  lemma StepOf(run: seq<State>, acts: seq<Action>, i: nat)
    requires IsRun(run, acts) && i < |acts|
    ensures |run| == |acts| + 1 && Enabled(run[i], acts[i]) && run[i + 1] == Apply(run[i], acts[i])
  {
  }

  lemma {:induction false} RunKeeps(run: seq<State>, acts: seq<Action>, n: nat)
    requires IsRun(run, acts) && n < |run|
    ensures Inv(run[n])
  {
    hide Inv, Init;
    if n == 0 {
      InitKeeps(run[0]);
    } else {
      RunKeeps(run, acts, n - 1);
      StepOf(run, acts, n - 1);
      var a := acts[n - 1];
      StepKeeps(run[n - 1], a);
    }
  }

  // ---------------------------------------------------------------------------
  // What every run satisfies
  // ---------------------------------------------------------------------------

  /** Every live task is in exactly one place: the pool, or one place of one worker. */
  lemma OneOwner(run: seq<State>, acts: seq<Action>, n: nat, t: nat)
    requires IsRun(run, acts) && n < |run| && t < |run[n].tasks| && run[n].tasks[t].live
    ensures var s := run[n];
            || (s.pool[t] == 1 && forall w: nat :: w < |s.ws| ==> Has(s.ws[w], t) == 0)
            || (s.pool[t] == 0 && (exists w: nat :: w < |s.ws| && OnlyHas(s, w, t)))
  {
    hide IsRun, Held, Bag, Has, WorkerOk, TaskOk;
    var s := run[n];
    RunKeeps(run, acts, n);
    assert Owned(s)[t] == 1;
    if t in s.pool {
      PoolAlone(s, t);
    } else {
      var w := BagWitness(s.ws, Held, t);
      HeldCount(s.ws[w], t);
      HasAlone(s, w, t);
      assert OnlyHas(s, w, t);
    }
  }

  /** Worker `w`, and no other, has the task, in one place. */
  ghost predicate OnlyHas(s: State, w: nat, t: nat)
    requires w < |s.ws|
  {
    Has(s.ws[w], t) == 1 && forall v: nat :: v < |s.ws| && v != w ==> Has(s.ws[v], t) == 0
  }

  /** A task has a saved context exactly when it is suspended: in the pool, in the root slot, or
      picked; a running task has none. */
  lemma SavedWhenSuspended(run: seq<State>, acts: seq<Action>, n: nat)
    requires IsRun(run, acts) && n < |run|
    ensures var s := run[n];
            && (forall t: nat :: t in s.pool ==> Saved(s.tasks, t))
            && forall w: nat :: w < |s.ws| ==>
                 && (s.ws[w].root.Some? ==> Saved(s.tasks, s.ws[w].root.value))
                 && s.ws[w].cur.Some?
                 && (s.ws[w].op == Run ==> Unsaved(s.tasks, s.ws[w].cur.value))
  {
    hide IsRun, OwnersOk, TaskOk;
    RunKeeps(run, acts, n);
    forall w: nat | w < |run[n].ws|
      ensures (run[n].ws[w].root.Some? ==> Saved(run[n].tasks, run[n].ws[w].root.value)) && run[n].ws[w].cur.Some?
              && (run[n].ws[w].op == Run ==> Unsaved(run[n].tasks, run[n].ws[w].cur.value))
    {
      assert WorkerOk(run[n].tasks, |run[n].ws|, w, run[n].ws[w]);
    }
  }

  /** None of the checks of the switch code can fail: the context about to be claimed or peeked
      is there (no double resume); the task about to be suspended has none (no suspend over a
      live context); the root slot about to be filled is empty, and filled with this worker's
      own root; and a worker that runs a task and finds no other has its root to go to. */
  lemma ChecksHold(run: seq<State>, acts: seq<Action>, n: nat, w: nat)
    requires IsRun(run, acts) && n < |run| && w < |run[n].ws|
    ensures var s, k := run[n], run[n].ws[w];
            && (k.op.Pick? ==> Saved(s.tasks, k.op.next))
            && (k.op.Pick? || k.op.Claimed? ==> k.cur.Some? && Unsaved(s.tasks, k.cur.value))
            && (k.op.Landed? && k.op.goal == Dispatch ==> k.root == None && k.op.prev == w)
            && (k.op.PutBack? && IsRoot(s, k.op.next) ==> k.root == None && k.op.next == w)
            && (k.op == Run && k.cur != Some(w) ==> k.root == Some(w))
            && k.cur.Some? && KnownOp(s, k)
  {
    hide IsRun, Held, Bag, OwnersOk;
    var s, k := run[n], run[n].ws[w];
    RunKeeps(run, acts, n);
    assert WorkerOk(s.tasks, |s.ws|, w, k);
    WorkerDistinct(s, w);
    RootHeld(s, w);
    HeldCount(k, w);
  }

  /** The branch of a `parallel_call` that is popped back with the context it was made with never
      ran, and is run by exactly one of the two: inline, or by being switched to. */
  lemma BranchRunsOnce(run: seq<State>, acts: seq<Action>, n: nat, t: nat)
    requires IsRun(run, acts) && n < |run| && t < |run[n].tasks|
    ensures !(run[n].tasks[t].started && run[n].tasks[t].inlined)
    ensures run[n].tasks[t].ctx == Some(run[n].tasks[t].first) <==> !run[n].tasks[t].started
  {
    hide IsRun, OwnersOk, WorkerOk;
    RunKeeps(run, acts, n);
    assert TaskOk(run[n], run[n].tasks[t]);
  }

  /** A conditional suspension that is cancelled, undisturbed by others, is as if it had never
      happened: the same tasks in the same places, with the same saved contexts, whatever was
      picked. */
  lemma CancelRestores(s: State, s1: State, s2: State, s3: State, s4: State, s5: State, w: nat, pick: Option<nat>)
    requires Inv(s) && Enabled(s, Begin(w, Conditional, pick)) && s1 == Apply(s, Begin(w, Conditional, pick))
    requires Enabled(s1, Move(w, false)) && s2 == Apply(s1, Move(w, false))
    requires Enabled(s2, Move(w, false)) && s3 == Apply(s2, Move(w, false))
    requires Enabled(s3, Move(w, false)) && s4 == Apply(s3, Move(w, false))
    requires Enabled(s4, Move(w, false)) && s5 == Apply(s4, Move(w, false))
    ensures s5.ws == s.ws && s5.pool == s.pool && s5.tasks == s.tasks
  {
    hide Inv, StepMove, Apply, Enabled;
    CancelFacts(s, w, pick);
    TrialShape(s, s1, s2, w, pick);
    UndoShape(s2, s3, s4, s5, w, s.ws[w].cur.value, s2.ws[w].cur.value);
    CancelSame(s, s2, s5, w, pick);
  }

  lemma CancelSame(s: State, s2: State, s5: State, w: nat, pick: Option<nat>)
    requires w < |s.ws| && s.ws[w].cur.Some? && s.ws[w].cur.value < |s.tasks| && s.ws[w].op == Run
    requires pick.None? ==> s.ws[w].root == Some(w)
    requires pick.Some? ==> !IsRoot(s, pick.value) && pick.value in s.pool
    requires TrialState(s, s2, w, pick) && UndoneState(s2, s5, w, s.ws[w].cur.value, s2.ws[w].cur.value)
    requires var c := s.ws[w].cur.value; s.tasks[c].ctx == None && s.tasks[c].started
    ensures s5.ws == s.ws && s5.pool == s.pool && s5.tasks == s.tasks
  {
    CancelTasks(s, s2, s5, w, pick);
    CancelWorkers(s, s2, s5, w, pick);
  }

  lemma CancelTasks(s: State, s2: State, s5: State, w: nat, pick: Option<nat>)
    requires w < |s.ws| && s.ws[w].cur.Some? && s.ws[w].cur.value < |s.tasks| && (pick.None? ==> s.ws[w].root.Some?)
    requires TrialState(s, s2, w, pick) && UndoneState(s2, s5, w, s.ws[w].cur.value, s2.ws[w].cur.value)
    requires var c := s.ws[w].cur.value; s.tasks[c].ctx == None && s.tasks[c].started
    ensures s5.tasks == s.tasks
  {
    var c := s.ws[w].cur.value;
    assert s2.tasks[c].(ctx := None, started := true) == s.tasks[c];
    assert s5.tasks == s.tasks[c := s.tasks[c]];
  }

  lemma CancelWorkers(s: State, s2: State, s5: State, w: nat, pick: Option<nat>)
    requires w < |s.ws| && s.ws[w].cur.Some? && s.ws[w].cur.value < |s.tasks| && s.ws[w].op == Run
    requires pick.None? ==> s.ws[w].root == Some(w)
    requires pick.Some? ==> !IsRoot(s, pick.value) && pick.value in s.pool
    requires TrialState(s, s2, w, pick) && UndoneState(s2, s5, w, s.ws[w].cur.value, s2.ws[w].cur.value)
    ensures s5.ws == s.ws && s5.pool == s.pool
  {
    assert s5.ws[w] == s.ws[w];
    assert s5.ws == s.ws[w := s.ws[w]];
  }

  lemma CancelFacts(s: State, w: nat, pick: Option<nat>)
    requires Inv(s) && Enabled(s, Begin(w, Conditional, pick))
    ensures w < |s.ws| && s.ws[w].cur.Some? && s.ws[w].cur.value < |s.tasks| && s.ws[w].op == Run
    ensures var c := s.ws[w].cur.value; s.tasks[c].ctx == None && s.tasks[c].started
    ensures pick.Some? ==> pick.value < |s.tasks| && !IsRoot(s, pick.value)
    ensures pick.None? ==> s.ws[w].root == Some(w) && w < |s.tasks|
    ensures pick.Some? ==> pick.value in s.pool
  {
    hide OwnersOk;
    assert WorkerOk(s.tasks, |s.ws|, w, s.ws[w]) && TaskOk(s, s.tasks[s.ws[w].cur.value]);
    if pick.Some? { PoolAlone(s, pick.value); }
  }

  /** After picking and switching on trial. */
  ghost predicate TrialState(s: State, s2: State, w: nat, pick: Option<nat>)
    requires w < |s.ws| && s.ws[w].cur.Some? && s.ws[w].cur.value < |s.tasks| && (pick.None? ==> s.ws[w].root.Some?)
  {
    var c, next := s.ws[w].cur.value, if pick.Some? then pick.value else s.ws[w].root.value;
    s2 == State(s.tasks[c := s.tasks[c].(ctx := Some(s.nextCtx))],
                s.ws[w := Worker(Some(next), if pick.Some? then s.ws[w].root else None, Trial(c))],
                if pick.Some? then s.pool - multiset{pick.value} else s.pool, s.nextCtx + 1)
  }

  lemma TrialShape(s: State, s1: State, s2: State, w: nat, pick: Option<nat>)
    requires Enabled(s, Begin(w, Conditional, pick)) && s1 == Apply(s, Begin(w, Conditional, pick))
    requires Enabled(s1, Move(w, false)) && s2 == Apply(s1, Move(w, false))
    requires s.ws[w].cur.value < |s.tasks|
    ensures TrialState(s, s2, w, pick)
  {
  }

  /** From the trial `s` back. */
  ghost predicate UndoneState(s: State, s5: State, w: nat, c: nat, next: nat)
    requires w < |s.ws| && c < |s.tasks|
  {
    s5 == s.(tasks := s.tasks[c := s.tasks[c].(ctx := None, started := true)],
             ws := s.ws[w := Worker(Some(c), if next < |s.ws| then Some(next) else s.ws[w].root, Run)],
             pool := if next < |s.ws| then s.pool else s.pool + multiset{next})
  }

  lemma UndoShape(s: State, s3: State, s4: State, s5: State, w: nat, c: nat, next: nat)
    requires w < |s.ws| && c < |s.tasks| && s.ws[w].cur == Some(next) && s.ws[w].op == Trial(c)
    requires Enabled(s, Move(w, false)) && s3 == Apply(s, Move(w, false))
    requires Enabled(s3, Move(w, false)) && s4 == Apply(s3, Move(w, false))
    requires Enabled(s4, Move(w, false)) && s5 == Apply(s4, Move(w, false))
    ensures UndoneState(s, s5, w, c, next)
  {
  }

  /** No switch is ever stuck, and a task can always suspend. */
  lemma SwitchesNeverStuck(run: seq<State>, acts: seq<Action>, n: nat, w: nat)
    requires IsRun(run, acts) && n < |run| && w < |run[n].ws|
    ensures run[n].ws[w].op != Run ==> Enabled(run[n], Move(w, false)) && Enabled(run[n], Move(w, true))
    ensures run[n].ws[w].op == Run && run[n].ws[w].cur != Some(w) ==> Enabled(run[n], Begin(w, Suspend, None))
  {
    hide IsRun, OwnersOk, TaskOk;
    ChecksHold(run, acts, n, w);
    RunKeeps(run, acts, n);
    assert WorkerOk(run[n].tasks, |run[n].ws|, w, run[n].ws[w]);
  }

  // ---------------------------------------------------------------------------
  // What a switch achieves
  // ---------------------------------------------------------------------------

  /** The task a switch goes to, and the root slot it leaves. */
  function Target(s: State, w: nat, pick: Option<nat>): nat
    requires w < |s.ws| && (pick.None? ==> s.ws[w].root.Some?)
  {
    if pick.Some? then pick.value else s.ws[w].root.value
  }

  function RootLeft(k: Worker, pick: Option<nat>): Option<nat> { if pick.Some? then k.root else None }

  /** What becomes of the task left: it waits with the other suspended tasks, or as the worker's
      root continuation, or it is over. */
  predicate LeftOff(s: State, t: State, w: nat, goal: Goal, pick: Option<nat>, c: nat, next: nat)
    requires w < |s.ws|
  {
    match goal
    case Dispatch => t.ws == s.ws[w := Worker(Some(next), Some(c), Run)] && t.pool == s.pool - Slot(pick)
    case Exit => t.ws == s.ws[w := Worker(Some(next), RootLeft(s.ws[w], pick), Run)] && t.pool == s.pool - Slot(pick)
    case _ =>
      t.ws == s.ws[w := Worker(Some(next), RootLeft(s.ws[w], pick), Run)] && t.pool == s.pool - Slot(pick) + multiset{c}
  }

  /** The contexts afterwards: that of the task switched to is used up, that of the task left is
      saved and new (or the task is over), and nobody else's changed. */
  predicate Swapped(s: State, t: State, goal: Goal, c: nat, next: nat) {
    && c < |s.tasks| && next < |s.tasks| && next != c
    && t.tasks == s.tasks[next := s.tasks[next].(ctx := None, started := true)]
                         [c := if goal == Exit then s.tasks[c].(live := false) else s.tasks[c].(ctx := Some(s.nextCtx))]
  }

  lemma SwitchFacts(s: State, w: nat, goal: Goal, pick: Option<nat>)
    requires Inv(s) && Enabled(s, Begin(w, goal, pick))
    ensures w < |s.ws| && s.ws[w].cur.Some? && s.ws[w].cur.value < |s.tasks| && (pick.None? ==> s.ws[w].root.Some?)
    ensures Target(s, w, pick) < |s.tasks| && Target(s, w, pick) != s.ws[w].cur.value
  {
    hide OwnersOk, TaskOk;
    assert WorkerOk(s.tasks, |s.ws|, w, s.ws[w]);
    if pick.Some? { PoolAlone(s, pick.value); }
    WorkerDistinct(s, w);
  }

  lemma BeginShape(s: State, s1: State, w: nat, goal: Goal, pick: Option<nat>, next: nat)
    requires Enabled(s, Begin(w, goal, pick)) && s1 == Apply(s, Begin(w, goal, pick))
    requires (pick.None? ==> s.ws[w].root.Some?) && next == Target(s, w, pick)
    ensures s1 == s.(ws := s.ws[w := Worker(s.ws[w].cur, RootLeft(s.ws[w], pick), Pick(next, goal))], pool := s.pool - Slot(pick))
  {
  }

  lemma MoveShape(s: State, s1: State, w: nat, commit: bool)
    requires Enabled(s, Move(w, commit)) && s1 == Apply(s, Move(w, commit))
    ensures w < |s.ws| && KnownOp(s, s.ws[w]) && s1 == StepMove(s, w, commit)
  {
  }

  lemma ClaimShape(s: State, w: nat, c: nat, next: nat, root: Option<nat>, goal: Goal)
    requires w < |s.ws| && s.ws[w] == Worker(Some(c), root, Pick(next, goal)) && KnownOp(s, s.ws[w]) && goal != Conditional
    ensures StepMove(s, w, false)
            == s.(ws := s.ws[w := Worker(Some(c), root, Claimed(next, goal))],
                  tasks := s.tasks[next := s.tasks[next].(ctx := None, started := true)])
  {
  }

  lemma LandShape(s: State, w: nat, c: nat, next: nat, root: Option<nat>, goal: Goal)
    requires w < |s.ws| && s.ws[w] == Worker(Some(c), root, Claimed(next, goal)) && KnownOp(s, s.ws[w])
    ensures StepMove(s, w, false)
            == if goal == Exit then
                 s.(ws := s.ws[w := Worker(Some(next), root, Run)], tasks := s.tasks[c := s.tasks[c].(live := false)])
               else
                 s.(ws := s.ws[w := Worker(Some(next), root, Landed(c, goal))], nextCtx := s.nextCtx + 1,
                    tasks := s.tasks[c := s.tasks[c].(ctx := Some(s.nextCtx))])
  {
  }

  lemma PublishShape(s: State, w: nat, c: nat, next: nat, root: Option<nat>, goal: Goal)
    requires w < |s.ws| && s.ws[w] == Worker(Some(next), root, Landed(c, goal)) && KnownOp(s, s.ws[w])
    ensures StepMove(s, w, false)
            == if goal == Dispatch then s.(ws := s.ws[w := Worker(Some(next), Some(c), Run)])
               else s.(ws := s.ws[w := Worker(Some(next), root, Run)], pool := s.pool + multiset{c})
  {
  }

  /** The first two steps of a switch: the next task is taken, and its context claimed. */
  lemma SwitchClaims(s: State, s1: State, s2: State, w: nat, goal: Goal, pick: Option<nat>)
    requires Inv(s) && Enabled(s, Begin(w, goal, pick)) && s1 == Apply(s, Begin(w, goal, pick)) && goal != Conditional
    requires Enabled(s1, Move(w, false)) && s2 == Apply(s1, Move(w, false))
    ensures w < |s.ws| && s.ws[w].cur.Some? && s.ws[w].cur.value < |s.tasks| && (pick.None? ==> s.ws[w].root.Some?)
    ensures var c, next := s.ws[w].cur.value, Target(s, w, pick);
            && next < |s.tasks| && next != c
            && s2 == s.(ws := s.ws[w := Worker(Some(c), RootLeft(s.ws[w], pick), Claimed(next, goal))], pool := s.pool - Slot(pick),
                        tasks := s.tasks[next := s.tasks[next].(ctx := None, started := true)])
  {
    hide Inv, Enabled, Apply, StepMove;
    SwitchFacts(s, w, goal, pick);
    var c, next, root := s.ws[w].cur.value, Target(s, w, pick), RootLeft(s.ws[w], pick);
    BeginShape(s, s1, w, goal, pick, next);
    MoveShape(s1, s2, w, false);
    ClaimShape(s1, w, c, next, root, goal);
  }

  /** The rest of it: the old task is over, or its context is saved and its callback runs. */
  lemma SwitchLands(s: State, s1: State, s2: State, w: nat, c: nat, next: nat, root: Option<nat>, goal: Goal)
    requires w < |s.ws| && s.ws[w] == Worker(Some(c), root, Claimed(next, goal)) && c < |s.tasks|
    requires Enabled(s, Move(w, false)) && s1 == Apply(s, Move(w, false))
    requires if goal == Exit then s2 == s1 else Enabled(s1, Move(w, false)) && s2 == Apply(s1, Move(w, false))
    ensures s2.tasks == s.tasks[c := if goal == Exit then s.tasks[c].(live := false) else s.tasks[c].(ctx := Some(s.nextCtx))]
    ensures s2.ws == s.ws[w := Worker(Some(next), if goal == Dispatch then Some(c) else root, Run)]
    ensures s2.pool == if goal == Exit || goal == Dispatch then s.pool else s.pool + multiset{c}
  {
    hide Enabled, Apply, StepMove;
    MoveShape(s, s1, w, false);
    LandShape(s, w, c, next, root, goal);
    if goal != Exit {
      MoveShape(s1, s2, w, false);
      PublishShape(s1, w, c, next, root, goal);
    }
    hide KnownOp;
  }

  /** A suspension, an exit, or the scheduler loop's dispatch, left alone: the task picked runs,
      and the old one is where it belongs. */
  lemma SwitchCompletes(s: State, s1: State, s2: State, s3: State, s4: State, w: nat, goal: Goal, pick: Option<nat>)
    requires Inv(s) && Enabled(s, Begin(w, goal, pick)) && s1 == Apply(s, Begin(w, goal, pick)) && goal != Conditional
    requires Enabled(s1, Move(w, false)) && s2 == Apply(s1, Move(w, false))
    requires Enabled(s2, Move(w, false)) && s3 == Apply(s2, Move(w, false))
    requires if goal == Exit then s4 == s3 else Enabled(s3, Move(w, false)) && s4 == Apply(s3, Move(w, false))
    ensures w < |s.ws| && s.ws[w].cur.Some? && (pick.None? ==> s.ws[w].root.Some?)
    ensures var c, next := s.ws[w].cur.value, Target(s, w, pick);
            Swapped(s, s4, goal, c, next) && LeftOff(s, s4, w, goal, pick, c, next)
  {
    hide Inv, Enabled, Apply, StepMove;
    SwitchClaims(s, s1, s2, w, goal, pick);
    SwitchLands(s2, s3, s4, w, s.ws[w].cur.value, Target(s, w, pick), RootLeft(s.ws[w], pick), goal);
  }

  /** The child-first fork: the child runs on its fresh stack, and its parent, with a new context
      saved, waits with the other suspended tasks. */
  lemma ForkCompletes(s: State, s1: State, s2: State, w: nat)
    requires Inv(s) && Enabled(s, Fork(w)) && s1 == Apply(s, Fork(w))
    requires Enabled(s1, Move(w, false)) && s2 == Apply(s1, Move(w, false))
    ensures w < |s.ws| && s.ws[w].cur.Some? && s.ws[w].cur.value < |s.tasks|
    ensures var c := s.ws[w].cur.value;
            && s2.tasks == s.tasks[c := s.tasks[c].(ctx := Some(s.nextCtx))] + [Task(None, s.nextCtx + 1, true, false, true)]
            && s2.ws == s.ws[w := Worker(Some(|s.tasks|), s.ws[w].root, Run)]
            && s2.pool == s.pool + multiset{c}
  {
    hide Inv, StepMove;
    var c := s.ws[w].cur.value;
    MoveShape(s1, s2, w, false);
    PublishShape(s1, w, c, |s.tasks|, s.ws[w].root, Suspend);
  }

  lemma TrialPick(s: State, w: nat, c: nat, next: nat, root: Option<nat>)
    requires w < |s.ws| && s.ws[w] == Worker(Some(c), root, Pick(next, Conditional)) && KnownOp(s, s.ws[w])
    ensures StepMove(s, w, true)
            == s.(ws := s.ws[w := Worker(Some(next), root, Trial(c))], nextCtx := s.nextCtx + 1,
                  tasks := s.tasks[c := s.tasks[c].(ctx := Some(s.nextCtx))])
  {
  }

  lemma CommitShape(s: State, w: nat, c: nat, next: nat, root: Option<nat>)
    requires w < |s.ws| && KnownOp(s, s.ws[w])
    ensures s.ws[w] == Worker(Some(next), root, Trial(c)) ==>
              StepMove(s, w, true) == s.(ws := s.ws[w := Worker(Some(next), root, Commit)], pool := s.pool + multiset{c})
    ensures s.ws[w] == Worker(Some(next), root, Commit) ==>
              StepMove(s, w, true)
              == s.(ws := s.ws[w := Worker(Some(next), root, Run)], tasks := s.tasks[next := s.tasks[next].(ctx := None, started := true)])
  {
  }

  /** So does a conditional suspension that is committed. */
  lemma CommitCompletes(s: State, s1: State, s2: State, s3: State, s4: State, w: nat, pick: Option<nat>)
    requires Inv(s) && Enabled(s, Begin(w, Conditional, pick)) && s1 == Apply(s, Begin(w, Conditional, pick))
    requires Enabled(s1, Move(w, true)) && s2 == Apply(s1, Move(w, true))
    requires Enabled(s2, Move(w, true)) && s3 == Apply(s2, Move(w, true))
    requires Enabled(s3, Move(w, true)) && s4 == Apply(s3, Move(w, true))
    ensures w < |s.ws| && s.ws[w].cur.Some? && (pick.None? ==> s.ws[w].root.Some?)
    ensures var c, next := s.ws[w].cur.value, Target(s, w, pick);
            Swapped(s, s4, Conditional, c, next) && LeftOff(s, s4, w, Conditional, pick, c, next)
  {
    hide Inv, Enabled, Apply, StepMove;
    SwitchFacts(s, w, Conditional, pick);
    var c, next, root := s.ws[w].cur.value, Target(s, w, pick), RootLeft(s.ws[w], pick);
    BeginShape(s, s1, w, Conditional, pick, next);
    MoveShape(s1, s2, w, true);
    TrialPick(s1, w, c, next, root);
    MoveShape(s2, s3, w, true);
    CommitShape(s2, w, c, next, root);
    MoveShape(s3, s4, w, true);
    CommitShape(s3, w, c, next, root);
    hide KnownOp;
  }

  // ---------------------------------------------------------------------------
  // Contexts are used once, and tasks end on purpose
  // ---------------------------------------------------------------------------

  /** Context `x` has been made, and no task has it saved. */
  ghost predicate UsedUp(s: State, x: nat) {
    x < s.nextCtx && forall t :: 0 <= t < |s.tasks| ==> s.tasks[t].ctx != Some(x)
  }

  /** No two tasks have the same context saved, and none has one that was not made yet. */
  ghost predicate CtxsApart(s: State) {
    && (forall t :: 0 <= t < |s.tasks| && s.tasks[t].ctx.Some? ==> s.tasks[t].ctx.value < s.nextCtx)
    && (forall t, u :: 0 <= t < u < |s.tasks| && s.tasks[t].ctx.Some? ==> s.tasks[t].ctx != s.tasks[u].ctx)
  }

  /** What a step may do to the saved contexts: save new ones, and use up others. */
  ghost predicate CtxsMove(s: State, s': State) {
    && |s.tasks| <= |s'.tasks| && s.nextCtx <= s'.nextCtx
    && (forall t :: 0 <= t < |s.tasks| ==>
          s'.tasks[t].ctx == s.tasks[t].ctx || s'.tasks[t].ctx.None? || s.nextCtx <= s'.tasks[t].ctx.value < s'.nextCtx)
    && (forall t :: |s.tasks| <= t < |s'.tasks| ==> s'.tasks[t].ctx.None? || s.nextCtx <= s'.tasks[t].ctx.value < s'.nextCtx)
    && (forall t, u :: 0 <= t < u < |s'.tasks| && NewCtx(s, s', t) && NewCtx(s, s', u) ==> s'.tasks[t].ctx != s'.tasks[u].ctx)
  }

  predicate NewCtx(s: State, s': State, t: nat)
    requires t < |s'.tasks|
  {
    s'.tasks[t].ctx.Some? && s'.tasks[t].ctx.value >= s.nextCtx
  }

  lemma CtxStep(s: State, a: Action)
    requires Enabled(s, a) && CtxsApart(s)
    ensures CtxsMove(s, Apply(s, a))
  {
    if a.Move? {
      CtxMove(s, a.w, a.commit);
      hide StepMove, CtxsMove;
    } else if a.Fork? {
      hide StepMove;
      CtxFork(s, a.w);
      hide CtxsMove;
    } else {
      hide StepMove;
    }
  }

  lemma CtxFork(s: State, w: nat)
    requires Enabled(s, Fork(w)) && CtxsApart(s)
    ensures CtxsMove(s, Apply(s, Fork(w)))
  {
    hide StepMove;
  }

  lemma CtxMove(s: State, w: nat, commit: bool)
    requires w < |s.ws| && KnownOp(s, s.ws[w]) && CtxsApart(s)
    ensures CtxsMove(s, StepMove(s, w, commit))
  {
  }

  lemma CtxsStay(s: State, s': State, x: nat)
    requires CtxsMove(s, s')
    ensures UsedUp(s, x) ==> UsedUp(s', x)
    ensures CtxsApart(s) ==> CtxsApart(s')
  {
  }

  /** A saved context is switched to at most once: no two tasks ever have the same one, and one
      that no task has saved any more never comes back. */
  lemma {:induction false} ContextUsedOnce(run: seq<State>, acts: seq<Action>, j: nat, n: nat, x: nat)
    requires IsRun(run, acts) && j <= n < |run|
    ensures CtxsApart(run[n])
    ensures UsedUp(run[j], x) ==> UsedUp(run[n], x)
  {
    hide IsRun, Enabled, Apply, CtxsApart, CtxsMove, UsedUp;
    RunLength(run, acts);
    if n == 0 {
      CtxsAtFirst(run, acts);
    } else {
      ContextUsedOnce(run, acts, if j < n then j else n - 1, n - 1, x);
      StepOf(run, acts, n - 1);
      CtxStep(run[n - 1], acts[n - 1]);
      CtxsStay(run[n - 1], run[n], x);
    }
  }

  lemma CtxsAtFirst(run: seq<State>, acts: seq<Action>)
    requires IsRun(run, acts)
    ensures |run| > 0 && CtxsApart(run[0])
  {
  }

  /** The step ends task `t`: its own exit, or the inline call of a branch popped back. */
  predicate Ends(s: State, a: Action, t: nat) {
    || (a.Inline? && a.t == t)
    || (a.Move? && a.w < |s.ws| && s.ws[a.w].cur == Some(t) && s.ws[a.w].op.Claimed? && s.ws[a.w].op.goal == Exit)
  }

  lemma EndsStep(s: State, a: Action, t: nat)
    requires Enabled(s, a) && t < |s.tasks| && s.tasks[t].live
    ensures t < |Apply(s, a).tasks| && (Apply(s, a).tasks[t].live <==> !Ends(s, a, t))
  {
  }

  lemma TasksStay(s: State, a: Action)
    requires Enabled(s, a)
    ensures |s.tasks| <= |Apply(s, a).tasks|
  {
  }

  /** A task that is live goes on being live until it exits or is called inline. */
  lemma {:induction false} TasksEndOnPurpose(run: seq<State>, acts: seq<Action>, j: nat, n: nat, t: nat)
    requires IsRun(run, acts) && j <= n < |run| && t < |run[j].tasks| && run[j].tasks[t].live
    ensures |run| == |acts| + 1 && t < |run[n].tasks|
    ensures !run[n].tasks[t].live ==> exists m :: j <= m < n && Ends(run[m], acts[m], t)
  {
    hide IsRun, Enabled, Apply, Ends;
    RunLength(run, acts);
    if j < n {
      TasksEndOnPurpose(run, acts, j, n - 1, t);
      StepOf(run, acts, n - 1);
      TasksStay(run[n - 1], acts[n - 1]);
      if run[n - 1].tasks[t].live { EndsStep(run[n - 1], acts[n - 1], t); }
    }
  }

  /** How many steps a switch has left. */
  function OpLeft(op: Op): nat {
    match op
    case Run => 0
    case Pick(_, _) => 5
    case Trial(_) => 4
    case Claimed(_, _) => 3
    case Cancel(_) => 3
    case Landed(_, _) => 2
    case PutBack(_) => 2
    case Commit => 1
  }

  /** Every switch ends: each step leaves fewer, and the other workers have no part in it.  A switch
      on trial is kept or taken back as its callback decides. */
  lemma SwitchesEnd(run: seq<State>, acts: seq<Action>, n: nat, w: nat)
    requires IsRun(run, acts) && n < |acts| && w < |run[n].ws| && run[n].ws[w].op != Run
    ensures |run| == |acts| + 1 && w < |run[n + 1].ws|
    ensures if acts[n].Move? && acts[n].w == w then OpLeft(run[n + 1].ws[w].op) < OpLeft(run[n].ws[w].op)
            else run[n + 1].ws[w] == run[n].ws[w]
    ensures acts[n].Move? && acts[n].w == w && run[n].ws[w].op.Trial? ==>
              run[n + 1].ws[w].op == (if acts[n].commit then Commit else Cancel(run[n].ws[w].op.prev))
  {
    hide IsRun, StepMove;
    RunLength(run, acts);
    StepOf(run, acts, n);
    if acts[n].Move? { OpShortens(run[n], acts[n].w, acts[n].commit); }
  }

  lemma OpShortens(s: State, w: nat, commit: bool)
    requires w < |s.ws| && KnownOp(s, s.ws[w]) && s.ws[w].op != Run
    ensures var s' := StepMove(s, w, commit);
            && |s'.ws| == |s.ws| && s'.ws == s.ws[w := s'.ws[w]]
            && OpLeft(s'.ws[w].op) < OpLeft(s.ws[w].op)
            && (s.ws[w].op.Trial? ==> s'.ws[w].op == (if commit then Commit else Cancel(s.ws[w].op.prev)))
  {
  }

  // ---------------------------------------------------------------------------
  // A branch called inline
  // ---------------------------------------------------------------------------

  /** A task that is over stays as it is. */
  lemma {:induction false} OverForGood(run: seq<State>, acts: seq<Action>, j: nat, n: nat, t: nat)
    requires IsRun(run, acts) && j <= n < |run| && t < |run[j].tasks| && !run[j].tasks[t].live
    ensures t < |run[n].tasks| && run[n].tasks[t] == run[j].tasks[t]
  {
    hide IsRun, Enabled, Apply, Inv;
    RunLength(run, acts);
    if j < n {
      OverForGood(run, acts, j, n - 1, t);
      StepOf(run, acts, n - 1);
      RunKeeps(run, acts, n - 1);
      OverStep(run[n - 1], acts[n - 1], t);
    }
  }

  lemma HeldLives(s: State, w: nat)
    requires Inv(s) && w < |s.ws|
    ensures forall t: nat :: Has(s.ws[w], t) > 0 ==> t < |s.tasks| && s.tasks[t].live
  {
    hide Inv, Has;
    forall t: nat | Has(s.ws[w], t) > 0 ensures t < |s.tasks| && s.tasks[t].live {
      assert OwnersOk(s) by { InvOwners(s); }
      HasAlone(s, w, t);
    }
  }

  lemma InvOwners(s: State)
    requires Inv(s)
    ensures OwnersOk(s)
  {
  }

  lemma OverStep(s: State, a: Action, t: nat)
    requires Inv(s) && Enabled(s, a) && t < |s.tasks| && !s.tasks[t].live
    ensures t < |Apply(s, a).tasks| && Apply(s, a).tasks[t] == s.tasks[t]
  {
    hide Inv, StepMove;
    match a
    case Move(w, commit) => HeldLives(s, w); OverMove(s, w, commit, t);
    case Fork(w) => HeldLives(s, w); assert Has(s.ws[w], s.ws[w].cur.value) > 0;
    case Inline(_, b) => PoolAlone(s, b);
    case _ =>
  }

  lemma OverMove(s: State, w: nat, commit: bool, t: nat)
    requires w < |s.ws| && KnownOp(s, s.ws[w]) && t < |s.tasks| && !s.tasks[t].live
    requires forall u: nat :: Has(s.ws[w], u) > 0 ==> u < |s.tasks| && s.tasks[u].live
    ensures t < |StepMove(s, w, commit).tasks| && StepMove(s, w, commit).tasks[t] == s.tasks[t]
  {
    assert Has(s.ws[w], t) == 0;
  }

  /** A branch that `parallel_call` pops back and calls inline (step `j`) had never been switched to,
      and never is, nor is it called inline again. */
  lemma InlinedNeverStarts(run: seq<State>, acts: seq<Action>, j: nat, n: nat, t: nat)
    requires IsRun(run, acts) && j < n < |run| && acts[j].Inline? && acts[j].t == t
    ensures |run| == |acts| + 1 && t < |run[j].tasks| && t < |run[n].tasks|
    ensures !run[j].tasks[t].started && !run[n].tasks[t].started && run[n].tasks[t].ctx == run[j].tasks[t].ctx
    ensures n < |acts| ==> !(acts[n].Inline? && acts[n].t == t)
  {
    hide IsRun, OwnersOk, WorkerOk;
    RunLength(run, acts);
    StepOf(run, acts, j);
    RunKeeps(run, acts, j);
    assert TaskOk(run[j], run[j].tasks[t]);
    OverForGood(run, acts, j + 1, n, t);
    if n < |acts| {
      StepOf(run, acts, n);
      RunKeeps(run, acts, n);
      if acts[n].Inline? && acts[n].t == t { PoolAlone(run[n], t); }
    }
  }
}
