/** Scoped fork-join (src/scoped/sync_engine.rs, src/scoped/task.rs): the second branch of a
    `parallel_call` is pushed on the caller's own deque, the first runs inline, and then the
    second is either popped back or waited for while helping with stolen work.

    A pool of workers is a state machine.  One step of one worker is one access to shared
    data (a push, a pop, a steal, taking the closure out of a task, storing its result,
    setting or reading a latch), and any worker may take the next step. */
module ForkJoin {
  import opened Basics
  import opened Folds

  // ---------------------------------------------------------------------------
  // Programs and their sequential meaning
  // ---------------------------------------------------------------------------

  /** A computation over the values its closure captured: return a value, test the captured
      values, or call `parallel_call(a, b)` and go on with both results captured as well. */
  datatype Prog =
    | Give(f: seq<int> -> int)
    | Test(c: seq<int> -> bool, yes: Prog, no: Prog)
    | Par(a: Prog, b: Prog, rest: Prog)

  /** A closure: code and captured values. */
  datatype Closure = Closure(p: Prog, env: seq<int>)

  /** What a closure returns when every `parallel_call` runs its branches one after the other. */
  function Eval(c: Closure): int
    decreases c.p
  {
    match c.p
    case Give(f) => f(c.env)
    case Test(t, yes, no) => if t(c.env) then Eval(Closure(yes, c.env)) else Eval(Closure(no, c.env))
    case Par(a, b, rest) =>
      Eval(Closure(rest, c.env + [Eval(Closure(a, c.env)), Eval(Closure(b, c.env))]))
  }

  /** The continuation of a `parallel_call` whose branches returned `ra` and `rb`. */
  function After(rest: Closure, ra: int, rb: int): Closure {
    Closure(rest.p, rest.env + [ra, rb])
  }

  /** An upper bound on the steps, other than empty spins, that running a closure can take. */
  function Cost(c: Closure): nat
    decreases c.p
  {
    match c.p
    case Give(_) => 2
    case Test(t, yes, no) => 1 + (if t(c.env) then Cost(Closure(yes, c.env)) else Cost(Closure(no, c.env)))
    case Par(a, b, rest) =>
      13 + Cost(Closure(a, c.env)) + Cost(Closure(b, c.env))
      + Cost(Closure(rest, c.env + [Eval(Closure(a, c.env)), Eval(Closure(b, c.env))]))
  }

  // ---------------------------------------------------------------------------
  // Pool state
  // ---------------------------------------------------------------------------

  /** A `StackTask`: the closure until someone takes it, the result once stored, the latch.
      `body`, `inlined` and `taken` are history: the closure it was made from, whether its own
      caller popped it back, and how often the closure was taken. */
  datatype Task = Task(func: Option<Closure>, result: Option<int>, latch: bool,
                       body: Closure, inlined: bool, taken: nat)

  /** A native stack frame, waiting for what runs above it. */
  datatype Frame =
    /** Inside `parallel_call`: `a()` runs above; task `id` (the branch `b`) has been pushed. */
    | First(id: nat, a: Closure, b: Closure, rest: Closure)
    /** Inside `parallel_call`: the branch was popped back and runs inline above. */
    | Inline(ra: int, b: Closure, rest: Closure)
    /** Inside `parallel_call`: the branch was stolen; helping until its latch is set. */
    | Wait(id: nat, ra: int, b: Closure, rest: Closure)
    /** Inside `execute_trampoline` of task `id`, whose closure `b` runs above. */
    | Exec(id: nat, b: Closure)

  /** What a worker does at the top of its stack. */
  datatype Control =
    | Idle                  // the worker loop, nothing on the stack
    | Run(c: Closure)       // running a closure
    | Ret(v: int)           // a closure has just returned `v`
    | Loop                  // the help loop of the `Wait` frame on top
    | Hold(id: nat)         // took a task reference and will execute it
    | Publish(id: nat)      // stored the task's result, latch not yet set
    | Collect               // the root task is over, its result not yet taken

  datatype Worker = Worker(frames: seq<Frame>, ctl: Control, deque: seq<nat>)

  /** `answer` is what `run` returns.  `panicked` records that one of the three `expect`s of
      `StackTask` failed, `putBack` that the put-back arm of `parallel_call` was taken. */
  datatype State = State(ws: seq<Worker>, tasks: seq<Task>, answer: Option<int>,
                         panicked: bool, putBack: bool)

  /** `run(n, root)`: worker 0 is about to execute the root task, nobody else has anything. */
  ghost predicate Init(s: State, root: Closure) {
    && |s.ws| > 0
    && s.ws[0] == Worker([], Hold(0), [])
    && (forall w :: 1 <= w < |s.ws| ==> s.ws[w] == Worker([], Idle, []))
    && s.tasks == [Task(Some(root), None, false, root, false, 0)]
    && s.answer == None && !s.panicked && !s.putBack
  }

  // ---------------------------------------------------------------------------
  // Steps
  // ---------------------------------------------------------------------------

  datatype Action =
    | Local(w: nat)               // the step worker `w`'s control is at
    | PopOwn(w: nat)              // an idle or helping worker pops its own deque
    | Steal(w: nat, victim: nat)  // an idle or helping worker takes the victim's oldest task
    | Spin(w: nat)                // it found nothing, or lost a race

  predicate Searching(k: Worker) { k.ctl == Idle || k.ctl == Loop }

  predicate Enabled(s: State, a: Action) {
    && a.w < |s.ws|
    && match a
       case Local(w) => LocalEnabled(s, w)
       case PopOwn(w) => Searching(s.ws[w]) && s.ws[w].deque != []
       case Steal(w, v) => Searching(s.ws[w]) && v < |s.ws| && v != w && s.ws[v].deque != []
       case Spin(w) => Searching(s.ws[w])
  }

  predicate LocalEnabled(s: State, w: nat)
    requires w < |s.ws|
  {
    var k := s.ws[w];
    match k.ctl
    case Idle => false
    case Run(_) => true
    case Ret(_) => k.frames != [] && !k.frames[|k.frames| - 1].Wait?
    case Loop =>
      && k.frames != [] && k.frames[|k.frames| - 1].Wait?
      && k.frames[|k.frames| - 1].id < |s.tasks|
      && s.tasks[k.frames[|k.frames| - 1].id].latch
    case Hold(id) => id < |s.tasks|
    case Publish(id) => id < |s.tasks|
    case Collect => |s.tasks| > 0
  }

  function Put(s: State, w: nat, k: Worker): State
    requires w < |s.ws|
  {
    s.(ws := s.ws[w := k])
  }

  function Panic(s: State): State { s.(panicked := true) }

  function Apply(s: State, a: Action): State
    requires Enabled(s, a)
  {
    match a
    case Local(w) => ApplyLocal(s, w)
    case PopOwn(w) =>
      var k := s.ws[w];
      var n := |k.deque| - 1;
      Put(s, w, k.(deque := k.deque[..n], ctl := Hold(k.deque[n])))
    case Steal(w, v) =>
      var victim := s.ws[v];
      var s1 := Put(s, v, victim.(deque := victim.deque[1..]));
      Put(s1, w, s1.ws[w].(ctl := Hold(victim.deque[0])))
    case Spin(_) => s
  }

  function ApplyLocal(s: State, w: nat): State
    requires w < |s.ws| && LocalEnabled(s, w)
  {
    var k := s.ws[w];
    match k.ctl
    case Run(c) => StepRun(s, w, c)
    case Ret(v) => StepReturn(s, w, v)
    case Loop => StepJoin(s, w)
    case Hold(id) => StepExecute(s, w, id)
    case Publish(id) => StepPublish(s, w, id)
    case Collect => StepCollect(s, w)
    case Idle => s
  }

  /** Run the closure up to its value, its test or its `parallel_call`; the latter makes a
      `StackTask` for the second branch, pushes it and starts the first branch. */
  function StepRun(s: State, w: nat, c: Closure): State
    requires w < |s.ws|
  {
    var k := s.ws[w];
    match c.p
    case Give(f) => Put(s, w, k.(ctl := Ret(f(c.env))))
    case Test(t, yes, no) => Put(s, w, k.(ctl := Run(Closure(if t(c.env) then yes else no, c.env))))
    case Par(a, b, rest) =>
      var id := |s.tasks|;
      var ca, cb := Closure(a, c.env), Closure(b, c.env);
      var k1 := Worker(k.frames + [First(id, ca, cb, Closure(rest, c.env))], Run(ca), k.deque + [id]);
      Put(s.(tasks := s.tasks + [Task(Some(cb), None, false, cb, false, 0)]), w, k1)
  }

  /** A closure returned into the frame below it. */
  function StepReturn(s: State, w: nat, v: int): State
    requires w < |s.ws| && s.ws[w].frames != []
  {
    var k := s.ws[w];
    var n := |k.frames| - 1;
    var below := k.frames[..n];
    match k.frames[n]
    case First(id, _, b, rest) => StepPopBack(s, w, v)
    case Inline(ra, _, rest) => Put(s, w, k.(frames := below, ctl := Run(After(rest, ra, v))))
    case Exec(id, _) =>
      if id < |s.tasks| then
        Put(s.(tasks := s.tasks[id := s.tasks[id].(result := Some(v))]), w,
            k.(frames := below, ctl := Publish(id)))
      else s
    case Wait(_, _, _, _) => s
  }

  /** `a()` returned `v`: the pop of `parallel_call` and its three outcomes. */
  function StepPopBack(s: State, w: nat, v: int): State
    requires w < |s.ws| && s.ws[w].frames != [] && s.ws[w].frames[|s.ws[w].frames| - 1].First?
  {
    var k := s.ws[w];
    var n := |k.frames| - 1;
    var top := k.frames[n];
    var waiting := k.frames[..n] + [Wait(top.id, v, top.b, top.rest)];
    if k.deque == [] then
      Put(s, w, k.(frames := waiting, ctl := Loop))
    else
      var m := |k.deque| - 1;
      var popped := k.deque[m];
      if popped == top.id && popped < |s.tasks| then
        var t := s.tasks[popped];
        if t.func.None? then Panic(s) else
        var k1 := Worker(k.frames[..n] + [Inline(v, top.b, top.rest)], Run(t.func.value), k.deque[..m]);
        Put(s.(tasks := s.tasks[popped := t.(func := None, inlined := true, taken := t.taken + 1)]), w, k1)
      else
        // put the other task back, then wait
        Put(s, w, k.(frames := waiting, ctl := Loop)).(putBack := true)
  }

  /** The latch is set: take the result and leave `parallel_call`. */
  function StepJoin(s: State, w: nat): State
    requires w < |s.ws| && LocalEnabled(s, w) && s.ws[w].ctl.Loop?
  {
    var k := s.ws[w];
    var n := |k.frames| - 1;
    var top := k.frames[n];
    var t := s.tasks[top.id];
    if t.result.None? then Panic(s) else
    Put(s.(tasks := s.tasks[top.id := t.(result := None)]), w,
        k.(frames := k.frames[..n], ctl := Run(After(top.rest, top.ra, t.result.value))))
  }

  /** `execute_trampoline` takes the closure. */
  function StepExecute(s: State, w: nat, id: nat): State
    requires w < |s.ws| && id < |s.tasks|
  {
    var k := s.ws[w];
    var t := s.tasks[id];
    if t.func.None? then Panic(s) else
    Put(s.(tasks := s.tasks[id := t.(func := None, taken := t.taken + 1)]), w,
        k.(frames := k.frames + [Exec(id, t.func.value)], ctl := Run(t.func.value)))
  }

  /** The latch is set after the result was stored; control returns to whoever ran the task. */
  function StepPublish(s: State, w: nat, id: nat): State
    requires w < |s.ws| && id < |s.tasks|
  {
    var k := s.ws[w];
    Put(s.(tasks := s.tasks[id := s.tasks[id].(latch := true)]), w,
        k.(ctl := if k.frames != [] then Loop else if id == 0 then Collect else Idle))
  }

  function StepCollect(s: State, w: nat): State
    requires w < |s.ws| && |s.tasks| > 0
  {
    var t := s.tasks[0];
    if t.result.None? then Panic(s) else
    Put(s.(tasks := s.tasks[0 := t.(result := None)], answer := t.result), w, s.ws[w].(ctl := Idle))
  }

  // ---------------------------------------------------------------------------
  // Inductive invariant
  // ---------------------------------------------------------------------------

  // (1) Values: every value on its way down a stack is the one sequential execution returns.

  /** The value a frame waits for from above (not meaningful for `Wait`, which waits for a latch). */
  function Awaits(f: Frame): int {
    match f
    case First(_, a, _, _) => Eval(a)
    case Inline(_, b, _) => Eval(b)
    case Exec(_, b) => Eval(b)
    case Wait(_, _, b, _) => Eval(b)
  }

  /** The value a `parallel_call` frame's caller finally computes. */
  function Yields(f: Frame): int {
    match f
    case First(_, a, b, rest) => Eval(After(rest, Eval(a), Eval(b)))
    case Inline(ra, b, rest) => Eval(After(rest, ra, Eval(b)))
    case Wait(_, ra, b, rest) => Eval(After(rest, ra, Eval(b)))
    case Exec(_, b) => Eval(b)
  }

  /** `f` may stand directly on `g`: a `parallel_call` inside the code `g` runs, or a task
      executed by a helping `g`. */
  predicate Stands(f: Frame, g: Frame) {
    if f.Exec? then g.Wait? else !g.Wait? && Yields(f) == Awaits(g)
  }

  ghost predicate StackOk(fs: seq<Frame>) {
    && (fs != [] ==> fs[0].Exec?)
    && (forall i :: 0 < i < |fs| ==> Stands(fs[i], fs[i - 1]))
  }

  ghost predicate ControlOk(k: Worker) {
    match k.ctl
    case Run(c) => k.frames != [] && !Top(k).Wait? && Eval(c) == Awaits(Top(k))
    case Ret(v) => k.frames != [] && !Top(k).Wait? && v == Awaits(Top(k))
    case Loop => k.frames != [] && Top(k).Wait?
    case Hold(_) => k.frames != [] ==> Top(k).Wait?
    case Publish(_) => k.frames != [] ==> Top(k).Wait?
    case Idle => k.frames == []
    case Collect => k.frames == []
  }

  function Top(k: Worker): Frame
    requires k.frames != []
  {
    k.frames[|k.frames| - 1]
  }

  // (2) Shape of a deque: the newest-end suffix of the branches pushed by the worker's own
  // frames since it last started waiting.

  /** The branches pushed by the `parallel_call`s that still run their first branch, oldest
      first, above the topmost waiting frame. */
  function Pushed(fs: seq<Frame>): seq<nat> {
    if fs == [] then [] else
    var n := |fs| - 1;
    match fs[n]
    case Wait(_, _, _, _) => []
    case First(id, _, _, _) => Pushed(fs[..n]) + [id]
    case _ => Pushed(fs[..n])
  }

  predicate Suffix<T(==)>(a: seq<T>, b: seq<T>) {
    |a| <= |b| && a == b[|b| - |a|..]
  }

  ghost predicate DequeOk(k: Worker) {
    Suffix(k.deque, Pushed(k.frames))
  }

  // (3) Token counts.

  /** Task references a worker could still execute: its deque and its hand. */
  function RefsOf(k: Worker): multiset<nat> {
    multiset(k.deque) + (if k.ctl.Hold? then multiset{k.ctl.id} else multiset{})
  }

  /** Tasks whose closure a worker has taken and not yet published. */
  function RunsOf(k: Worker): multiset<nat> {
    Executing(k.frames) + (if k.ctl.Publish? then multiset{k.ctl.id} else multiset{})
  }

  function Executing(fs: seq<Frame>): multiset<nat> {
    if fs == [] then multiset{} else
    var n := |fs| - 1;
    Executing(fs[..n]) + (if fs[n].Exec? then multiset{fs[n].id} else multiset{})
  }

  /** Tasks that live in one of the worker's frames and have not been joined. */
  function JoinsOf(k: Worker): multiset<nat> { Joining(k.frames) }

  function Joining(fs: seq<Frame>): multiset<nat> {
    if fs == [] then multiset{} else
    var n := |fs| - 1;
    Joining(fs[..n]) + (if fs[n].First? || fs[n].Wait? then multiset{fs[n].id} else multiset{})
  }

  function Refs(s: State): multiset<nat> { Bag(s.ws, RefsOf) }

  function Runs(s: State): multiset<nat> { Bag(s.ws, RunsOf) }

  function Joins(s: State): multiset<nat> { Bag(s.ws, JoinsOf) }

  /** A task is queued or in a hand (`refs`) until its closure is taken, then executing (`runs`)
      until its latch is set, and its caller's frame is on some stack (`joins`) until the result
      is taken or the branch was popped back. */
  ghost predicate TaskOk(t: Task, isRoot: bool, refs: nat, runs: nat, joins: nat) {
    && refs == One(t.func.Some?)
    && runs == One(t.func.None? && !t.inlined && !t.latch)
    && joins == One(!isRoot && !t.inlined && !(t.latch && t.result.None?))
    && t.taken == One(t.func.None?)
    && (t.func.Some? ==> t.func == Some(t.body) && t.result.None? && !t.latch && !t.inlined)
    && (t.inlined ==> t.result.None? && !t.latch)
    && (t.result.Some? ==> t.result == Some(Eval(t.body)))
  }

  ghost predicate TaskAt(s: State, id: nat)
    requires id < |s.tasks|
  {
    TaskOk(s.tasks[id], id == 0, Refs(s)[id], Runs(s)[id], Joins(s)[id])
  }

  ghost predicate TasksOk(s: State) {
    && |s.tasks| > 0
    && (forall id :: 0 <= id < |s.tasks| ==> TaskAt(s, id))
    && (forall id: nat :: id >= |s.tasks| ==> id !in Refs(s) && id !in Runs(s) && id !in Joins(s))
  }

  // (4) Frames agree with the tasks they name, and a branch is created after every task its
  // worker was executing below.

  ghost predicate FrameOk(s: State, f: Frame) {
    !f.Inline? ==> f.id < |s.tasks| && f.b == s.tasks[f.id].body
  }

  ghost predicate FramesOk(s: State, fs: seq<Frame>) {
    && (forall i :: 0 <= i < |fs| ==> FrameOk(s, fs[i]))
    && (forall i, j :: 0 <= i < j < |fs| && fs[i].Exec? && (fs[j].First? || fs[j].Wait?) ==> fs[i].id < fs[j].id)
  }

  ghost predicate PublishOk(s: State, k: Worker) {
    k.ctl.Publish? ==> k.ctl.id < |s.tasks| && s.tasks[k.ctl.id].result.Some?
  }

  ghost predicate WorkerOk(s: State, k: Worker) {
    && StackOk(k.frames) && ControlOk(k) && DequeOk(k) && FramesOk(s, k.frames) && PublishOk(s, k)
  }

  // (5) The root task stays at the bottom of worker 0's stack until the answer is there.

  ghost predicate RootOk(s: State) {
    && |s.ws| > 0
    && (forall w :: 0 < w < |s.ws| ==> s.ws[w].ctl != Collect)
    && (s.ws[0].ctl == Collect ==> s.tasks != [] && s.tasks[0].latch && s.tasks[0].result.Some?)
    && match s.answer
       case None =>
         var k := s.ws[0];
         if k.frames == [] then k.ctl in {Hold(0), Publish(0), Collect} else k.frames[0].Exec? && k.frames[0].id == 0
       case Some(v) =>
         && s.ws[0].ctl != Collect && s.tasks != []
         && s.tasks[0].latch && s.tasks[0].result.None? && v == Eval(s.tasks[0].body)
  }

  ghost predicate Inv(s: State) {
    && !s.panicked && !s.putBack
    && TasksOk(s)
    && (forall w :: 0 <= w < |s.ws| ==> WorkerOk(s, s.ws[w]))
    && RootOk(s)
  }

  // ---------------------------------------------------------------------------
  // Preservation
  // ---------------------------------------------------------------------------

  lemma PushFrame(fs: seq<Frame>, f: Frame)
    ensures Executing(fs + [f]) == Executing(fs) + (if f.Exec? then multiset{f.id} else multiset{})
    ensures Joining(fs + [f]) == Joining(fs) + (if f.First? || f.Wait? then multiset{f.id} else multiset{})
    ensures Pushed(fs + [f]) ==
            if f.Wait? then [] else if f.First? then Pushed(fs) + [f.id] else Pushed(fs)
  {
    assert (fs + [f])[..|fs|] == fs;
  }

  /** Replacing worker `w` changes the three totals by what that worker's holdings change. */
  lemma Totals(s: State, s': State, w: nat)
    requires w < |s.ws| == |s'.ws| && s'.ws == s.ws[w := s'.ws[w]]
    ensures Refs(s') + RefsOf(s.ws[w]) == Refs(s) + RefsOf(s'.ws[w])
    ensures Runs(s') + RunsOf(s.ws[w]) == Runs(s) + RunsOf(s'.ws[w])
    ensures Joins(s') + JoinsOf(s.ws[w]) == Joins(s) + JoinsOf(s'.ws[w])
  {
    BagUpdate(s.ws, w, s'.ws[w], RefsOf);
    BagUpdate(s.ws, w, s'.ws[w], RunsOf);
    BagUpdate(s.ws, w, s'.ws[w], JoinsOf);
  }

  /** A step may add tasks and change their state, never which closure they were made from. */
  ghost predicate Grows(s: State, s': State) {
    && |s.tasks| <= |s'.tasks|
    && (forall id :: 0 <= id < |s.tasks| ==> s'.tasks[id].body == s.tasks[id].body)
  }

  lemma FramesStay(s: State, s': State, fs: seq<Frame>)
    requires Grows(s, s') && FramesOk(s, fs)
    ensures FramesOk(s', fs)
  {
    forall i | 0 <= i < |fs| ensures FrameOk(s', fs[i]) {
      assert FrameOk(s, fs[i]);
    }
  }

  /** The workers that did not move stay consistent with the tasks. */
  lemma OthersStay(s: State, s': State, w: nat)
    requires w < |s.ws| && |s'.ws| == |s.ws| && Grows(s, s')
    requires forall v :: 0 <= v < |s.ws| ==> WorkerOk(s, s.ws[v])
    requires forall v :: 0 <= v < |s.ws| && v != w ==> s'.ws[v] == s.ws[v] && PublishOk(s', s.ws[v])
    requires WorkerOk(s', s'.ws[w])
    ensures forall v :: 0 <= v < |s'.ws| ==> WorkerOk(s', s'.ws[v])
  {
    forall v | 0 <= v < |s'.ws| ensures WorkerOk(s', s'.ws[v]) {
      if v != w {
        FramesStay(s, s', s.ws[v].frames);
      }
    }
  }

  /** Two multisets that agree except perhaps at `id`. */
  ghost predicate Same(m: multiset<nat>, m': multiset<nat>, id: nat) {
    forall x: nat :: x != id ==> m[x] == m'[x]
  }

  lemma SameTotals(a: multiset<nat>, a': multiset<nat>, h: multiset<nat>, h': multiset<nat>, id: nat)
    requires a' + h == a + h' && Same(h, h', id)
    ensures Same(a, a', id)
    ensures a'[id] + h[id] == a[id] + h'[id]
  {
    forall x: nat | x != id ensures a[x] == a'[x] {
      assert (a' + h)[x] == (a + h')[x];
    }
    assert (a' + h)[id] == (a + h')[id];
  }

  /** A step of worker `w` that touches task `id` only leaves every other task's totals alone
      and moves those of `id` by the difference of the worker's holdings. */
  lemma OneTask(s: State, s': State, w: nat, id: nat)
    requires w < |s.ws| == |s'.ws| && s'.ws == s.ws[w := s'.ws[w]]
    requires Same(RefsOf(s.ws[w]), RefsOf(s'.ws[w]), id)
    requires Same(RunsOf(s.ws[w]), RunsOf(s'.ws[w]), id)
    requires Same(JoinsOf(s.ws[w]), JoinsOf(s'.ws[w]), id)
    ensures Same(Refs(s), Refs(s'), id) && Same(Runs(s), Runs(s'), id) && Same(Joins(s), Joins(s'), id)
    ensures Refs(s')[id] + RefsOf(s.ws[w])[id] == Refs(s)[id] + RefsOf(s'.ws[w])[id]
    ensures Runs(s')[id] + RunsOf(s.ws[w])[id] == Runs(s)[id] + RunsOf(s'.ws[w])[id]
    ensures Joins(s')[id] + JoinsOf(s.ws[w])[id] == Joins(s)[id] + JoinsOf(s'.ws[w])[id]
  {
    Totals(s, s', w);
    SameTotals(Refs(s), Refs(s'), RefsOf(s.ws[w]), RefsOf(s'.ws[w]), id);
    SameTotals(Runs(s), Runs(s'), RunsOf(s.ws[w]), RunsOf(s'.ws[w]), id);
    SameTotals(Joins(s), Joins(s'), JoinsOf(s.ws[w]), JoinsOf(s'.ws[w]), id);
  }

  lemma TasksStay(s: State, s': State, id: nat)
    requires TasksOk(s) && id < |s.tasks| == |s'.tasks|
    requires s'.tasks == s.tasks[id := s'.tasks[id]]
    requires Same(Refs(s), Refs(s'), id) && Same(Runs(s), Runs(s'), id) && Same(Joins(s), Joins(s'), id)
    requires TaskAt(s', id)
    ensures TasksOk(s')
  {
    forall x: nat | x < |s'.tasks| ensures TaskAt(s', x) {
      if x != id {
        assert TaskAt(s, x);
      }
    }
  }

  /** Worker `w` steps on task `id`: it is enough that the task's new state fits the totals
      corrected by what the worker gained and lost. */
  lemma TaskStep(s: State, s': State, w: nat, id: nat, refs: int, runs: int, joins: int)
    requires TasksOk(s) && w < |s.ws| == |s'.ws| && s'.ws == s.ws[w := s'.ws[w]]
    requires id < |s.tasks| == |s'.tasks| && s'.tasks == s.tasks[id := s'.tasks[id]]
    requires Same(RefsOf(s.ws[w]), RefsOf(s'.ws[w]), id)
    requires Same(RunsOf(s.ws[w]), RunsOf(s'.ws[w]), id)
    requires Same(JoinsOf(s.ws[w]), JoinsOf(s'.ws[w]), id)
    requires RefsOf(s'.ws[w])[id] == RefsOf(s.ws[w])[id] + refs
    requires RunsOf(s'.ws[w])[id] == RunsOf(s.ws[w])[id] + runs
    requires JoinsOf(s'.ws[w])[id] == JoinsOf(s.ws[w])[id] + joins
    requires var t' := s'.tasks[id];
             Refs(s)[id] + refs >= 0 && Runs(s)[id] + runs >= 0 && Joins(s)[id] + joins >= 0 ==>
             TaskOk(t', id == 0, Refs(s)[id] + refs, Runs(s)[id] + runs, Joins(s)[id] + joins)
    ensures TasksOk(s')
  {
    OneTask(s, s', w, id);
    TasksStay(s, s', id);
  }

  lemma {:induction false} ExecIn(fs: seq<Frame>, i: nat)
    requires i < |fs| && fs[i].Exec?
    ensures fs[i].id in Executing(fs)
  {
    if i < |fs| - 1 {
      ExecIn(fs[..|fs| - 1], i);
    }
  }

  lemma {:induction false} ExecWhere(fs: seq<Frame>, id: nat) returns (i: nat)
    requires id in Executing(fs)
    ensures i < |fs| && fs[i].Exec? && fs[i].id == id
  {
    var n := |fs| - 1;
    if fs[n].Exec? && fs[n].id == id {
      i := n;
    } else {
      i := ExecWhere(fs[..n], id);
    }
  }

  /** All of the invariant after a step of worker `w`, from what the step did locally. */
  lemma Assemble(s: State, s': State, w: nat)
    requires Inv(s) && w < |s.ws| == |s'.ws| && s'.ws == s.ws[w := s'.ws[w]]
    requires Grows(s, s') && TasksOk(s') && WorkerOk(s', s'.ws[w]) && RootOk(s')
    requires forall v :: 0 <= v < |s.ws| && v != w ==> PublishOk(s', s.ws[v])
    requires !s'.panicked && !s'.putBack
    ensures Inv(s')
  {
    OthersStay(s, s', w);
  }

  /** Steps above the bottom frame of a stack do not concern the root task. */
  lemma RootKept(s: State, s': State, w: nat)
    requires RootOk(s) && w < |s.ws| == |s'.ws| && s'.ws == s.ws[w := s'.ws[w]] && s'.answer == s.answer
    requires |s.tasks| > 0 && |s'.tasks| > 0 && s'.tasks[0].body == s.tasks[0].body
    requires s'.tasks[0].latch == s.tasks[0].latch && s'.tasks[0].result == s.tasks[0].result
    requires s.ws[w].ctl != Collect && s'.ws[w].ctl != Collect
    requires s'.ws[w].frames != []
    requires if s.ws[w].frames != [] then s'.ws[w].frames[0] == s.ws[w].frames[0]
             else s.ws[w].ctl.Hold? && s'.ws[w].frames[0].Exec? && s'.ws[w].frames[0].id == s.ws[w].ctl.id
    ensures RootOk(s')
  {
  }

  /** Steps that move no token: same tasks, same holdings. */
  lemma Quiet(s: State, s': State, w: nat)
    requires Inv(s) && w < |s.ws| == |s'.ws| && s'.ws == s.ws[w := s'.ws[w]] && s'.tasks == s.tasks
    requires RefsOf(s'.ws[w]) == RefsOf(s.ws[w])
    requires RunsOf(s'.ws[w]) == RunsOf(s.ws[w])
    requires JoinsOf(s'.ws[w]) == JoinsOf(s.ws[w])
    ensures TasksOk(s')
  {
    hide Bag, RefsOf, RunsOf, JoinsOf, TaskOk, WorkerOk, RootOk;
    OneTask(s, s', w, 0);
    assert TaskAt(s, 0);
    TasksStay(s, s', 0);
  }

  lemma RunLocalKeeps(s: State, w: nat, c: Closure)
    requires Inv(s) && w < |s.ws| && s.ws[w].ctl == Run(c) && !c.p.Par?
    ensures Inv(StepRun(s, w, c))
  {
    hide Bag, TaskOk, RootOk, Pushed, Joining, Executing;
    var s' := StepRun(s, w, c);
    assert WorkerOk(s, s.ws[w]);
    Quiet(s, s', w);
    RootKept(s, s', w);
    Assemble(s, s', w);
  }

  lemma ForkKeepsTasks(s: State, w: nat, c: Closure)
    requires Inv(s) && w < |s.ws| && s.ws[w].ctl == Run(c) && c.p.Par?
    ensures TasksOk(StepRun(s, w, c))
  {
    hide Bag, WorkerOk, RootOk, Executing, Joining, Pushed;
    var s' := StepRun(s, w, c);
    var id := |s.tasks|;
    var k, k' := s.ws[w], s'.ws[w];
    PushFrame(k.frames, k'.frames[|k.frames|]);
    assert k'.frames == k.frames + [k'.frames[|k.frames|]];
    OneTask(s, s', w, id);
    forall x: nat | x < |s'.tasks| ensures TaskAt(s', x) {
      if x != id {
        assert TaskAt(s, x);
      } else {
        BagAt(s.ws, w, RefsOf, id);
        BagAt(s.ws, w, RunsOf, id);
        BagAt(s.ws, w, JoinsOf, id);
      }
    }
  }

  /** Every task executing below is older than task `id`. */
  ghost predicate Younger(fs: seq<Frame>, id: nat) {
    forall i :: 0 <= i < |fs| && fs[i].Exec? ==> fs[i].id < id
  }

  lemma PushOk(s: State, fs: seq<Frame>, f: Frame)
    requires StackOk(fs) && FramesOk(s, fs) && FrameOk(s, f)
    requires if fs == [] then f.Exec? else Stands(f, fs[|fs| - 1])
    requires f.First? || f.Wait? ==> Younger(fs, f.id)
    ensures StackOk(fs + [f]) && FramesOk(s, fs + [f])
  {
    var gs := fs + [f];
    forall i | 0 <= i < |gs| ensures FrameOk(s, gs[i]) {
      if i < |fs| { assert FrameOk(s, fs[i]); }
    }
    forall i | 0 < i < |gs| ensures Stands(gs[i], gs[i - 1]) {
      if i < |fs| { assert Stands(fs[i], fs[i - 1]); }
    }
  }

  lemma PopOk(s: State, fs: seq<Frame>, n: nat)
    requires StackOk(fs) && FramesOk(s, fs) && n <= |fs|
    ensures StackOk(fs[..n]) && FramesOk(s, fs[..n])
    ensures 0 < n < |fs| ==> Stands(fs[n], fs[n - 1])
    ensures n < |fs| && (fs[n].First? || fs[n].Wait?) ==> Younger(fs[..n], fs[n].id)
    ensures n < |fs| ==> FrameOk(s, fs[n])
    ensures n == 0 && fs != [] ==> fs[0].Exec?
  {
    forall i | 0 <= i < n ensures FrameOk(s, fs[..n][i]) {
      assert FrameOk(s, fs[i]);
    }
    forall i | 0 < i < n ensures Stands(fs[..n][i], fs[..n][i - 1]) {
      assert Stands(fs[i], fs[i - 1]);
    }
  }

  lemma AllYounger(s: State, fs: seq<Frame>)
    requires FramesOk(s, fs)
    ensures Younger(fs, |s.tasks|)
  {
    forall i | 0 <= i < |fs| && fs[i].Exec? ensures fs[i].id < |s.tasks| {
      assert FrameOk(s, fs[i]);
    }
  }

  lemma ForkKeeps(s: State, w: nat, c: Closure)
    requires Inv(s) && w < |s.ws| && s.ws[w].ctl == Run(c) && c.p.Par?
    ensures Inv(StepRun(s, w, c))
  {
    hide Bag, RootOk, TasksOk, FramesOk, Suffix;
    var s' := StepRun(s, w, c);
    var k, k' := s.ws[w], s'.ws[w];
    assert WorkerOk(s, k);
    TasksExist(s);
    var f := k'.frames[|k.frames|];
    assert k'.frames == k.frames + [f];
    AllYounger(s, k.frames);
    FramesStay(s, s', k.frames);
    PushOk(s', k.frames, f);
    PushFrame(k.frames, f);
    SuffixPush(k.deque, Pushed(k.frames), f.id);
    ForkKeepsTasks(s, w, c);
    RootKept(s, s', w);
    Assemble(s, s', w);
  }

  lemma SuffixPush<T>(a: seq<T>, b: seq<T>, x: T)
    requires Suffix(a, b)
    ensures Suffix(a + [x], b + [x])
  {
    assert (b + [x])[|b| - |a|..] == b[|b| - |a|..] + [x];
  }

  /** Dropping the newest element of both. */
  lemma SuffixPop<T>(a: seq<T>, b: seq<T>, x: T)
    requires Suffix(a, b + [x]) && a != []
    ensures a[|a| - 1] == x && Suffix(a[..|a| - 1], b)
  {
    var n := |a| - 1;
    assert a[..n] == (b + [x])[|b| - n..|b|] == b[|b| - n..];
  }

  /** Dropping the oldest element of the suffix. */
  lemma SuffixDrop<T>(a: seq<T>, b: seq<T>)
    requires Suffix(a, b) && a != []
    ensures Suffix(a[1..], b)
  {
    assert a[1..] == b[|b| - |a|..][1..] == b[|b| - |a| + 1..];
  }

  lemma WaitKeeps(s: State, w: nat, v: int)
    requires Inv(s) && w < |s.ws| && s.ws[w].ctl == Ret(v)
    requires s.ws[w].frames != [] && Top(s.ws[w]).First? && s.ws[w].deque == []
    ensures Inv(StepPopBack(s, w, v))
  {
    hide Bag, TaskOk, RootOk;
    var s' := StepPopBack(s, w, v);
    var k, k' := s.ws[w], s'.ws[w];
    assert WorkerOk(s, k);
    var n := |k.frames| - 1;
    PopOk(s, k.frames, n);
    var below, f := k.frames[..n], k'.frames[n];
    assert k'.frames == below + [f];
    PushOk(s, below, f);
    PushFrame(below, f);
    Quiet(s, s', w);
    FramesStay(s, s', k'.frames);
    RootKept(s, s', w);
    Assemble(s, s', w);
  }

  lemma DequeLast(d: seq<nat>)
    requires d != []
    ensures multiset(d) == multiset(d[..|d| - 1]) + multiset{d[|d| - 1]}
  {
    assert d == d[..|d| - 1] + [d[|d| - 1]];
  }

  lemma DequeFirst(d: seq<nat>)
    requires d != []
    ensures multiset(d) == multiset(d[1..]) + multiset{d[0]}
  {
    assert d == [d[0]] + d[1..];
  }

  /** After `a()`, the deque is empty or its newest entry is this call's own branch: the pop
      never yields another task, so the put-back arm of `parallel_call` is dead, and the branch
      it yields has not been taken by anyone. */
  lemma PopYieldsOwnBranchOrNothing(s: State, w: nat)
    requires Inv(s) && w < |s.ws| && s.ws[w].ctl.Ret? && s.ws[w].frames != [] && Top(s.ws[w]).First?
    ensures var k := s.ws[w];
            k.deque == [] ||
            (k.deque[|k.deque| - 1] == Top(k).id && Top(k).id < |s.tasks|
             && s.tasks[Top(k).id].func == Some(Top(k).b))
  {
    var k := s.ws[w];
    assert WorkerOk(s, k);
    var n := |k.frames| - 1;
    var id := Top(k).id;
    assert FrameOk(s, k.frames[n]);
    if k.deque != [] {
      SuffixPop(k.deque, Pushed(k.frames[..n]), id);
      DequeLast(k.deque);
      BagAt(s.ws, w, RefsOf, id);
      assert TaskAt(s, id);
    }
  }

  /** The branch came back: its closure leaves the task and runs inline. */
  function PoppedBack(s: State, w: nat, v: int, id: nat): State
    requires w < |s.ws| && s.ws[w].frames != [] && s.ws[w].deque != [] && Top(s.ws[w]).First?
    requires id < |s.tasks|
  {
    var k, t := s.ws[w], s.tasks[id];
    var below := k.frames[..|k.frames| - 1];
    Put(s.(tasks := s.tasks[id := t.(func := None, inlined := true, taken := t.taken + 1)]), w,
        Worker(below + [Inline(v, Top(k).b, Top(k).rest)], Run(Top(k).b), k.deque[..|k.deque| - 1]))
  }

  lemma InlineHoldings(k: Worker, k': Worker, f: Frame)
    requires k.frames != [] && Top(k).First? && k.deque != [] && k.ctl.Ret? && k'.ctl.Run? && f.Inline?
    requires k'.frames == k.frames[..|k.frames| - 1] + [f] && k'.deque == k.deque[..|k.deque| - 1]
    requires k.deque[|k.deque| - 1] == Top(k).id
    ensures RefsOf(k') == RefsOf(k) - multiset{Top(k).id} && Top(k).id in RefsOf(k)
    ensures RunsOf(k') == RunsOf(k)
    ensures JoinsOf(k') == JoinsOf(k) - multiset{Top(k).id} && Top(k).id in JoinsOf(k)
  {
    PushFrame(k.frames[..|k.frames| - 1], f);
    DequeLast(k.deque);
  }

  lemma InlineKeepsTasks(s: State, w: nat, v: int)
    requires TasksOk(s) && w < |s.ws| && s.ws[w].ctl == Ret(v)
    requires s.ws[w].frames != [] && Top(s.ws[w]).First? && s.ws[w].deque != []
    requires var k := s.ws[w];
             k.deque[|k.deque| - 1] == Top(k).id && Top(k).id < |s.tasks|
             && s.tasks[Top(k).id].func == Some(Top(k).b)
    ensures TasksOk(PoppedBack(s, w, v, Top(s.ws[w]).id))
  {
    hide Bag;
    var k := s.ws[w];
    var id := Top(k).id;
    var s' := PoppedBack(s, w, v, id);
    InlineHoldings(k, s'.ws[w], Inline(v, Top(k).b, Top(k).rest));
    assert TaskAt(s, id);
    TaskStep(s, s', w, id, -1, 0, -1);
  }

  lemma InlineKeepsWorker(s: State, w: nat, v: int)
    requires Inv(s) && w < |s.ws| && s.ws[w].ctl == Ret(v)
    requires s.ws[w].frames != [] && Top(s.ws[w]).First? && s.ws[w].deque != []
    requires var k := s.ws[w]; k.deque[|k.deque| - 1] == Top(k).id && Top(k).id < |s.tasks|
    ensures var s' := PoppedBack(s, w, v, Top(s.ws[w]).id);
            |s.ws[w].frames| > 1 && WorkerOk(s', s'.ws[w])
  {
    hide Bag, TasksOk, RootOk;
    var k := s.ws[w];
    var s' := PoppedBack(s, w, v, Top(k).id);
    var k' := s'.ws[w];
    assert WorkerOk(s, k);
    var n := |k.frames| - 1;
    PopOk(s, k.frames, n);
    var below, f := k.frames[..n], k'.frames[n];
    assert k'.frames == below + [f];
    PushOk(s, below, f);
    PushFrame(below, f);
    SuffixPop(k.deque, Pushed(below), Top(k).id);
    FramesStay(s, s', k'.frames);
  }

  lemma InlineKeeps(s: State, w: nat, v: int)
    requires Inv(s) && w < |s.ws| && s.ws[w].ctl == Ret(v)
    requires s.ws[w].frames != [] && Top(s.ws[w]).First? && s.ws[w].deque != []
    ensures Inv(StepPopBack(s, w, v))
  {
    hide Bag, RootOk, WorkerOk, TaskOk;
    PopYieldsOwnBranchOrNothing(s, w);
    InlineKeepsTasks(s, w, v);
    InlineKeepsWorker(s, w, v);
    var s' := PoppedBack(s, w, v, Top(s.ws[w]).id);
    assert s' == StepPopBack(s, w, v);
    FirstIsNotRoot(s, w);
    RootKept(s, s', w);
    PublishersStay(s, s', w, Top(s.ws[w]).id);
    Assemble(s, s', w);
  }

  /** A branch whose call still runs its first branch is not the root. */
  lemma FirstIsNotRoot(s: State, w: nat)
    requires Inv(s) && w < |s.ws| && s.ws[w].frames != [] && Top(s.ws[w]).First?
    ensures Top(s.ws[w]).id != 0
  {
    assert TaskAt(s, 0);
    assert Top(s.ws[w]).id in JoinsOf(s.ws[w]);
    BagAt(s.ws, w, JoinsOf, 0);
  }

  lemma PublishersStay(s: State, s': State, w: nat, id: nat)
    requires Inv(s) && w < |s.ws| && id < |s.tasks| == |s'.tasks| && s'.tasks == s.tasks[id := s'.tasks[id]]
    requires s'.tasks[id].result == s.tasks[id].result
    ensures forall v :: 0 <= v < |s.ws| && v != w ==> PublishOk(s', s.ws[v])
  {
    forall v | 0 <= v < |s.ws| && v != w ensures PublishOk(s', s.ws[v]) {
      assert WorkerOk(s, s.ws[v]);
    }
  }

  lemma ReturnInlineKeeps(s: State, w: nat, v: int)
    requires Inv(s) && w < |s.ws| && s.ws[w].ctl == Ret(v)
    requires s.ws[w].frames != [] && Top(s.ws[w]).Inline?
    ensures Inv(StepReturn(s, w, v))
  {
    hide Bag, TaskOk, RootOk, TasksOk, FramesOk, Suffix;
    var s' := StepReturn(s, w, v);
    var k, k' := s.ws[w], s'.ws[w];
    assert WorkerOk(s, k);
    TasksExist(s);
    PopOk(s, k.frames, |k.frames| - 1);
    Quiet(s, s', w);
    FramesStay(s, s', k'.frames);
    RootKept(s, s', w);
    Assemble(s, s', w);
  }

  /** A task is executed in one place at a time. */
  lemma RunsOnce(s: State, v: nat, w: nat, id: nat)
    requires TasksOk(s) && v < |s.ws| && w < |s.ws| && id in RunsOf(s.ws[v]) && id in RunsOf(s.ws[w])
    ensures v == w && id < |s.tasks| && s.tasks[id].func.None? && !s.tasks[id].latch && !s.tasks[id].inlined
  {
    hide Bag, RunsOf;
    BagAt(s.ws, v, RunsOf, id);
    assert id in Runs(s);
    assert id < |s.tasks|;
    assert TaskAt(s, id);
    assert Runs(s)[id] <= 1;
    if v < w {
      BagPair(s.ws, v, w, RunsOf, id);
      assert false;
    }
    if w < v {
      BagPair(s.ws, w, v, RunsOf, id);
      assert false;
    }
  }

  /** While the root is unfinished, only worker 0 ever has it in hand or on its stack. */
  lemma RootOnlyOnWorker0(s: State, w: nat)
    requires Inv(s) && w < |s.ws| && 0 in RunsOf(s.ws[w])
    ensures w == 0 && s.answer.None?
  {
    assert TaskAt(s, 0);
    BagAt(s.ws, w, RunsOf, 0);
    var k := s.ws[0];
    assert WorkerOk(s, k);
    if s.answer.None? {
      if k.frames == [] {
        if k.ctl == Hold(0) {
          BagAt(s.ws, 0, RefsOf, 0);
        } else if k.ctl == Publish(0) {
          RunsOnce(s, 0, w, 0);
        }
      } else {
        ExecIn(k.frames, 0);
        RunsOnce(s, 0, w, 0);
      }
    }
  }

  lemma ReturnExecKeepsTasks(s: State, w: nat, v: int)
    requires TasksOk(s) && w < |s.ws| && s.ws[w].ctl == Ret(v)
    requires s.ws[w].frames != [] && Top(s.ws[w]).Exec? && FrameOk(s, Top(s.ws[w]))
    requires v == Eval(Top(s.ws[w]).b)
    ensures TasksOk(StepReturn(s, w, v))
  {
    hide Bag;
    var s' := StepReturn(s, w, v);
    var k, k' := s.ws[w], s'.ws[w];
    var id := Top(k).id;
    assert id in RunsOf(k);
    RunsOnce(s, w, w, id);
    assert TaskAt(s, id);
    assert RunsOf(k') == RunsOf(k) && JoinsOf(k') == JoinsOf(k) && RefsOf(k') == RefsOf(k);
    TaskStep(s, s', w, id, 0, 0, 0);
  }

  lemma ReturnExecKeepsRoot(s: State, w: nat, v: int)
    requires Inv(s) && w < |s.ws| && s.ws[w].ctl == Ret(v)
    requires s.ws[w].frames != [] && Top(s.ws[w]).Exec? && Top(s.ws[w]).id < |s.tasks|
    ensures RootOk(StepReturn(s, w, v))
  {
    hide Bag, TasksOk, WorkerOk, Executing;
    if Top(s.ws[w]).id == 0 {
      ExecIn(s.ws[w].frames, |s.ws[w].frames| - 1);
      RootOnlyOnWorker0(s, w);
    }
  }

  lemma ReturnExecKeepsWorker(s: State, w: nat, v: int)
    requires Inv(s) && w < |s.ws| && s.ws[w].ctl == Ret(v)
    requires s.ws[w].frames != [] && Top(s.ws[w]).Exec?
    ensures FrameOk(s, Top(s.ws[w])) && v == Eval(Top(s.ws[w]).b)
    ensures WorkerOk(StepReturn(s, w, v), StepReturn(s, w, v).ws[w])
  {
    hide Bag, TasksOk, RootOk;
    var s' := StepReturn(s, w, v);
    var k, k' := s.ws[w], s'.ws[w];
    assert WorkerOk(s, k);
    PopOk(s, k.frames, |k.frames| - 1);
    FramesStay(s, s', k'.frames);
  }

  lemma ReturnExecKeeps(s: State, w: nat, v: int)
    requires Inv(s) && w < |s.ws| && s.ws[w].ctl == Ret(v)
    requires s.ws[w].frames != [] && Top(s.ws[w]).Exec?
    ensures Inv(StepReturn(s, w, v))
  {
    hide Bag, RootOk, WorkerOk, TaskOk;
    var s' := StepReturn(s, w, v);
    var id := Top(s.ws[w]).id;
    ReturnExecKeepsWorker(s, w, v);
    ReturnExecKeepsTasks(s, w, v);
    ReturnExecKeepsRoot(s, w, v);
    forall u | 0 <= u < |s.ws| && u != w ensures PublishOk(s', s.ws[u]) {
      assert PublishOk(s, s.ws[u]) by { PublishHolds(s, u); }
    }
    Assemble(s, s', w);
  }

  lemma PublishHolds(s: State, u: nat)
    requires Inv(s) && u < |s.ws|
    ensures PublishOk(s, s.ws[u])
  {
    assert WorkerOk(s, s.ws[u]);
  }

  lemma ExecuteKeepsTasks(s: State, w: nat, id: nat)
    requires TasksOk(s) && w < |s.ws| && id < |s.tasks| && s.ws[w].ctl == Hold(id)
    ensures TasksOk(StepExecute(s, w, id)) && s.tasks[id].func == Some(s.tasks[id].body)
  {
    hide Bag, Executing, Joining, Pushed;
    var s' := StepExecute(s, w, id);
    var k, k' := s.ws[w], s'.ws[w];
    assert TaskAt(s, id);
    BagAt(s.ws, w, RefsOf, id);
    var f := k'.frames[|k.frames|];
    assert k'.frames == k.frames + [f];
    PushFrame(k.frames, f);
    assert RefsOf(k') == RefsOf(k) - multiset{id};
    assert RunsOf(k') == RunsOf(k) + multiset{id};
    assert JoinsOf(k') == JoinsOf(k);
    TaskStep(s, s', w, id, -1, 1, 0);
  }

  lemma ExecuteKeeps(s: State, w: nat, id: nat)
    requires Inv(s) && w < |s.ws| && id < |s.tasks| && s.ws[w].ctl == Hold(id)
    ensures Inv(StepExecute(s, w, id))
  {
    hide Bag, RootOk, TaskOk, TasksOk, Suffix, FramesOk, StackOk;
    var s' := StepExecute(s, w, id);
    var k, k' := s.ws[w], s'.ws[w];
    assert WorkerOk(s, k);
    ExecuteKeepsTasks(s, w, id);
    var f := k'.frames[|k.frames|];
    assert k'.frames == k.frames + [f];
    PushFrame(k.frames, f);
    PushOk(s, k.frames, f);
    FramesStay(s, s', k'.frames);
    RootKept(s, s', w);
    PublishersStay(s, s', w, id);
    Assemble(s, s', w);
  }

  /** A task whose result is about to be taken is not being published by anyone. */
  lemma NoPublisher(s: State, id: nat)
    requires TasksOk(s) && id < |s.tasks| && s.tasks[id].latch
    ensures forall v :: 0 <= v < |s.ws| ==> s.ws[v].ctl != Publish(id)
  {
    forall v | 0 <= v < |s.ws| ensures s.ws[v].ctl != Publish(id) {
      assert TaskAt(s, id);
      BagAt(s.ws, v, RunsOf, id);
    }
  }

  lemma JoinKeepsTasks(s: State, w: nat)
    requires TasksOk(s) && w < |s.ws| && s.ws[w].ctl == Loop && LocalEnabled(s, w)
    ensures TasksOk(StepJoin(s, w))
    ensures var t := s.tasks[Top(s.ws[w]).id]; t.result == Some(Eval(t.body))
  {
    hide Bag;
    var k := s.ws[w];
    var id := Top(k).id;
    assert TaskAt(s, id);
    assert id in JoinsOf(k);
    BagAt(s.ws, w, JoinsOf, id);
    assert JoinsOf(StepJoin(s, w).ws[w]) == JoinsOf(k) - multiset{id};
    TaskStep(s, StepJoin(s, w), w, id, 0, 0, -1);
  }

  lemma JoinKeepsWorker(s: State, w: nat)
    requires Inv(s) && w < |s.ws| && s.ws[w].ctl == Loop && LocalEnabled(s, w)
    ensures WorkerOk(StepJoin(s, w), StepJoin(s, w).ws[w])
  {
    hide Bag, TaskOk, RootOk;
    var s' := StepJoin(s, w);
    var k, k' := s.ws[w], s'.ws[w];
    assert WorkerOk(s, k);
    var n := |k.frames| - 1;
    PopOk(s, k.frames, n);
    JoinKeepsTasks(s, w);
    FramesStay(s, s', k'.frames);
  }

  lemma JoinKeeps(s: State, w: nat)
    requires Inv(s) && w < |s.ws| && s.ws[w].ctl == Loop && LocalEnabled(s, w)
    ensures Inv(StepJoin(s, w))
  {
    var s' := StepJoin(s, w);
    var id := Top(s.ws[w]).id;
    assert WorkerOk(s, s.ws[w]);
    JoinKeepsWorker(s, w);
    JoinKeepsTasks(s, w);
    NoPublisher(s, id);
    RootNotJoined(s, w);
    assert s'.tasks[0] == s.tasks[0];
    Assemble(s, s', w);
  }

  /** Nobody waits for the root task. */
  lemma RootNotJoined(s: State, w: nat)
    requires TasksOk(s) && w < |s.ws|
    ensures s.ws[w].frames != [] && Top(s.ws[w]).Wait? ==> Top(s.ws[w]).id != 0
  {
    assert TaskAt(s, 0);
    BagAt(s.ws, w, JoinsOf, 0);
  }

  lemma PublishKeepsTasks(s: State, w: nat, id: nat)
    requires TasksOk(s) && w < |s.ws| && id < |s.tasks| && s.ws[w].ctl == Publish(id)
    requires PublishOk(s, s.ws[w])
    ensures TasksOk(StepPublish(s, w, id))
  {
    assert TaskAt(s, id);
    RunsOnce(s, w, w, id);
    TaskStep(s, StepPublish(s, w, id), w, id, 0, -1, 0);
  }

  lemma PublishKeepsRoot(s: State, s': State, w: nat, id: nat)
    requires RootOk(s) && w < |s.ws| && id < |s.tasks| && s.ws[w].ctl == Publish(id) && s' == StepPublish(s, w, id)
    requires PublishOk(s, s.ws[w]) && (id == 0 ==> w == 0 && s.answer.None?)
    ensures RootOk(s')
  {
  }

  lemma PublishKeepsWorkers(s: State, s': State, w: nat, id: nat)
    requires w < |s.ws| && id < |s.tasks| && s.ws[w].ctl == Publish(id) && s' == StepPublish(s, w, id)
    requires forall v :: 0 <= v < |s.ws| ==> WorkerOk(s, s.ws[v])
    ensures Grows(s, s') && WorkerOk(s', s'.ws[w])
    ensures forall v :: 0 <= v < |s.ws| && v != w ==> PublishOk(s', s.ws[v])
  {
    hide StackOk, Suffix, Pushed, FramesOk;
    assert WorkerOk(s, s.ws[w]);
    FramesStay(s, s', s.ws[w].frames);
    forall v | 0 <= v < |s.ws| && v != w ensures PublishOk(s', s.ws[v]) {
      assert WorkerOk(s, s.ws[v]);
    }
  }

  lemma PublishKeeps(s: State, w: nat, id: nat)
    requires Inv(s) && w < |s.ws| && id < |s.tasks| && s.ws[w].ctl == Publish(id)
    ensures Inv(StepPublish(s, w, id))
  {
    hide TasksOk, RootOk, WorkerOk, RunsOf;
    var s' := StepPublish(s, w, id);
    assert PublishOk(s, s.ws[w]) by {
      assert WorkerOk(s, s.ws[w]);
      Publishes(s, s.ws[w]);
    }
    if id == 0 { PublishesRoot(s, w); }
    PublishKeepsTasks(s, w, id);
    PublishKeepsRoot(s, s', w, id);
    PublishKeepsWorkers(s, s', w, id);
    Assemble(s, s', w);
  }

  lemma Publishes(s: State, k: Worker)
    requires WorkerOk(s, k)
    ensures PublishOk(s, k)
  {
  }

  lemma PublishesRoot(s: State, w: nat)
    requires Inv(s) && w < |s.ws| && s.ws[w].ctl == Publish(0)
    ensures w == 0 && s.answer.None?
  {
    hide Inv;
    assert 0 in RunsOf(s.ws[w]);
    RootOnlyOnWorker0(s, w);
  }

  lemma CollectKeepsTasks(s: State, w: nat)
    requires TasksOk(s) && w < |s.ws| && s.ws[w].ctl == Collect
    requires s.tasks[0].latch && s.tasks[0].result.Some?
    ensures TasksOk(StepCollect(s, w))
  {
    assert TaskAt(s, 0);
    TaskStep(s, StepCollect(s, w), w, 0, 0, 0, 0);
  }

  lemma CollectKeeps(s: State, w: nat)
    requires Inv(s) && w < |s.ws| && s.ws[w].ctl == Collect
    ensures Inv(StepCollect(s, w))
  {
    var s' := StepCollect(s, w);
    var k, k' := s.ws[w], s'.ws[w];
    assert WorkerOk(s, k);
    assert TaskAt(s, 0);
    CollectKeepsTasks(s, w);
    NoPublisher(s, 0);
    FramesStay(s, s', k'.frames);
    Assemble(s, s', w);
  }

  lemma PopOwnImpossible(s: State, w: nat)
    requires Inv(s) && w < |s.ws| && Searching(s.ws[w])
    ensures s.ws[w].deque == []
  {
    assert WorkerOk(s, s.ws[w]);
  }

  /** A reference in some deque or hand names a task nobody has started. */
  lemma RefKnown(s: State, w: nat, id: nat)
    requires TasksOk(s) && w < |s.ws| && id in RefsOf(s.ws[w])
    ensures id < |s.tasks| && s.tasks[id].func == Some(s.tasks[id].body)
  {
    BagAt(s.ws, w, RefsOf, id);
    assert id in Refs(s);
    assert TaskAt(s, id);
  }

  lemma StealHoldings(victim: Worker, thief: Worker)
    requires victim.deque != [] && Searching(thief)
    ensures var id := victim.deque[0];
            var v', t' := victim.(deque := victim.deque[1..]), thief.(ctl := Hold(id));
            && RefsOf(v') == RefsOf(victim) - multiset{id} && id in RefsOf(victim)
            && RunsOf(v') == RunsOf(victim) && JoinsOf(v') == JoinsOf(victim)
            && RefsOf(t') == RefsOf(thief) + multiset{id}
            && RunsOf(t') == RunsOf(thief) && JoinsOf(t') == JoinsOf(thief)
  {
    DequeFirst(victim.deque);
  }

  lemma StealKeepsTasks(s: State, w: nat, v: nat)
    requires TasksOk(s) && Enabled(s, Steal(w, v))
    ensures TasksOk(Apply(s, Steal(w, v)))
  {
    hide Bag, RefsOf, RunsOf, JoinsOf, TaskOk;
    var d := s.ws[v].deque;
    var id := d[0];
    var s1 := Put(s, v, s.ws[v].(deque := d[1..]));
    var s' := Put(s1, w, s.ws[w].(ctl := Hold(id)));
    assert s' == Apply(s, Steal(w, v));
    StealHoldings(s.ws[v], s.ws[w]);
    RefKnown(s, v, id);
    OneTask(s, s1, v, id);
    OneTask(s1, s', w, id);
    StealTotals(s, s1, s', id);
  }

  lemma StealTotals(s: State, s1: State, s': State, id: nat)
    requires TasksOk(s) && id < |s.tasks| && s'.tasks == s.tasks
    requires Same(Refs(s), Refs(s1), id) && Same(Runs(s), Runs(s1), id) && Same(Joins(s), Joins(s1), id)
    requires Same(Refs(s1), Refs(s'), id) && Same(Runs(s1), Runs(s'), id) && Same(Joins(s1), Joins(s'), id)
    requires Refs(s)[id] == Refs(s')[id] && Runs(s)[id] == Runs(s')[id] && Joins(s)[id] == Joins(s')[id]
    ensures TasksOk(s')
  {
    assert TaskAt(s, id);
    TasksStay(s, s', id);
  }

  lemma StealKeepsWorkers(s: State, w: nat, v: nat, u: nat)
    requires Inv(s) && Enabled(s, Steal(w, v)) && u < |s.ws|
    ensures WorkerOk(Apply(s, Steal(w, v)), Apply(s, Steal(w, v)).ws[u])
  {
    hide TasksOk, RootOk, StackOk, FramesOk, Suffix, Pushed, Eval;
    var s' := Apply(s, Steal(w, v));
    assert WorkerOk(s, s.ws[u]);
    FramesStay(s, s', s.ws[u].frames);
    if u == v {
      SuffixDrop(s.ws[v].deque, Pushed(s.ws[v].frames));
    }
  }

  lemma StealKeepsRoot(s: State, w: nat, v: nat)
    requires RootOk(s) && Enabled(s, Steal(w, v))
    ensures RootOk(Apply(s, Steal(w, v)))
  {
    hide Eval;
    StealShape(s, w, v);
    hide Apply;
  }

  lemma StealShape(s: State, w: nat, v: nat)
    requires Enabled(s, Steal(w, v))
    ensures var s' := Apply(s, Steal(w, v));
            && s'.tasks == s.tasks && s'.answer == s.answer && |s'.ws| == |s.ws|
            && (forall u :: 0 <= u < |s.ws| ==> s'.ws[u].frames == s.ws[u].frames)
            && (forall u :: 0 <= u < |s.ws| && u != w ==> s'.ws[u].ctl == s.ws[u].ctl)
            && s'.ws[w].ctl.Hold?
  {
  }

  lemma StealKeeps(s: State, w: nat, v: nat)
    requires Inv(s) && Enabled(s, Steal(w, v))
    ensures Inv(Apply(s, Steal(w, v)))
  {
    hide Bag, TaskOk, WorkerOk, RootOk;
    var s' := Apply(s, Steal(w, v));
    StealKeepsTasks(s, w, v);
    forall u | 0 <= u < |s'.ws| ensures WorkerOk(s', s'.ws[u]) {
      StealKeepsWorkers(s, w, v, u);
    }
    assert WorkerOk(s, s.ws[0]);
    StealKeepsRoot(s, w, v);
  }

  lemma ReturnKeeps(s: State, w: nat, v: int)
    requires Inv(s) && w < |s.ws| && s.ws[w].ctl == Ret(v) && LocalEnabled(s, w)
    ensures Inv(StepReturn(s, w, v))
  {
    hide Bag, Inv;
    match Top(s.ws[w])
    case First(_, _, _, _) => if s.ws[w].deque == [] { WaitKeeps(s, w, v); } else { InlineKeeps(s, w, v); }
    case Inline(_, _, _) => ReturnInlineKeeps(s, w, v);
    case Exec(_, _) => ReturnExecKeeps(s, w, v);
  }

  /** Every step of every worker keeps the invariant. */
  lemma StepKeeps(s: State, a: Action)
    requires Inv(s) && Enabled(s, a)
    ensures Inv(Apply(s, a))
  {
    hide Bag, Inv, RootOk, WorkerOk, TasksOk;
    match a
    case PopOwn(w) => PopOwnImpossible(s, w); assert false;
    case Steal(w, v) => StealKeeps(s, w, v);
    case Spin(_) =>
    case Local(w) =>
      match s.ws[w].ctl {
        case Run(c) => if c.p.Par? { ForkKeeps(s, w, c); } else { RunLocalKeeps(s, w, c); }
        case Ret(v) => ReturnKeeps(s, w, v);
        case Loop => JoinKeeps(s, w);
        case Hold(id) => ExecuteKeeps(s, w, id);
        case Publish(id) => PublishKeeps(s, w, id);
        case Collect => CollectKeeps(s, w);
      }
  }

  lemma InitRefs(ws: seq<Worker>)
    requires |ws| > 0 && ws[0] == Worker([], Hold(0), [])
    requires forall w :: 1 <= w < |ws| ==> ws[w] == Worker([], Idle, [])
    ensures Bag(ws, RefsOf) == multiset{0}
  {
    hide Bag;
    var blank := ws[0 := Worker([], Idle, [])];
    assert forall i :: 0 <= i < |blank| ==> blank[i] == Worker([], Idle, []);
    BagEmpty(blank, RefsOf);
    BagUpdate(blank, 0, ws[0], RefsOf);
    assert blank[0 := ws[0]] == ws;
    assert RefsOf(ws[0]) == multiset{0} && RefsOf(blank[0]) == multiset{};
    assert Bag(ws, RefsOf) + multiset{} == multiset{} + multiset{0};
  }

  lemma InitTotals(s: State, root: Closure)
    requires Init(s, root)
    ensures Refs(s) == multiset{0} && Runs(s) == multiset{} && Joins(s) == multiset{}
  {
    hide Bag;
    InitRefs(s.ws);
    BagEmpty(s.ws, RunsOf);
    BagEmpty(s.ws, JoinsOf);
  }

  lemma InitKeeps(s: State, root: Closure)
    requires Init(s, root)
    ensures Inv(s)
  {
    hide Bag, Refs, Runs, Joins, Init;
    InitTotals(s, root);
    InitWorkers(s, root);
    InitRoot(s, root);
  }

  lemma InitWorkers(s: State, root: Closure)
    requires Init(s, root)
    ensures !s.panicked && !s.putBack && forall w :: 0 <= w < |s.ws| ==> WorkerOk(s, s.ws[w])
  {
    forall w | 0 <= w < |s.ws| ensures WorkerOk(s, s.ws[w]) {
      assert s.ws[w].frames == [] && s.ws[w].deque == [];
    }
  }

  lemma InitRoot(s: State, root: Closure)
    requires Init(s, root) && Refs(s) == multiset{0} && Runs(s) == multiset{} && Joins(s) == multiset{}
    ensures TasksOk(s) && RootOk(s)
  {
    hide Refs, Runs, Joins;
    assert TaskAt(s, 0);
  }

  // ---------------------------------------------------------------------------
  // Runs
  // ---------------------------------------------------------------------------

  /** A run of `run(n, root)`: the states passed through and the steps between them. */
  ghost predicate IsRun(root: Closure, states: seq<State>, acts: seq<Action>) {
    && |states| == |acts| + 1
    && Init(states[0], root)
    && (forall i :: 0 <= i < |acts| ==> Enabled(states[i], acts[i]) && states[i + 1] == Apply(states[i], acts[i]))
  }

  lemma RootStays(s: State, a: Action)
    requires Inv(s) && Enabled(s, a)
    ensures |Apply(s, a).tasks| > 0 && Apply(s, a).tasks[0].body == s.tasks[0].body
  {
    TasksExist(s);
    hide Inv, ApplyLocal;
    if a.Local? { LocalRootStays(s, a.w); }
  }

  lemma LocalRootStays(s: State, w: nat)
    requires |s.tasks| > 0 && w < |s.ws| && LocalEnabled(s, w)
    ensures |ApplyLocal(s, w).tasks| > 0 && ApplyLocal(s, w).tasks[0].body == s.tasks[0].body
  {
    hide StepReturn;
    if s.ws[w].ctl.Ret? { ReturnRootStays(s, w, s.ws[w].ctl.v); }
  }

  lemma ReturnRootStays(s: State, w: nat, v: int)
    requires |s.tasks| > 0 && w < |s.ws| && s.ws[w].frames != []
    ensures |StepReturn(s, w, v).tasks| > 0 && StepReturn(s, w, v).tasks[0].body == s.tasks[0].body
  {
  }

  lemma TasksExist(s: State)
    requires Inv(s)
    ensures |s.tasks| > 0
  {
  }

  lemma {:induction false} RunKeeps(root: Closure, states: seq<State>, acts: seq<Action>, n: nat)
    requires IsRun(root, states, acts) && n < |states|
    ensures Inv(states[n]) && |states[n].tasks| > 0 && states[n].tasks[0].body == root
  {
    hide Bag, Inv, Init, Apply, Enabled;
    if n == 0 {
      InitKeeps(states[0], root);
      InitBody(states[0], root);
    } else {
      RunKeeps(root, states, acts, n - 1);
      StepKeeps(states[n - 1], acts[n - 1]);
      RootStays(states[n - 1], acts[n - 1]);
    }
  }

  lemma InitBody(s: State, root: Closure)
    requires Init(s, root)
    ensures |s.tasks| > 0 && s.tasks[0].body == root
  {
  }

  /** Whatever is stolen, popped back or helped with, and in whatever order the workers move:
      the root returns what sequential execution returns, none of the three `expect`s of
      `StackTask` fails and the put-back arm of `parallel_call` is never taken. */
  lemma ParallelCallIsSequential(root: Closure, states: seq<State>, acts: seq<Action>, n: nat)
    requires IsRun(root, states, acts) && n < |states|
    ensures !states[n].panicked && !states[n].putBack
    ensures states[n].answer.Some? ==> states[n].answer.value == Eval(root)
  {
    RunKeeps(root, states, acts, n);
  }

  /** Every branch is executed at most once, by its own caller or by one thief, and what its
      latch publishes is its sequential result. */
  lemma EveryBranchAtMostOnce(root: Closure, states: seq<State>, acts: seq<Action>, n: nat, id: nat)
    requires IsRun(root, states, acts) && n < |states| && id < |states[n].tasks|
    ensures var t := states[n].tasks[id];
            && t.taken <= 1 && (t.taken == 0 <==> t.func.Some?)
            && !(t.inlined && t.latch)
            && (t.result.Some? ==> t.result.value == Eval(t.body))
  {
    RunKeeps(root, states, acts, n);
    assert TaskAt(states[n], id);
  }

  /** While a call runs its first branch, the second one is there for the taking: in some worker's
      deque, or in the hand of a worker about to execute it, until somebody has taken its closure. */
  lemma ForkedBranchIsAvailable(root: Closure, states: seq<State>, acts: seq<Action>, n: nat, w: nat, i: nat)
    requires IsRun(root, states, acts) && n < |states| && w < |states[n].ws| && i < |states[n].ws[w].frames|
    requires states[n].ws[w].frames[i].First?
    ensures var s, id := states[n], states[n].ws[w].frames[i].id;
            && id < |s.tasks|
            && (s.tasks[id].taken == 0 <==> exists v :: 0 <= v < |s.ws| && (id in s.ws[v].deque || s.ws[v].ctl == Hold(id)))
  {
    hide IsRun, Bag, RootOk, WorkerOk;
    var s, id := states[n], states[n].ws[w].frames[i].id;
    RunKeeps(root, states, acts, n);
    JoiningAt(s.ws[w].frames, i);
    assert id in JoinsOf(s.ws[w]);
    BagAt(s.ws, w, JoinsOf, id);
    assert id in Joins(s);
    assert TaskAt(s, id);
    if s.tasks[id].taken == 0 {
      assert id in Refs(s);
      var v := BagWitness(s.ws, RefsOf, id);
      assert id in s.ws[v].deque || s.ws[v].ctl == Hold(id);
    } else if v :| 0 <= v < |s.ws| && (id in s.ws[v].deque || s.ws[v].ctl == Hold(id)) {
      BagAt(s.ws, v, RefsOf, id);
      assert false;
    }
  }

  lemma {:induction false} JoiningAt(fs: seq<Frame>, i: nat)
    requires i < |fs| && (fs[i].First? || fs[i].Wait?)
    ensures fs[i].id in Joining(fs)
  {
    var n := |fs| - 1;
    if i < n { JoiningAt(fs[..n], i); }
    assert fs == fs[..n] + [fs[n]];
    PushFrame(fs[..n], fs[n]);
  }

  /** A worker's deque is at every moment the newest part of the branches that its own frames
      pushed since it last started to wait; while it searches for work it is empty. */
  lemma DequeHoldsOwnNewestBranches(root: Closure, states: seq<State>, acts: seq<Action>, n: nat, w: nat)
    requires IsRun(root, states, acts) && n < |states| && w < |states[n].ws|
    ensures var k := states[n].ws[w];
            Suffix(k.deque, Pushed(k.frames)) && (Searching(k) ==> k.deque == [])
  {
    RunKeeps(root, states, acts, n);
    assert WorkerOk(states[n], states[n].ws[w]);
  }

  // ---------------------------------------------------------------------------
  // No deadlock
  // ---------------------------------------------------------------------------

  /** Nobody can do anything but spin. */
  ghost predicate Stuck(s: State) {
    forall a: Action :: Enabled(s, a) ==> a.Spin?
  }

  lemma StuckWorkers(s: State, w: nat)
    requires Inv(s) && Stuck(s) && w < |s.ws|
    ensures var k := s.ws[w];
            && k.deque == [] && (k.ctl == Idle || k.ctl == Loop)
            && (k.frames != [] ==> k.ctl == Loop && !s.tasks[Top(k).id].latch)
            && (k.ctl == Loop ==> k.frames != [] && Top(k).Wait? && FrameOk(s, Top(k)))
  {
    hide Bag, RootOk, TaskOk, StackOk, Suffix, Pushed;
    var k := s.ws[w];
    assert WorkerOk(s, k);
    assert !Enabled(s, Local(w)) && !Enabled(s, PopOwn(w));
    assert k.frames != [] ==> FrameOk(s, k.frames[|k.frames| - 1]);
    if k.ctl.Hold? {
      RefKnown(s, w, k.ctl.id);
    }
  }

  lemma TopJoins(k: Worker)
    requires k.frames != [] && Top(k).Wait?
    ensures Top(k).id in JoinsOf(k)
  {
  }

  /** The worker a stuck helper waits for is itself a helper, waiting for a younger branch. */
  lemma StuckWaitsForYounger(s: State, w: nat) returns (v: nat)
    requires Inv(s) && Stuck(s) && w < |s.ws| && s.ws[w].ctl == Loop
    ensures v < |s.ws| && s.ws[v].ctl == Loop
    ensures s.ws[w].frames != [] && Top(s.ws[w]).Wait? && Top(s.ws[w]).id < |s.tasks|
    ensures s.ws[v].frames != [] && Top(s.ws[v]).Wait? && Top(s.ws[w]).id < Top(s.ws[v]).id < |s.tasks|
  {
    hide Bag, RootOk, Pushed, Joining, Executing;
    StuckWorkers(s, w);
    var id := Top(s.ws[w]).id;
    assert TaskAt(s, id);
    TopJoins(s.ws[w]);
    BagAt(s.ws, w, JoinsOf, id);
    if id in Refs(s) {
      var u := BagWitness(s.ws, RefsOf, id);
      StuckWorkers(s, u);
      assert false;
    }
    assert id in Runs(s);
    v := BagWitness(s.ws, RunsOf, id);
    StuckWorkers(s, v);
    var i := ExecWhere(s.ws[v].frames, id);
    assert WorkerOk(s, s.ws[v]);
  }

  lemma {:induction false} NoWaitingCycle(s: State, w: nat)
    requires Inv(s) && Stuck(s) && w < |s.ws|
    ensures s.ws[w].ctl != Loop
    decreases |s.tasks| - (if s.ws[w].frames != [] && Top(s.ws[w]).Wait? then Top(s.ws[w]).id else 0)
  {
    if s.ws[w].ctl == Loop {
      var v := StuckWaitsForYounger(s, w);
      NoWaitingCycle(s, v);
    }
  }

  lemma RootBusy(s: State)
    requires Inv(s) && s.answer.None? && Stuck(s)
    ensures |s.ws| > 0 && s.ws[0].ctl == Loop
  {
    hide Bag;
    StuckWorkers(s, 0);
  }

  /** Helping while waiting cannot deadlock: until the root is finished, some worker has a step
      other than an empty spin. */
  lemma HelpingNeverDeadlocks(root: Closure, states: seq<State>, acts: seq<Action>, n: nat)
    requires IsRun(root, states, acts) && n < |states| && states[n].answer.None?
    ensures exists a: Action :: Enabled(states[n], a) && !a.Spin?
  {
    hide Inv, Enabled;
    var s := states[n];
    RunKeeps(root, states, acts, n);
    if Stuck(s) {
      RootBusy(s);
      NoWaitingCycle(s, 0);
      assert false;
    }
  }

  // ---------------------------------------------------------------------------
  // Bounded work
  // ---------------------------------------------------------------------------

  function FrameWeight(f: Frame): nat {
    match f
    case First(_, a, b, rest) => 5 + Cost(After(rest, Eval(a), Eval(b)))
    case Inline(ra, b, rest) => 1 + Cost(After(rest, ra, Eval(b)))
    case Wait(_, ra, b, rest) => 3 + Cost(After(rest, ra, Eval(b)))
    case Exec(_, _) => 2
  }

  function ControlWeight(c: Control): nat {
    match c
    case Run(c) => Cost(c)
    case Ret(_) => 1
    case Hold(_) => 1
    case Publish(_) => 2
    case Collect => 1
    case Loop => 0
    case Idle => 0
  }

  function WorkerWeight(k: Worker): nat {
    Sum(k.frames, FrameWeight) + ControlWeight(k.ctl) + 2 * |k.deque|
  }

  function TaskWeight(t: Task): nat {
    if t.func.Some? then Cost(t.func.value) + 4 else 0
  }

  /** How much work is left in the whole pool. */
  function Work(s: State): nat {
    Sum(s.ws, WorkerWeight) + Sum(s.tasks, TaskWeight)
  }

  lemma WorkMoves(s: State, s': State, w: nat, id: nat)
    requires w < |s.ws| == |s'.ws| && s'.ws == s.ws[w := s'.ws[w]]
    requires id < |s.tasks| == |s'.tasks| && s'.tasks == s.tasks[id := s'.tasks[id]]
    requires WorkerWeight(s'.ws[w]) + TaskWeight(s'.tasks[id]) < WorkerWeight(s.ws[w]) + TaskWeight(s.tasks[id])
    ensures Work(s') < Work(s)
  {
    SumUpdate(s.ws, w, s'.ws[w], WorkerWeight);
    SumUpdate(s.tasks, id, s'.tasks[id], TaskWeight);
  }

  lemma TopWeight(fs: seq<Frame>)
    requires fs != []
    ensures Sum(fs, FrameWeight) == Sum(fs[..|fs| - 1], FrameWeight) + FrameWeight(fs[|fs| - 1])
  {
  }

  lemma RunWorks(s: State, w: nat, c: Closure)
    requires Inv(s) && w < |s.ws| && s.ws[w].ctl == Run(c)
    ensures Work(StepRun(s, w, c)) < Work(s)
  {
    hide Bag, Inv, Sum;
    var s' := StepRun(s, w, c);
    var k, k' := s.ws[w], s'.ws[w];
    if c.p.Par? {
      var f, t := k'.frames[|k.frames|], s'.tasks[|s.tasks|];
      assert k'.frames == k.frames + [f];
      SumPush(k.frames, f, FrameWeight);
      SumPush(s.tasks, t, TaskWeight);
      SumUpdate(s.ws, w, k', WorkerWeight);
      assert WorkerWeight(k') + TaskWeight(t) < WorkerWeight(k);
    } else {
      TasksExist(s);
      WorkMoves(s, s', w, 0);
    }
  }

  lemma WaitWorks(s: State, w: nat, v: int)
    requires TasksOk(s) && w < |s.ws| && s.ws[w].ctl == Ret(v)
    requires s.ws[w].frames != [] && Top(s.ws[w]).First? && s.ws[w].deque == [] && v == Awaits(Top(s.ws[w]))
    ensures Work(StepPopBack(s, w, v)) < Work(s)
  {
    hide Bag, Sum, Cost, TasksOk;
    var s' := StepPopBack(s, w, v);
    var k, k' := s.ws[w], s'.ws[w];
    var n := |k.frames| - 1;
    TopWeight(k.frames);
    assert k'.frames == k.frames[..n] + [k'.frames[n]];
    SumPush(k.frames[..n], k'.frames[n], FrameWeight);
    assert |s.tasks| > 0 by { TasksThere(s); }
    WorkMoves(s, s', w, 0);
  }

  lemma TasksThere(s: State)
    requires TasksOk(s)
    ensures |s.tasks| > 0
  {
  }

  lemma InlineWorks(s: State, w: nat, v: int, id: nat)
    requires w < |s.ws| && s.ws[w].ctl == Ret(v) && id < |s.tasks|
    requires s.ws[w].frames != [] && Top(s.ws[w]).First? && s.ws[w].deque != [] && v == Awaits(Top(s.ws[w]))
    requires s.tasks[id].func == Some(Top(s.ws[w]).b)
    ensures Work(PoppedBack(s, w, v, id)) < Work(s)
  {
    hide Bag, Sum, Cost;
    var s' := PoppedBack(s, w, v, id);
    var k, k' := s.ws[w], s'.ws[w];
    var n := |k.frames| - 1;
    TopWeight(k.frames);
    SumPush(k.frames[..n], k'.frames[n], FrameWeight);
    WorkMoves(s, s', w, id);
  }

  lemma ReturnWorks(s: State, w: nat, v: int)
    requires Inv(s) && w < |s.ws| && s.ws[w].ctl == Ret(v) && LocalEnabled(s, w)
    ensures Work(StepReturn(s, w, v)) < Work(s)
  {
    hide Bag, Sum, Cost, Pushed, Joining, Executing;
    var s' := StepReturn(s, w, v);
    var k, k' := s.ws[w], s'.ws[w];
    assert WorkerOk(s, k);
    TopWeight(k.frames);
    var n := |k.frames| - 1;
    assert FrameOk(s, k.frames[n]);
    match Top(k)
    case First(id, _, _, _) =>
      if k.deque == [] {
        WaitWorks(s, w, v);
      } else {
        PopYieldsOwnBranchOrNothing(s, w);
        InlineWorks(s, w, v, id);
        assert s' == PoppedBack(s, w, v, id);
      }
    case Inline(_, _, _) => WorkMoves(s, s', w, 0);
    case Exec(id, _) =>
      assert TaskWeight(s'.tasks[id]) == TaskWeight(s.tasks[id]);
      WorkMoves(s, s', w, id);
  }

  lemma JoinWorks(s: State, w: nat)
    requires Inv(s) && w < |s.ws| && s.ws[w].ctl == Loop && LocalEnabled(s, w)
    ensures Work(StepJoin(s, w)) < Work(s)
  {
    hide Bag, Sum, Cost, Pushed, Joining, Executing;
    var s' := StepJoin(s, w);
    var k := s.ws[w];
    assert WorkerOk(s, k);
    JoinKeepsTasks(s, w);
    assert FrameOk(s, k.frames[|k.frames| - 1]);
    TopWeight(k.frames);
    WorkMoves(s, s', w, Top(k).id);
  }

  lemma ExecuteWorks(s: State, w: nat, id: nat)
    requires Inv(s) && w < |s.ws| && s.ws[w].ctl == Hold(id) && id < |s.tasks|
    ensures Work(StepExecute(s, w, id)) < Work(s)
  {
    hide Bag, Sum, Cost, Inv;
    var s' := StepExecute(s, w, id);
    var k, k' := s.ws[w], s'.ws[w];
    assert s.tasks[id].func == Some(s.tasks[id].body) by { HoldKnown(s, w); }
    assert k'.frames == k.frames + [k'.frames[|k.frames|]];
    SumPush(k.frames, k'.frames[|k.frames|], FrameWeight);
    WorkMoves(s, s', w, id);
  }

  lemma HoldKnown(s: State, w: nat)
    requires Inv(s) && w < |s.ws| && s.ws[w].ctl.Hold?
    ensures s.ws[w].ctl.id < |s.tasks|
    ensures s.tasks[s.ws[w].ctl.id].func == Some(s.tasks[s.ws[w].ctl.id].body)
  {
    RefKnown(s, w, s.ws[w].ctl.id);
  }

  lemma StealWorks(s: State, w: nat, v: nat)
    requires Enabled(s, Steal(w, v))
    ensures Work(Apply(s, Steal(w, v))) < Work(s)
  {
    hide Sum, Cost;
    var k, d := s.ws[w], s.ws[v].deque;
    var v', k' := s.ws[v].(deque := d[1..]), k.(ctl := Hold(d[0]));
    var ws1 := s.ws[v := v'];
    SumUpdate(s.ws, v, v', WorkerWeight);
    SumUpdate(ws1, w, k', WorkerWeight);
  }

  lemma CollectDone(s: State, w: nat)
    requires Inv(s) && w < |s.ws| && s.ws[w].ctl == Collect
    ensures s.tasks != [] && s.tasks[0].result.Some?
  {
    hide TasksOk, WorkerOk;
    assert RootOk(s);
  }

  /** Every step that is not an empty spin uses up work. */
  lemma StepWorks(s: State, a: Action)
    requires Inv(s) && Enabled(s, a)
    ensures if a.Spin? then Apply(s, a) == s else Work(Apply(s, a)) < Work(s)
  {
    hide Bag, Sum, Cost, Inv;
    match a
    case PopOwn(w) => PopOwnImpossible(s, w); assert false;
    case Steal(w, v) => StealWorks(s, w, v);
    case Spin(_) =>
    case Local(w) =>
      match s.ws[w].ctl {
        case Run(c) => RunWorks(s, w, c);
        case Ret(v) => ReturnWorks(s, w, v);
        case Loop => JoinWorks(s, w);
        case Hold(id) => ExecuteWorks(s, w, id);
        case Publish(id) => WorkMoves(s, Apply(s, a), w, id);
        case Collect => CollectDone(s, w); WorkMoves(s, Apply(s, a), w, 0);
      }
  }

  /** The number of steps of a run that are not empty spins. */
  function Productive(acts: seq<Action>): nat {
    if acts == [] then 0 else Productive(acts[..|acts| - 1]) + One(!acts[|acts| - 1].Spin?)
  }

  lemma InitWork(s: State, root: Closure)
    requires Init(s, root)
    ensures Work(s) == Cost(root) + 5
  {
    hide Cost;
    var blank := s.ws[0 := Worker([], Idle, [])];
    assert Sum(blank, WorkerWeight) <= |blank| * 0 by {
      forall i | 0 <= i < |blank| ensures WorkerWeight(blank[i]) <= 0 {
        assert blank[i] == Worker([], Idle, []);
      }
      SumAtMost(blank, WorkerWeight, 0);
    }
    SumUpdate(blank, 0, s.ws[0], WorkerWeight);
    assert blank[0 := s.ws[0]] == s.ws;
    assert s.tasks == [] + [s.tasks[0]];
    SumPush([], s.tasks[0], TaskWeight);
  }

  /** A run makes at most `Cost(root) + 5` steps that are not empty spins, however its workers
      interleave; together with `HelpingNeverDeadlocks` every run that keeps taking such steps
      ends with the answer. */
  lemma {:induction false} WorkIsBounded(root: Closure, states: seq<State>, acts: seq<Action>)
    requires IsRun(root, states, acts)
    ensures Productive(acts) + Work(states[|acts|]) <= Cost(root) + 5
  {
    hide Work, Cost, Enabled;
    var n := |acts| - 1;
    if acts == [] {
      InitWork(states[0], root);
    } else {
      assert IsRun(root, states[..n + 1], acts[..n]);
      WorkIsBounded(root, states[..n + 1], acts[..n]);
      RunKeeps(root, states, acts, n);
      StepWorks(states[n], acts[n]);
    }
  }

  // ---------------------------------------------------------------------------
  // Fully strict: the root's end is everyone's end
  // ---------------------------------------------------------------------------

  lemma {:induction false} JoinWhere(fs: seq<Frame>, id: nat) returns (i: nat)
    requires id in Joining(fs)
    ensures i < |fs| && (fs[i].First? || fs[i].Wait?) && fs[i].id == id
  {
    var n := |fs| - 1;
    if (fs[n].First? || fs[n].Wait?) && fs[n].id == id {
      i := n;
    } else {
      i := JoinWhere(fs[..n], id);
    }
  }

  lemma {:induction false} NothingUnfinished(s: State, id: nat)
    requires Inv(s) && s.answer.Some?
    ensures id !in Refs(s) && id !in Runs(s)
  {
    hide Bag;
    if id in Refs(s) || id in Runs(s) {
      assert id < |s.tasks|;
      assert TaskAt(s, id) && TaskAt(s, 0);
      assert id in Joins(s);
      var w := BagWitness(s.ws, JoinsOf, id);
      assert WorkerOk(s, s.ws[w]);
      var j := JoinWhere(s.ws[w].frames, id);
      var below := s.ws[w].frames[0].id;
      NothingUnfinished(s, below);
      ExecIn(s.ws[w].frames, 0);
      BagAt(s.ws, w, RunsOf, below);
    }
  }

  lemma JoinedAtEnd(s: State, id: nat)
    requires Inv(s) && s.answer.Some? && id < |s.tasks|
    ensures var t := s.tasks[id]; t.taken == 1 && t.result.None? && (t.inlined || t.latch)
  {
    hide Bag, WorkerOk;
    NothingUnfinished(s, id);
    assert TaskAt(s, id);
    if id in Joins(s) {
      var w := BagWitness(s.ws, JoinsOf, id);
      IdleAtEnd(s, w);
      assert false;
    }
  }

  /** When `run` returns, no worker has a frame, a queued branch or a task in hand, and every
      branch ever pushed was executed exactly once and joined by its own caller. */
  lemma NothingOutlivesTheRoot(root: Closure, states: seq<State>, acts: seq<Action>, n: nat)
    requires IsRun(root, states, acts) && n < |states| && states[n].answer.Some?
    ensures forall w :: 0 <= w < |states[n].ws| ==> states[n].ws[w] == Worker([], Idle, [])
    ensures forall id :: 0 <= id < |states[n].tasks| ==>
              var t := states[n].tasks[id]; t.taken == 1 && t.result.None? && (t.inlined || t.latch)
  {
    hide Inv;
    var s := states[n];
    RunKeeps(root, states, acts, n);
    forall w | 0 <= w < |s.ws| ensures s.ws[w] == Worker([], Idle, []) {
      IdleAtEnd(s, w);
    }
    forall id | 0 <= id < |s.tasks|
      ensures var t := s.tasks[id]; t.taken == 1 && t.result.None? && (t.inlined || t.latch)
    {
      JoinedAtEnd(s, id);
    }
  }

  lemma IdleAtEnd(s: State, w: nat)
    requires Inv(s) && s.answer.Some? && w < |s.ws|
    ensures s.ws[w] == Worker([], Idle, [])
  {
    hide Bag;
    var k := s.ws[w];
    assert WorkerOk(s, k);
    if k.frames != [] {
      ExecIn(k.frames, 0);
      NothingUnfinished(s, k.frames[0].id);
      BagAt(s.ws, w, RunsOf, k.frames[0].id);
    } else if k.ctl.Hold? {
      NothingUnfinished(s, k.ctl.id);
      BagAt(s.ws, w, RefsOf, k.ctl.id);
    } else if k.ctl.Publish? {
      NothingUnfinished(s, k.ctl.id);
      BagAt(s.ws, w, RunsOf, k.ctl.id);
    }
  }
}
