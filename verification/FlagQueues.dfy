/** Queues behind a lock with a flag in front of it, so that nobody takes the lock of an empty
    queue: the deferred queue of a worker (src/resumable/common/deque.rs, first in first out)
    and the external queue drained on the steal path (src/resumable/common/external_queue.rs,
    last in first out).  Any number of threads push and take; one step is taking or releasing
    the lock, one queue operation under it, or one load or store of the flag. */
module FlagQueues {
  import opened Basics
  import opened Folds

  datatype Order = Fifo | Lifo

  datatype Thread =
    | Idle
    | WantPush(v: nat)           // about to lock
    | Pushing(v: nat)            // holds the lock: about to push
    | Pushed                     // holds the lock: about to release it
    | Between                    // about to set the flag
    | Looking                    // a taker about to load the flag
    | WantTake                   // saw it set: about to lock
    | Taking                     // holds the lock: about to pop
    | Took(got: Option<nat>)     // holds the lock: about to look whether the queue is empty
    | Clearing(got: Option<nat>) // holds the lock: about to clear the flag
    | Leaving(got: Option<nat>)  // holds the lock: about to release it

  /** `pushed` and `taken` are the items pushed and taken so far, in order. */
  datatype State = State(order: Order, q: seq<nat>, flag: bool, locked: bool, threads: seq<Thread>,
                         pushed: seq<nat>, taken: seq<nat>)

  predicate Init(s: State) {
    && s.q == [] && !s.flag && !s.locked && s.pushed == [] && s.taken == []
    && forall k :: 0 <= k < |s.threads| ==> s.threads[k] == Idle
  }

  datatype Action = CallPush(k: nat, v: nat) | CallTake(k: nat) | Step(k: nat)

  predicate Enabled(s: State, a: Action) {
    match a
    case CallPush(k, _) => k < |s.threads| && s.threads[k] == Idle
    case CallTake(k) => k < |s.threads| && s.threads[k] == Idle
    case Step(k) =>
      k < |s.threads| && s.threads[k] != Idle && (s.threads[k].WantPush? || s.threads[k] == WantTake ==> !s.locked)
  }

  function Goto(s: State, k: nat, pc: Thread): State
    requires k < |s.threads|
  {
    s.(threads := s.threads[k := pc])
  }

  function Apply(s: State, a: Action): State
    requires Enabled(s, a)
  {
    match a
    case CallPush(k, v) => Goto(s, k, WantPush(v))
    case CallTake(k) => Goto(s, k, Looking)
    case Step(k) => StepThread(s, k)
  }

  /** What a taker gets, and what it leaves: the front of a deferred queue, the back of an
      external one. */
  function Popped(order: Order, q: seq<nat>): (Option<nat>, seq<nat>) {
    if q == [] then (None, [])
    else if order == Fifo then (Some(q[0]), q[1..]) else (Some(q[|q| - 1]), q[..|q| - 1])
  }

  function StepThread(s: State, k: nat): State
    requires k < |s.threads|
  {
    match s.threads[k]
    case Idle => s
    case WantPush(v) => Goto(s, k, Pushing(v)).(locked := true)
    case Pushing(v) => Goto(s, k, Pushed).(q := s.q + [v], pushed := s.pushed + [v])
    case Pushed => Goto(s, k, Between).(locked := false)
    case Between => Goto(s, k, Idle).(flag := true)
    case Looking => Goto(s, k, if s.flag then WantTake else Idle)
    case WantTake => Goto(s, k, Taking).(locked := true)
    case Taking =>
      var (got, q) := Popped(s.order, s.q);
      Goto(s, k, Took(got)).(q := q, taken := if got.Some? then s.taken + [got.value] else s.taken)
    case Took(got) => Goto(s, k, if s.q == [] then Clearing(got) else Leaving(got))
    case Clearing(got) => Goto(s, k, Leaving(got)).(flag := false)
    case Leaving(_) => Goto(s, k, Idle).(locked := false)
  }

  // ---------------------------------------------------------------------------
  // Inductive invariant
  // ---------------------------------------------------------------------------

  predicate Holds(pc: Thread) {
    pc.Pushing? || pc == Pushed || pc == Taking || pc.Took? || pc.Clearing? || pc.Leaving?
  }

  /** The lock has at most one holder. */
  ghost predicate LockOk(s: State) {
    && (forall k :: 0 <= k < |s.threads| && Holds(s.threads[k]) ==> s.locked)
    && (forall j, k :: 0 <= j < k < |s.threads| ==> !(Holds(s.threads[j]) && Holds(s.threads[k])))
  }

  /** This pusher has pushed and will still set the flag. */
  predicate WillFlag(pc: Thread) { pc == Pushed || pc == Between }

  ghost predicate FlagOk(s: State) {
    && (s.q != [] && !s.flag ==> exists k :: 0 <= k < |s.threads| && WillFlag(s.threads[k]))
    && (forall k :: 0 <= k < |s.threads| && s.threads[k].Clearing? ==> s.q == [])
  }

  ghost predicate ItemsOk(s: State) {
    && multiset(s.pushed) == multiset(s.taken) + multiset(s.q)
    && (s.order == Fifo ==> s.pushed == s.taken + s.q)
  }

  ghost predicate Inv(s: State) { LockOk(s) && FlagOk(s) && ItemsOk(s) }

  lemma PoppedItems(order: Order, q: seq<nat>)
    requires q != []
    ensures Popped(order, q).0.Some?
    ensures multiset(q) == multiset{Popped(order, q).0.value} + multiset(Popped(order, q).1)
    ensures order == Fifo ==> q == [Popped(order, q).0.value] + Popped(order, q).1
  {
    if order == Fifo {
      assert q == [q[0]] + q[1..];
    } else {
      assert q == q[..|q| - 1] + [q[|q| - 1]];
    }
  }

  lemma ItemsKeep(s: State, a: Action)
    requires ItemsOk(s) && Enabled(s, a)
    ensures ItemsOk(Apply(s, a))
  {
    if a.Step? && s.threads[a.k] == Taking {
      TakeKeepsItems(s, a.k);
    } else if a.Step? && s.threads[a.k].Pushing? {
      PushKeepsItems(s, a.k);
    } else {
      hide ItemsOk;
      OthersKeepItems(s, a);
      SameItems(s, Apply(s, a));
    }
  }

  lemma SameItems(s: State, s': State)
    requires ItemsOk(s) && s'.q == s.q && s'.pushed == s.pushed && s'.taken == s.taken && s'.order == s.order
    ensures ItemsOk(s')
  {
  }

  lemma OthersKeepItems(s: State, a: Action)
    requires Enabled(s, a) && !(a.Step? && (s.threads[a.k] == Taking || s.threads[a.k].Pushing?))
    ensures var s' := Apply(s, a);
            s'.q == s.q && s'.pushed == s.pushed && s'.taken == s.taken && s'.order == s.order
  {
  }

  lemma PushKeepsItems(s: State, k: nat)
    requires ItemsOk(s) && k < |s.threads| && s.threads[k].Pushing?
    ensures ItemsOk(StepThread(s, k))
  {
  }

  lemma TakeKeepsItems(s: State, k: nat)
    requires ItemsOk(s) && k < |s.threads| && s.threads[k] == Taking
    ensures ItemsOk(StepThread(s, k))
  {
    if s.q != [] {
      PoppedItems(s.order, s.q);
      TakenItems(s.pushed, s.taken, s.q, Popped(s.order, s.q).0.value, Popped(s.order, s.q).1);
      hide Popped;
    }
  }

  lemma TakenItems(pushed: seq<nat>, taken: seq<nat>, q: seq<nat>, x: nat, q': seq<nat>)
    requires multiset(pushed) == multiset(taken) + multiset(q) && multiset(q) == multiset{x} + multiset(q')
    ensures multiset(pushed) == multiset(taken + [x]) + multiset(q')
    ensures pushed == taken + q && q == [x] + q' ==> pushed == (taken + [x]) + q'
  {
  }

  lemma LockKeeps(s: State, a: Action)
    requires LockOk(s) && Enabled(s, a)
    ensures LockOk(Apply(s, a))
  {
    hide Popped;
    var s' := Apply(s, a);
    if a.Step? { HoldsAfter(s, a.k); }
  }

  /** A thread holds the lock after its step only if it did before or found it free. */
  lemma HoldsAfter(s: State, k: nat)
    requires k < |s.threads| && Enabled(s, Step(k)) && (Holds(s.threads[k]) ==> s.locked)
    ensures var s' := StepThread(s, k);
            && s'.threads == s.threads[k := s'.threads[k]]
            && (Holds(s'.threads[k]) ==> s'.locked && (Holds(s.threads[k]) || !s.locked))
            && (!Holds(s'.threads[k]) ==> s'.locked == (s.locked && !Holds(s.threads[k])))
  {
  }

  lemma FlagKeeps(s: State, a: Action)
    requires LockOk(s) && FlagOk(s) && Enabled(s, a)
    ensures FlagOk(Apply(s, a))
  {
    var s' := Apply(s, a);
    if s'.q != [] && !s'.flag {
      if a.Step? && s.threads[a.k].Pushing? {
        assert WillFlag(s'.threads[a.k]);
      } else {
        var k :| 0 <= k < |s.threads| && WillFlag(s.threads[k]);
        assert WillFlag(s'.threads[k]);
      }
    }
  }

  /** A run: the states passed through and the steps between them. */
  ghost predicate IsRun(run: seq<State>, acts: seq<Action>) {
    && |run| == |acts| + 1 && Init(run[0])
    && forall i :: 0 <= i < |acts| ==> Enabled(run[i], acts[i]) && run[i + 1] == Apply(run[i], acts[i])
  }

  lemma RunLength(run: seq<State>, acts: seq<Action>)
    requires IsRun(run, acts)
    ensures |run| == |acts| + 1
  {
  }

  lemma StepOf(run: seq<State>, acts: seq<Action>, i: nat)
    requires IsRun(run, acts) && i < |acts|
    ensures |run| == |acts| + 1 && Enabled(run[i], acts[i]) && run[i + 1] == Apply(run[i], acts[i])
  {
  }

  lemma {:induction false} RunKeeps(run: seq<State>, acts: seq<Action>, n: nat)
    requires IsRun(run, acts) && n < |run|
    ensures Inv(run[n])
  {
    hide LockOk, FlagOk, ItemsOk;
    if n == 0 {
      InitKeeps(run[0]);
    } else {
      RunKeeps(run, acts, n - 1);
      StepOf(run, acts, n - 1);
      var a := acts[n - 1];
      ItemsKeep(run[n - 1], a);
      LockKeeps(run[n - 1], a);
      FlagKeeps(run[n - 1], a);
    }
  }

  lemma InitKeeps(s: State)
    requires Init(s)
    ensures Inv(s)
  {
  }

  // ---------------------------------------------------------------------------
  // What every run satisfies
  // ---------------------------------------------------------------------------

  /** The flag hides a non-empty queue only while some pusher is still between its push and its
      store of the flag. */
  lemma FlagHidesNothing(run: seq<State>, acts: seq<Action>, n: nat)
    requires IsRun(run, acts) && n < |run| && run[n].q != [] && !run[n].flag
    ensures exists k :: 0 <= k < |run[n].threads| && WillFlag(run[n].threads[k])
  {
    RunKeeps(run, acts, n);
  }

  /** Every item pushed was taken once or is still queued; deferred items leave in the order
      they came, whoever takes them. */
  lemma NothingLostOrDoubled(run: seq<State>, acts: seq<Action>, n: nat)
    requires IsRun(run, acts) && n < |run|
    ensures multiset(run[n].pushed) == multiset(run[n].taken) + multiset(run[n].q)
    ensures run[n].order == Fifo ==> run[n].pushed == run[n].taken + run[n].q
  {
    RunKeeps(run, acts, n);
  }

  /** How often a thread is about to push `v`, and how often a taker has it in hand. */
  function PushOf(v: nat): Thread -> nat {
    (t: Thread) => One((t.WantPush? || t.Pushing?) && t.v == v)
  }

  function GotOf(v: nat): Thread -> nat {
    (t: Thread) => One((t.Took? || t.Clearing? || t.Leaving?) && t.got == Some(v))
  }

  /** How often a push of `v` was called in the first `n` steps, and a take has returned it. */
  ghost function Called(acts: seq<Action>, n: nat, v: nat): nat
    requires n <= |acts|
  {
    if n == 0 then 0 else Called(acts, n - 1, v) + One(acts[n - 1].CallPush? && acts[n - 1].v == v)
  }

  ghost function Returned(run: seq<State>, acts: seq<Action>, n: nat, v: nat): nat
    requires |run| == |acts| + 1 && n <= |acts|
  {
    if n == 0 then 0 else Returned(run, acts, n - 1, v) + One(Returns(run[n - 1], acts[n - 1], v))
  }

  predicate Returns(s: State, a: Action, v: nat) {
    a.Step? && a.k < |s.threads| && s.threads[a.k] == Leaving(Some(v))
  }

  /** Whatever was given to a push is about to be pushed, queued, in a taker's hand, or was
      returned by one take. */
  lemma {:induction false} EveryItemComesOutOnce(run: seq<State>, acts: seq<Action>, n: nat, v: nat)
    requires IsRun(run, acts) && n < |run|
    ensures |run| == |acts| + 1
    ensures Called(acts, n, v)
            == Sum(run[n].threads, PushOf(v)) + multiset(run[n].q)[v] + Sum(run[n].threads, GotOf(v)) + Returned(run, acts, n, v)
  {
    hide IsRun, Enabled, Apply, Sum, PushOf, GotOf, Returns;
    RunLength(run, acts);
    if n == 0 {
      NothingHeld(run, acts, v);
    } else {
      EveryItemComesOutOnce(run, acts, n - 1, v);
      StepOf(run, acts, n - 1);
      ItemMoves(run[n - 1], acts[n - 1], v);
    }
  }

  lemma NothingHeld(run: seq<State>, acts: seq<Action>, v: nat)
    requires IsRun(run, acts)
    ensures |run| > 0 && run[0].q == []
    ensures Sum(run[0].threads, PushOf(v)) == 0 && Sum(run[0].threads, GotOf(v)) == 0
  {
    SumAtMost(run[0].threads, PushOf(v), 0);
    SumAtMost(run[0].threads, GotOf(v), 0);
  }

  /** What one thread gives up, another place takes. */
  lemma ItemMoves(s: State, a: Action, v: nat)
    requires Enabled(s, a)
    ensures var s' := Apply(s, a);
            Sum(s.threads, PushOf(v)) + multiset(s.q)[v] + Sum(s.threads, GotOf(v)) + One(a.CallPush? && a.v == v)
            == Sum(s'.threads, PushOf(v)) + multiset(s'.q)[v] + Sum(s'.threads, GotOf(v)) + One(Returns(s, a, v))
  {
    hide Sum, StepThread;
    var s' := Apply(s, a);
    if a.Step? {
      if s.threads[a.k] == Taking {
        TakeMoves(s, a.k, v);
      } else if s.threads[a.k].Pushing? {
        PushMoves(s, a.k, v);
      } else {
        OtherMoves(s, a.k);
      }
    }
    SumUpdate(s.threads, a.k, s'.threads[a.k], PushOf(v));
    SumUpdate(s.threads, a.k, s'.threads[a.k], GotOf(v));
  }

  lemma TakeMoves(s: State, k: nat, v: nat)
    requires k < |s.threads| && s.threads[k] == Taking
    ensures var s' := StepThread(s, k);
            && s'.threads == s.threads[k := s'.threads[k]] && s'.threads[k].Took?
            && multiset(s.q)[v] == multiset(s'.q)[v] + One(s'.threads[k].got == Some(v))
  {
    if s.q != [] { PoppedItems(s.order, s.q); }
  }

  lemma PushMoves(s: State, k: nat, v: nat)
    requires k < |s.threads| && s.threads[k].Pushing?
    ensures var s' := StepThread(s, k);
            && s'.threads == s.threads[k := Pushed] && multiset(s'.q)[v] == multiset(s.q)[v] + One(s.threads[k].v == v)
  {
  }

  lemma OtherMoves(s: State, k: nat)
    requires k < |s.threads| && !s.threads[k].Pushing? && s.threads[k] != Taking
    ensures var t, s' := s.threads[k], StepThread(s, k);
            var t' := s'.threads[k];
            && s'.threads == s.threads[k := t'] && s'.q == s.q
            && match t {
                 case WantPush(v) => t' == Pushing(v)
                 case Took(got) => (t'.Clearing? || t'.Leaving?) && t'.got == got
                 case Clearing(got) => t' == Leaving(got)
                 case Leaving(_) => t' == Idle
                 case _ => !t'.WantPush? && !t'.Pushing? && !t'.Took? && !t'.Clearing? && !t'.Leaving?
               }
  {
  }

  lemma QueueStep(s: State, a: Action)
    requires Enabled(s, a) && s.order == Lifo
    ensures var q, q' := s.q, Apply(s, a).q;
            && Apply(s, a).order == Lifo
            && (q' != q ==> Pushes(s, a) || (q != [] && q' == q[..|q| - 1]))
            && (Pushes(s, a) ==> q' == q + [s.threads[a.k].v])
  {
  }

  /** The step pushes an item. */
  predicate Pushes(s: State, a: Action) {
    a.Step? && a.k < |s.threads| && s.threads[a.k].Pushing?
  }

  /** In a last-in-first-out queue, the item at height `h` was pushed by some step `i` on the items
      below it, and neither it nor they have moved since. */
  lemma {:induction false} PushedOn(run: seq<State>, acts: seq<Action>, n: nat, h: nat) returns (i: nat)
    requires IsRun(run, acts) && n < |run| && run[0].order == Lifo && h < |run[n].q|
    ensures run[n].order == Lifo && i < n && Pushes(run[i], acts[i])
    ensures run[i].q == run[n].q[..h] && run[i + 1].q == run[n].q[..h + 1]
    ensures forall m :: i < m <= n ==> run[n].q[..h + 1] <= run[m].q
  {
    hide IsRun, Enabled, Apply, Pushes;
    RunLength(run, acts);
    OrderStays(run, acts, n);
    if n == 0 {
      EmptyAtFirst(run, acts);
      assert false;
    }
    OrderStays(run, acts, n - 1);
    StepOf(run, acts, n - 1);
    QueueStep(run[n - 1], acts[n - 1]);
    var q, q' := run[n - 1].q, run[n].q;
    if Pushes(run[n - 1], acts[n - 1]) && h == |q| {
      i := n - 1;
      assert q'[..h] == q && q'[..h + 1] == q';
    } else {
      assert h < |q| && q'[..h] == q[..h] && q'[..h + 1] == q[..h + 1];
      i := PushedOn(run, acts, n - 1, h);
    }
  }

  lemma EmptyAtFirst(run: seq<State>, acts: seq<Action>)
    requires IsRun(run, acts)
    ensures |run| > 0 && run[0].q == []
  {
  }

  lemma {:induction false} OrderStays(run: seq<State>, acts: seq<Action>, n: nat)
    requires IsRun(run, acts) && n < |run|
    ensures run[n].order == run[0].order
  {
    hide IsRun;
    RunLength(run, acts);
    if n > 0 {
      OrderStays(run, acts, n - 1);
      StepOf(run, acts, n - 1);
    }
  }

  /** A take from a last-in-first-out queue yields the item pushed last of those still there: the
      items under it are those that were there when it was pushed, and stayed there since. */
  lemma NewestIsTaken(run: seq<State>, acts: seq<Action>, n: nat, k: nat) returns (i: nat)
    requires IsRun(run, acts) && n < |acts| && run[0].order == Lifo
    requires acts[n] == Step(k) && run[n].q != [] && k < |run[n].threads| && run[n].threads[k] == Taking
    ensures |run| == |acts| + 1 && i < n && Pushes(run[i], acts[i])
    ensures k < |run[n + 1].threads| && run[n + 1].threads[k] == Took(Some(run[i].threads[acts[i].k].v))
    ensures run[n + 1].q == run[i].q
    ensures forall m :: i < m <= n ==> run[i + 1].q <= run[m].q
  {
    hide IsRun;
    RunLength(run, acts);
    StepOf(run, acts, n);
    var h := |run[n].q| - 1;
    i := PushedOn(run, acts, n, h);
    StepOf(run, acts, i);
    OrderStays(run, acts, i);
    QueueStep(run[i], acts[i]);
    assert run[n].q[..h + 1] == run[n].q;
    assert run[i + 1].q == run[i].q + [run[i].threads[acts[i].k].v];
  }

  /** A take goes for the lock exactly if it sees the flag set; and one that leaves the queue empty,
      and no other, clears the flag before it releases the lock. */
  lemma FlagSparesTheLock(run: seq<State>, acts: seq<Action>, n: nat, k: nat)
    requires IsRun(run, acts) && n < |acts| && acts[n] == Step(k)
    ensures |run| == |acts| + 1 && k < |run[n].threads| == |run[n + 1].threads|
    ensures run[n].threads[k] == Looking ==> run[n + 1].threads[k] == (if run[n].flag then WantTake else Idle)
    ensures run[n].threads[k].Took? ==>
              var s := run[n + 1];
              if run[n].q == [] then s.threads[k].Clearing? && !StepThread(s, k).flag && StepThread(s, k).q == []
              else s.threads[k].Leaving? && s.flag == run[n].flag
  {
    hide IsRun, Popped;
    RunLength(run, acts);
    StepOf(run, acts, n);
  }

  /** How many steps an operation has left. */
  function ThreadLeft(t: Thread): nat {
    match t
    case Idle => 0
    case WantPush(_) => 4
    case Pushing(_) => 3
    case Pushed => 2
    case Between => 1
    case Looking => 6
    case WantTake => 5
    case Taking => 4
    case Took(_) => 3
    case Clearing(_) => 2
    case Leaving(_) => 1
  }

  /** Every operation ends: each step of a thread leaves it fewer, and others leave it alone. */
  lemma OperationsEnd(run: seq<State>, acts: seq<Action>, n: nat, k: nat)
    requires IsRun(run, acts) && n < |acts| && k < |run[n].threads| && run[n].threads[k] != Idle
    ensures |run| == |acts| + 1 && k < |run[n + 1].threads|
    ensures if acts[n] == Step(k) then ThreadLeft(run[n + 1].threads[k]) < ThreadLeft(run[n].threads[k])
            else run[n + 1].threads[k] == run[n].threads[k]
  {
    hide IsRun, Popped;
    RunLength(run, acts);
    StepOf(run, acts, n);
  }

  /** So a thread that looks when no pusher is under way, and is left alone, takes an item
      exactly if there is one. */
  lemma QuietTakeFinds(run: seq<State>, acts: seq<Action>, n: nat, k: nat)
    requires IsRun(run, acts) && n < |run| && k < |run[n].threads|
    requires forall j :: 0 <= j < |run[n].threads| ==> run[n].threads[j] == (if j == k then Looking else Idle)
    ensures Enabled(run[n], Step(k))
    ensures var s := run[n];
            var s1 := StepThread(s, k);
            if s.q == [] then s1.taken == s.taken
            else s1.threads[k] == WantTake && Enabled(s1, Step(k))
                 && StepThread(StepThread(s1, k), k).threads[k] == Took(Popped(s.order, s.q).0)
                 && Popped(s.order, s.q).0.Some?
  {
    RunKeeps(run, acts, n);
    UnlockedWhenIdle(run, acts, n);
  }

  /** The lock is held only by a thread inside. */
  lemma {:induction false} UnlockedWhenIdle(run: seq<State>, acts: seq<Action>, n: nat)
    requires IsRun(run, acts) && n < |run|
    ensures HolderOk(run[n])
  {
    hide LockOk, FlagOk, ItemsOk;
    if n > 0 {
      UnlockedWhenIdle(run, acts, n - 1);
      StepOf(run, acts, n - 1);
      var a := acts[n - 1];
      HolderKeeps(run[n - 1], a);
    }
  }

  ghost predicate HolderOk(s: State) {
    s.locked ==> exists k :: 0 <= k < |s.threads| && Holds(s.threads[k])
  }

  lemma HolderKeeps(s: State, a: Action)
    requires HolderOk(s) && Enabled(s, a)
    ensures HolderOk(Apply(s, a))
  {
    var s' := Apply(s, a);
    if s'.locked && !(a.Step? && Holds(s'.threads[a.k])) {
      var k :| 0 <= k < |s.threads| && Holds(s.threads[k]);
      assert Holds(s'.threads[k]);
    }
  }

  /** Nobody is ever stuck: a thread can move, or waits for the lock of one that can. */
  lemma ThreadsNeverStuck(run: seq<State>, acts: seq<Action>, n: nat, k: nat)
    requires IsRun(run, acts) && n < |run| && k < |run[n].threads| && run[n].threads[k] != Idle
    ensures Enabled(run[n], Step(k)) || exists j :: 0 <= j < |run[n].threads| && Holds(run[n].threads[j]) && Enabled(run[n], Step(j))
  {
    hide IsRun;
    UnlockedWhenIdle(run, acts, n);
    if run[n].locked {
      var j :| 0 <= j < |run[n].threads| && Holds(run[n].threads[j]);
      assert Enabled(run[n], Step(j));
    }
  }
}
