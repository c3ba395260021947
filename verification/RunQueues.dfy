/** The run queues of a worker (src/resumable/common/deque.rs) and the external queue drained on
    the steal path (src/resumable/common/external_queue.rs), one operation at a time: what each
    does to the items.  What concurrent pushers and takers may see between the accesses of an
    operation is in `FlagQueues`.  The lock-free deque is taken as a sequence whose owner works
    at the end and whose thieves take the oldest item. */
module RunQueues {
  import opened Basics
  import opened FlagQueues

  /** A queue behind a lock and a flag: `Deferred` hands out its oldest item, `StealPathQueue` its
      newest. */
  class FlaggedQueue {
    const order: Order
    var nonEmpty: bool
    var q: seq<nat>

    /** With no operation under way, the flag hides nothing. */
    ghost predicate Valid()
      reads this
    {
      q != [] ==> nonEmpty
    }

    constructor (order: Order)
      ensures Valid() && q == [] && this.order == order
    {
      this.order, nonEmpty, q := order, false, [];
    }

    method Push(v: nat)
      requires Valid()
      modifies this
      ensures Valid() && q == old(q) + [v]
    {
      q := q + [v];
      nonEmpty := true;
    }

    /** Takes an item exactly if there is one. */
    method TryTake() returns (got: Option<nat>)
      requires Valid()
      modifies this
      ensures Valid() && (got, q) == Popped(order, old(q))
      ensures nonEmpty <==> q != []
    {
      if !nonEmpty {
        return None;
      }
      if q == [] {
        got := None;
      } else if order == Fifo {
        got, q := Some(q[0]), q[1..];
      } else {
        got, q := Some(q[|q| - 1]), q[..|q| - 1];
      }
      if q == [] {
        nonEmpty := false;
      }
    }
  }

  /** What a steal attempt answers; the deque may always ask to try again. */
  datatype Steal = Success(value: nat) | Empty | Retry

  /** The default run queue: a deque for `push`, a first-in-first-out queue for `defer`. */
  class HybridRunQueue {
    var main: seq<nat>
    const deferred: FlaggedQueue

    ghost predicate Valid()
      reads this, deferred
    {
      deferred.Valid() && deferred.order == Fifo
    }

    /** The items in the order in which the owner would take them. */
    ghost function OwnerView(): seq<nat>
      reads this, deferred
    {
      Reversed(main) + deferred.q
    }

    constructor ()
      ensures Valid() && OwnerView() == [] && fresh(deferred)
    {
      main := [];
      deferred := new FlaggedQueue(Fifo);
    }

    method Push(v: nat)
      requires Valid()
      modifies this
      ensures Valid() && OwnerView() == [v] + old(OwnerView())
    {
      ReversedPush(main, v);
      main := main + [v];
    }

    method Defer(v: nat)
      requires Valid()
      modifies deferred
      ensures Valid() && OwnerView() == old(OwnerView()) + [v]
    {
      deferred.Push(v);
    }

    /** The owner takes the newest pushed item, else the oldest deferred one. */
    method TryPop() returns (got: Option<nat>)
      requires Valid()
      modifies this, deferred
      ensures Valid()
      ensures old(OwnerView()) == [] ==> got == None && OwnerView() == []
      ensures old(OwnerView()) != [] ==> got == Some(old(OwnerView())[0]) && OwnerView() == old(OwnerView())[1..]
    {
      if main != [] {
        ReversedPush(main[..|main| - 1], main[|main| - 1]);
        assert main == main[..|main| - 1] + [main[|main| - 1]];
        got, main := Some(main[|main| - 1]), main[..|main| - 1];
        return;
      }
      got := deferred.TryTake();
    }

    /** A thief takes the oldest deferred item, else the oldest pushed one; the deque may make
        it retry, and then nothing has changed. */
    method TrySteal(contended: bool) returns (got: Steal)
      requires Valid()
      modifies this, deferred
      ensures Valid()
      ensures old(deferred.q) != [] ==>
                got == Success(old(deferred.q[0])) && deferred.q == old(deferred.q[1..]) && main == old(main)
      ensures got == Retry ==> contended && old(deferred.q) == []
      ensures old(deferred.q) == [] && got.Success? ==>
                old(main) != [] && got.value == old(main)[0] && main == old(main)[1..] && deferred.q == []
      ensures !got.Success? ==> main == old(main) && deferred.q == old(deferred.q) && (got == Empty ==> main == [] && deferred.q == [])
    {
      var d := deferred.TryTake();
      if d.Some? {
        return Success(d.value);
      }
      if contended {
        return Retry;
      }
      if main == [] {
        return Empty;
      }
      got := Success(main[0]);
      main := main[1..];
    }
  }

  function Reversed(xs: seq<nat>): seq<nat> {
    if xs == [] then [] else [xs[|xs| - 1]] + Reversed(xs[..|xs| - 1])
  }

  lemma ReversedPush(xs: seq<nat>, v: nat)
    ensures Reversed(xs + [v]) == [v] + Reversed(xs)
  {
    assert (xs + [v])[..|xs|] == xs;
  }

  lemma {:induction false} ReversedFirst(xs: seq<nat>)
    requires xs != []
    ensures Reversed(xs) == Reversed(xs[1..]) + [xs[0]]
  {
    var n := |xs| - 1;
    if n > 0 {
      ReversedFirst(xs[..n]);
      assert xs[..n][1..] == xs[1..][..n - 1];
    }
  }

  // ---------------------------------------------------------------------------
  // The two-queue form against the single queue
  // ---------------------------------------------------------------------------

  /** Operations on a run queue. */
  datatype Op = Push(v: nat) | Defer(v: nat) | Pop | StealOne

  /** The single queue of `SpinRunQueue`: pushes and pops at the front, defers and steals at the
      back. */
  function Spin(q: seq<nat>, op: Op): (seq<nat>, Option<nat>) {
    match op
    case Push(v) => ([v] + q, None)
    case Defer(v) => (q + [v], None)
    case Pop => if q == [] then ([], None) else (q[1..], Some(q[0]))
    case StealOne => if q == [] then ([], None) else (q[..|q| - 1], Some(q[|q| - 1]))
  }

  /** The deque and the deferred queue of `HybridRunQueue`, uncontended. */
  datatype Hybrid = Hybrid(main: seq<nat>, deferred: seq<nat>)

  function Step(h: Hybrid, op: Op): (Hybrid, Option<nat>) {
    match op
    case Push(v) => (h.(main := h.main + [v]), None)
    case Defer(v) => (h.(deferred := h.deferred + [v]), None)
    case Pop =>
      if h.main != [] then (h.(main := h.main[..|h.main| - 1]), Some(h.main[|h.main| - 1]))
      else if h.deferred != [] then (h.(deferred := h.deferred[1..]), Some(h.deferred[0]))
      else (h, None)
    case StealOne =>
      if h.deferred != [] then (h.(deferred := h.deferred[1..]), Some(h.deferred[0]))
      else if h.main != [] then (h.(main := h.main[1..]), Some(h.main[0]))
      else (h, None)
  }

  function View(h: Hybrid): seq<nat> { Reversed(h.main) + h.deferred }

  /** Everything the owner does gives the same on both; a steal does whenever at most one item
      is deferred. */
  lemma HybridRefinesSpin(h: Hybrid, op: Op)
    requires op == StealOne ==> |h.deferred| <= 1
    ensures View(Step(h, op).0) == Spin(View(h), op).0 && Step(h, op).1 == Spin(View(h), op).1
  {
    match op
    case Push(v) => ReversedPush(h.main, v);
    case Defer(v) =>
    case Pop => PopRefines(h);
    case StealOne => StealRefines(h);
  }

  lemma PopRefines(h: Hybrid)
    ensures View(Step(h, Pop).0) == Spin(View(h), Pop).0 && Step(h, Pop).1 == Spin(View(h), Pop).1
  {
    if h.main != [] {
      PopMain(h);
    } else {
      assert View(h) == h.deferred;
    }
  }

  lemma PopMain(h: Hybrid)
    requires h.main != []
    ensures var n := |h.main| - 1;
            View(h) != [] && View(h)[0] == h.main[n] && View(h)[1..] == View(h.(main := h.main[..n]))
  {
    var n := |h.main| - 1;
    assert Reversed(h.main) == [h.main[n]] + Reversed(h.main[..n]);
    hide Reversed;
    assert View(h) == [h.main[n]] + View(h.(main := h.main[..n]));
  }

  lemma StealRefines(h: Hybrid)
    requires |h.deferred| <= 1
    ensures View(Step(h, StealOne).0) == Spin(View(h), StealOne).0 && Step(h, StealOne).1 == Spin(View(h), StealOne).1
  {
    if h.deferred != [] {
      hide Reversed;
      assert View(h) == Reversed(h.main) + [h.deferred[0]];
      assert View(Step(h, StealOne).0) == Reversed(h.main);
    } else if h.main != [] {
      ReversedFirst(h.main);
      hide Reversed;
      assert View(h) == Reversed(h.main[1..]) + [h.main[0]];
      assert View(Step(h, StealOne).0) == Reversed(h.main[1..]);
    }
  }

  predicate AllSame(xs: seq<nat>) { forall i :: 0 <= i < |xs| ==> xs[i] == xs[0] }

  lemma {:induction false} ShiftedIsSame(xs: seq<nat>, i: nat)
    requires i < |xs| && xs[1..] == xs[..|xs| - 1]
    ensures xs[i] == xs[0]
  {
    if i > 0 {
      ShiftedIsSame(xs, i - 1);
      assert xs[1..][i - 1] == xs[..|xs| - 1][i - 1];
    }
  }

  /** A steal gives the same on both exactly if the deferred items cannot be told apart (in
      particular if there is at most one): else a thief gets the oldest deferred item from the
      hybrid queue and the newest from the single one, or leaves them in different orders. */
  lemma StealAgreesExactly(h: Hybrid)
    ensures View(Step(h, StealOne).0) == Spin(View(h), StealOne).0 && Step(h, StealOne).1 == Spin(View(h), StealOne).1
            <==> AllSame(h.deferred)
  {
    var d := h.deferred;
    if |d| <= 1 {
      HybridRefinesSpin(h, StealOne);
    } else {
      var n, m := |d| - 1, Reversed(h.main);
      assert View(h)[|m| + n] == d[n] && View(h)[..|m| + n] == m + d[..n];
      assert View(Step(h, StealOne).0) == m + d[1..];
      if m + d[1..] == m + d[..n] {
        assert d[1..] == (m + d[1..])[|m|..] == (m + d[..n])[|m|..] == d[..n];
        forall i | 0 <= i < |d| ensures d[i] == d[0] { ShiftedIsSame(d, i); }
      }
      if AllSame(d) { assert d[1..] == d[..n]; }
    }
  }

  lemma StealOrderDiffers()
    ensures Step(Hybrid([], [1, 2]), StealOne).1 == Some(1) && Spin(View(Hybrid([], [1, 2])), StealOne).1 == Some(2)
  {
    assert View(Hybrid([], [1, 2])) == [1, 2];
  }

  function RunHybrid(h: Hybrid, ops: seq<Op>): (Hybrid, seq<Option<nat>>)
  {
    if ops == [] then (h, [])
    else var (h1, out) := RunHybrid(h, ops[..|ops| - 1]); (Step(h1, ops[|ops| - 1]).0, out + [Step(h1, ops[|ops| - 1]).1])
  }

  function RunSpin(q: seq<nat>, ops: seq<Op>): (seq<nat>, seq<Option<nat>>)
  {
    if ops == [] then (q, [])
    else var (q1, out) := RunSpin(q, ops[..|ops| - 1]); (Spin(q1, ops[|ops| - 1]).0, out + [Spin(q1, ops[|ops| - 1]).1])
  }

  /** So an owner that is not stolen from cannot tell the two apart. */
  lemma {:induction false} OwnerCannotTell(h: Hybrid, ops: seq<Op>)
    requires StealOne !in ops
    ensures View(RunHybrid(h, ops).0) == RunSpin(View(h), ops).0 && RunHybrid(h, ops).1 == RunSpin(View(h), ops).1
  {
    if ops != [] {
      OwnerCannotTell(h, ops[..|ops| - 1]);
      HybridRefinesSpin(RunHybrid(h, ops[..|ops| - 1]).0, ops[|ops| - 1]);
    }
  }
}
