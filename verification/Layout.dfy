/** Where a task's closure or future and its result live in the task's storage
    (`build_async_task` and `poll_spawned_task` in src/resumable/stackless/thread.rs,
    `branch_layout` in src/resumable/stackful/thread.rs, `align_down` in
    src/resumable/common/thread.rs).  Addresses are 64-bit words. */
module Layout {
  import opened Basics

  function Pow2(k: nat): (r: nat)
    ensures r >= 1
  {
    if k == 0 then 1 else 2 * Pow2(k - 1)
  }

  /** Bitwise and. */
  function And(x: nat, y: nat): nat
    decreases x
  {
    if x == 0 then 0 else 2 * And(x / 2, y / 2) + (x % 2) * (y % 2)
  }

  const WORD := 64

  /** Bitwise complement of a word. */
  function Not(x: nat): nat
    requires x < Pow2(WORD)
  {
    Pow2(WORD) - 1 - x
  }

  lemma {:induction false} Pow2Grows(j: nat, k: nat)
    requires j <= k
    ensures Pow2(j) <= Pow2(k)
  {
    if j < k { Pow2Grows(j, k - 1); }
  }

  /** `addr & !(align - 1)`. */
  function AlignDown(addr: nat, align: nat): nat
    requires 1 <= align <= Pow2(WORD)
  {
    And(addr, Not(align - 1))
  }

  lemma {:induction false} AndOnes(x: nat, n: nat)
    requires x < Pow2(n)
    ensures And(x, Pow2(n) - 1) == x
  {
    if x != 0 {
      assert n > 0;
      assert (Pow2(n) - 1) / 2 == Pow2(n - 1) - 1 && (Pow2(n) - 1) % 2 == 1;
      AndOnes(x / 2, n - 1);
    }
  }

  /** What is above the multiple of `m` below `x`; a name, so that proofs can hide the division. */
  function Rest(x: nat, m: nat): nat
    requires m >= 1
  {
    x % m
  }

  /** Masking off the low `k` bits rounds down to a multiple of two to the `k`. */
  lemma {:induction false} AndMask(x: nat, n: nat, k: nat)
    requires k <= n && x < Pow2(n)
    ensures Pow2(k) <= Pow2(n) && And(x, Pow2(n) - Pow2(k)) == x - Rest(x, Pow2(k))
    decreases k
  {
    hide And, Rest;
    if k == 0 {
      AndOnes(x, n);
      NothingBelowOne(x);
    } else {
      AndMask(x / 2, n - 1, k - 1);
      MaskDoubles(x, Pow2(n - 1), Pow2(k - 1));
    }
  }

  lemma NothingBelowOne(x: nat)
    ensures Rest(x, 1) == 0
  {
  }

  lemma MaskDoubles(x: nat, p: nat, q: nat)
    requires 1 <= q <= p && And(x / 2, p - q) == x / 2 - Rest(x / 2, q)
    ensures And(x, 2 * p - 2 * q) == x - Rest(x, 2 * q)
  {
    hide And, Rest;
    AndHalf(x, p - q);
    HalfRest(x, q);
  }

  lemma AndHalf(x: nat, y: nat)
    ensures And(x, 2 * y) == 2 * And(x / 2, y)
  {
    assert (2 * y) / 2 == y && (2 * y) % 2 == 0;
    if x > 0 { assert (x % 2) * ((2 * y) % 2) == 0; }
  }

  lemma HalfRest(x: nat, m: nat)
    requires m >= 1
    ensures 2 * (x / 2 - Rest(x / 2, m)) == x - Rest(x, 2 * m)
  {
    var h := x / 2;
    var q, r := h / m, h % m;
    assert h == m * q + r;
    assert x == 2 * m * q + (2 * r + x % 2);
    assert 0 <= 2 * r + x % 2 < 2 * m;
    DivUnique(x, 2 * m, q, 2 * r + x % 2);
  }

  /** For a power of two, `align_down` yields the greatest multiple of it that is not above the
      address. */
  lemma AlignDownIsGreatest(addr: nat, k: nat)
    requires addr < Pow2(WORD) && k < WORD
    ensures Pow2(k) <= Pow2(WORD)
    ensures var r := AlignDown(addr, Pow2(k));
            && r % Pow2(k) == 0 && r <= addr < r + Pow2(k)
            && forall m: nat :: m % Pow2(k) == 0 && m <= addr ==> m <= r
  {
    hide Pow2;
    Pow2Grows(k, WORD);
    AndMask(addr, WORD, k);
    var p := Pow2(k);
    var r := AlignDown(addr, p);
    assert r == addr - addr % p;
    RoundedDown(addr, p);
  }

  lemma RoundedDown(x: nat, p: nat)
    requires p >= 1
    ensures (x - x % p) % p == 0 && forall m: nat :: m % p == 0 && m <= x ==> m <= x - x % p
  {
    assert x == p * (x / p) + x % p;
    DivUnique(x - x % p, p, x / p, 0);
    forall m: nat | m % p == 0 && m <= x ensures m <= x - x % p { MultipleBelow(m, x, p); }
  }

  lemma MultipleBelow(m: nat, x: nat, p: nat)
    requires p >= 1 && m % p == 0 && m <= x
    ensures m <= x - x % p
  {
    var a, b := m / p, x / p;
    assert m == p * a && x == p * b + x % p;
    MulStep(p, b, a);
    MulStep(p, a, b);
  }

  // ---------------------------------------------------------------------------
  // The two slots
  // ---------------------------------------------------------------------------

  /** Sizes, and alignments as powers of two, of the result slot and of the closure or future. */
  datatype Shape = Shape(resultSize: nat, resultAlign: nat, size: nat, align: nat)

  /** The bytes `build_async_task` asks for. */
  function Storage(l: Shape): nat {
    l.resultSize + Pow2(l.resultAlign) + l.size + Pow2(l.align) + 16
  }

  predicate Words(l: Shape) { l.resultAlign < WORD && l.align < WORD }

  /** Address of the result slot under a storage top. */
  function ResultAddr(top: nat, l: Shape): nat
    requires Words(l) && Pow2(l.resultAlign) <= Pow2(WORD) && l.resultSize <= top
  {
    AlignDown(top - l.resultSize, Pow2(l.resultAlign))
  }

  /** Address of the closure or future, by a subtraction that wraps. */
  function ClosureAddr(resultAddr: nat, l: Shape): nat
    requires Words(l) && Pow2(l.align) <= Pow2(WORD) && resultAddr < Pow2(WORD)
  {
    AlignDown((resultAddr - l.size) % Pow2(WORD), Pow2(l.align))
  }

  /** With the storage asked for (or more, as a pool hands out), wherever it is, both slots are
      aligned, disjoint and inside, and the subtraction does not wrap; 16 bytes stay free below. */
  lemma SlotsFit(base: nat, top: nat, l: Shape)
    requires Words(l) && top < Pow2(WORD) && base + Storage(l) <= top
    ensures Pow2(l.resultAlign) <= Pow2(WORD) && Pow2(l.align) <= Pow2(WORD) && l.resultSize <= top
    ensures var r := ResultAddr(top, l);
            && r < Pow2(WORD) && r % Pow2(l.resultAlign) == 0 && r + l.resultSize <= top
            && var f := ClosureAddr(r, l);
               f % Pow2(l.align) == 0 && f + l.size <= r && base + 16 < f
  {
    hide Pow2, AlignDown;
    AlignDownIsGreatest(top - l.resultSize, l.resultAlign);
    Pow2Grows(l.align, WORD);
    var r := ResultAddr(top, l);
    NoWrap(r - l.size, Pow2(WORD));
    AlignDownIsGreatest(r - l.size, l.align);
  }

  lemma NoWrap(x: int, m: nat)
    requires 0 <= x < m
    ensures x % m == x
  {
  }

  /** A task running on its own stack: the closure and the result lie above the 16-byte aligned
      top of the part it executes on. */
  lemma StackBelowSlots(base: nat, top: nat, l: Shape)
    requires Words(l) && top < Pow2(WORD) && base + Storage(l) <= top
    ensures Pow2(l.resultAlign) <= Pow2(WORD) && Pow2(l.align) <= Pow2(WORD) && l.resultSize <= top
    ensures var r := ResultAddr(top, l);
            && r < Pow2(WORD) && 16 <= Pow2(WORD)
            && var f := ClosureAddr(r, l);
               var exec := AlignDown(f, 16);
               exec % 16 == 0 && base < exec <= f
  {
    SlotsFit(base, top, l);
    assert Pow2(4) == 16;
    hide Pow2, AlignDown;
    AlignDownIsGreatest(ClosureAddr(ResultAddr(top, l), l), 4);
  }
}
