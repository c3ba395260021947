/** Totals over a sequence of components: the multiset of tokens that a pool of workers,
    queues and threads holds together, and the sum of their weights.  The state machines of
    the other modules count tokens with these, so that "exactly one owner" is an equation
    about one multiset instead of a quantifier over pairs of owners. */
module Folds {

  /** Everything the components of `xs` hold, counted with multiplicity. */
  function Bag<A, T(==)>(xs: seq<A>, f: A -> multiset<T>): multiset<T> {
    if xs == [] then multiset{} else Bag(xs[..|xs| - 1], f) + f(xs[|xs| - 1])
  }

  lemma BagPush<A, T>(xs: seq<A>, x: A, f: A -> multiset<T>)
    ensures Bag(xs + [x], f) == Bag(xs, f) + f(x)
  {
    assert (xs + [x])[..|xs|] == xs;
  }

  /** Replacing one component moves exactly the difference between its old and new holdings. */
  lemma {:induction false} BagUpdate<A, T>(xs: seq<A>, i: nat, x: A, f: A -> multiset<T>)
    requires i < |xs|
    ensures Bag(xs[i := x], f) + f(xs[i]) == Bag(xs, f) + f(x)
  {
    var n := |xs| - 1;
    var ys := xs[i := x];
    if i == n {
      assert ys[..n] == xs[..n];
    } else {
      assert ys[..n] == xs[..n][i := x];
      BagUpdate(xs[..n], i, x, f);
      var rest, rest' := Bag(xs[..n], f), Bag(xs[..n][i := x], f);
      assert Bag(ys, f) == rest' + f(xs[n]);
      assert Bag(ys, f) + f(xs[i]) == rest' + f(xs[..n][i]) + f(xs[n]);
    }
  }

  lemma {:induction false} BagAt<A, T>(xs: seq<A>, i: nat, f: A -> multiset<T>, t: T)
    requires i < |xs|
    ensures f(xs[i])[t] <= Bag(xs, f)[t]
  {
    var n := |xs| - 1;
    if i < n {
      BagAt(xs[..n], i, f, t);
    }
  }

  /** Two different components never hold more together than the total. */
  lemma {:induction false} BagPair<A, T>(xs: seq<A>, i: nat, j: nat, f: A -> multiset<T>, t: T)
    requires i < j < |xs|
    ensures f(xs[i])[t] + f(xs[j])[t] <= Bag(xs, f)[t]
  {
    var n := |xs| - 1;
    if j == n {
      BagAt(xs[..n], i, f, t);
    } else {
      BagPair(xs[..n], i, j, f, t);
    }
  }

  /** A token that is held at all is held by some component. */
  lemma {:induction false} BagWitness<A, T>(xs: seq<A>, f: A -> multiset<T>, t: T) returns (i: nat)
    requires t in Bag(xs, f)
    ensures i < |xs| && t in f(xs[i])
  {
    var n := |xs| - 1;
    if t in f(xs[n]) {
      i := n;
    } else {
      i := BagWitness(xs[..n], f, t);
    }
  }

  lemma {:induction false} BagEmpty<A, T>(xs: seq<A>, f: A -> multiset<T>)
    requires forall i :: 0 <= i < |xs| ==> f(xs[i]) == multiset{}
    ensures Bag(xs, f) == multiset{}
  {
    if xs != [] {
      BagEmpty(xs[..|xs| - 1], f);
    }
  }

  /** The sum of the components' weights. */
  function Sum<A>(xs: seq<A>, f: A -> nat): nat {
    if xs == [] then 0 else Sum(xs[..|xs| - 1], f) + f(xs[|xs| - 1])
  }

  lemma SumPush<A>(xs: seq<A>, x: A, f: A -> nat)
    ensures Sum(xs + [x], f) == Sum(xs, f) + f(x)
  {
    assert (xs + [x])[..|xs|] == xs;
  }

  lemma {:induction false} SumUpdate<A>(xs: seq<A>, i: nat, x: A, f: A -> nat)
    requires i < |xs|
    ensures Sum(xs[i := x], f) + f(xs[i]) == Sum(xs, f) + f(x)
  {
    var n := |xs| - 1;
    var ys := xs[i := x];
    if i == n {
      assert ys[..n] == xs[..n];
    } else {
      assert ys[..n] == xs[..n][i := x];
      SumUpdate(xs[..n], i, x, f);
    }
  }

  lemma {:induction false} SumAtMost<A>(xs: seq<A>, f: A -> nat, bound: nat)
    requires forall i :: 0 <= i < |xs| ==> f(xs[i]) <= bound
    ensures Sum(xs, f) <= |xs| * bound
  {
    if xs != [] {
      SumAtMost(xs[..|xs| - 1], f, bound);
    }
  }

  // ---------------------------------------------------------------------------
  // Multiset equations
  // ---------------------------------------------------------------------------

  lemma Counts<T>(x: multiset<T>, y: multiset<T>, p: multiset<T>, q: multiset<T>)
    requires x + p == y + q
    ensures forall t: T :: x[t] + p[t] == y[t] + q[t]
  {
    forall t: T ensures x[t] + p[t] == y[t] + q[t] {
      assert (x + p)[t] == (y + q)[t];
    }
  }

  lemma Cancel<T>(x: multiset<T>, y: multiset<T>, b: multiset<T>, p: multiset<T>, q: multiset<T>)
    requires x + (b + p) == y + (b + q)
    ensures x + p == y + q
  {
    forall t: T ensures (x + p)[t] == (y + q)[t] {
      assert (x + (b + p))[t] == (y + (b + q))[t];
    }
  }

  lemma CancelAll<T>(x: multiset<T>, y: multiset<T>, b: multiset<T>)
    requires x + b == y + b
    ensures x == y
  {
    forall t: T ensures x[t] == y[t] {
      assert (x + b)[t] == (y + b)[t];
    }
  }
}
