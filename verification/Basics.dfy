/** What several modules share: optional values, the weight of a condition, and Euclidean
    division. */
module Basics {

  datatype Option<+T> = None | Some(value: T)

  function One(b: bool): nat { if b then 1 else 0 }

  lemma MulStep(m: nat, a: nat, b: nat)
    ensures a < b ==> m * a + m <= m * b
  {
    if a < b {
      assert m * b >= m * (a + 1) == m * a + m;
    }
  }

  lemma DivUnique(x: nat, m: nat, q: nat, r: nat)
    requires m >= 1 && x == m * q + r && r < m
    ensures x % m == r
  {
    var q', r' := x / m, x % m;
    assert x == m * q' + r';
    MulStep(m, q, q');
    MulStep(m, q', q);
  }

  lemma Distribute(m: nat, q: nat, r: nat)
    ensures m * (q + r) == m * q + m * r && m * (q + r + 1) == m * q + m * r + m
  {
  }

  lemma RemainderOfSum(m: nat, q: nat, a: nat, r: nat, b: nat)
    requires a < m && b < m
    ensures (m * q + a + (m * r + b)) % m == if a + b < m then a + b else a + b - m
  {
    Distribute(m, q, r);
    if a + b < m {
      DivUnique(m * q + a + (m * r + b), m, q + r, a + b);
    } else {
      DivUnique(m * q + a + (m * r + b), m, q + r + 1, a + b - m);
    }
  }

  /** Going on by `d` comes back to the same remainder exactly if `d` is a multiple. */
  lemma SameRemainder(x: nat, d: nat, m: nat)
    requires m >= 1
    ensures (x + d) % m == x % m <==> d % m == 0
  {
    Quotient(x, m);
    Quotient(d, m);
    RemainderOfSum(m, x / m, x % m, d / m, d % m);
  }

  lemma Quotient(x: nat, m: nat)
    requires m >= 1
    ensures x == m * (x / m) + x % m && x % m < m
  {
  }
}
