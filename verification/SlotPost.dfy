/** The slot post delegator's server (src/post.rs): a serve walks the slots of all producers and
    collects a ticket for each whose count has moved since the last serve.  Producers go on
    posting while the walk is under way, so the counts a serve sees are those each slot had when
    the walk reached it. */
module SlotPost {

  datatype Ticket = Ticket(producer: nat, count: nat)

  /** The tickets a walk collects that loads the counts `loads` from slots last seen at `seen`. */
  function Batch(loads: seq<nat>, seen: seq<nat>): seq<Ticket>
    requires |loads| == |seen|
  {
    if loads == [] then [] else
    var n := |loads| - 1;
    Batch(loads[..n], seen[..n]) + (if loads[n] != seen[n] then [Ticket(n, loads[n])] else [])
  }

  /** A batch names exactly the producers whose counts moved, each once, with the new count. */
  lemma {:induction false} BatchNames(loads: seq<nat>, seen: seq<nat>)
    requires |loads| == |seen|
    ensures forall t :: t in Batch(loads, seen) <==>
                          t.producer < |loads| && t.count == loads[t.producer] && loads[t.producer] != seen[t.producer]
    ensures forall a, b :: 0 <= a < b < |Batch(loads, seen)| ==> Batch(loads, seen)[a].producer < Batch(loads, seen)[b].producer
  {
    if loads != [] {
      var n := |loads| - 1;
      BatchNames(loads[..n], seen[..n]);
      var rest := Batch(loads[..n], seen[..n]);
      forall a | 0 <= a < |rest| ensures rest[a].producer < n {
        assert rest[a] in rest;
      }
    }
  }

  // ---------------------------------------------------------------------------
  // Any number of serves
  // ---------------------------------------------------------------------------

  /** Counts only go up. */
  predicate Up(a: seq<nat>, b: seq<nat>) {
    |a| == |b| && forall i :: 0 <= i < |a| ==> a[i] <= b[i]
  }

  /** `loads[k]` is what serve `k` loaded from the slots of `n` producers. */
  predicate Serves(n: nat, loads: seq<seq<nat>>) {
    && (forall k :: 0 <= k < |loads| ==> |loads[k]| == n)
    && (forall k :: 0 <= k < |loads| - 1 ==> Up(loads[k], loads[k + 1]))
  }

  /** What serve `k` finds in `seen`: what the serve before it loaded. */
  function Seen(n: nat, loads: seq<seq<nat>>, k: nat): seq<nat>
    requires k <= |loads|
  {
    if k == 0 then seq(n, i => 0) else loads[k - 1]
  }

  function BatchAt(n: nat, loads: seq<seq<nat>>, k: nat): seq<Ticket>
    requires Serves(n, loads) && k < |loads|
  {
    Batch(loads[k], Seen(n, loads, k))
  }

  lemma {:induction false} LoadsUp(n: nat, loads: seq<seq<nat>>, j: nat, k: nat)
    requires Serves(n, loads) && j <= k < |loads|
    ensures Up(loads[j], loads[k])
  {
    if j < k {
      LoadsUp(n, loads, j, k - 1);
      assert Up(loads[k - 1], loads[k - 1 + 1]);
    }
  }

  /** From any serve to any later one, a producer's tickets strictly grow. */
  lemma TicketsGrow(n: nat, loads: seq<seq<nat>>, j: nat, k: nat, s: Ticket, t: Ticket)
    requires Serves(n, loads) && j < k < |loads|
    requires s in BatchAt(n, loads, j) && t in BatchAt(n, loads, k) && s.producer == t.producer
    ensures s.count < t.count
  {
    BatchNames(loads[j], Seen(n, loads, j));
    BatchNames(loads[k], Seen(n, loads, k));
    LoadsUp(n, loads, j, k - 1);
    LoadsUp(n, loads, k - 1, k);
  }

  /** The ticket of producer `p` in serve `j` is the one that tells of its post number `c`. */
  predicate Tells(n: nat, loads: seq<seq<nat>>, j: nat, p: nat, c: nat)
    requires Serves(n, loads) && j < |loads| && p < n
  {
    Ticket(p, loads[j][p]) in BatchAt(n, loads, j) && Seen(n, loads, j)[p] < c <= loads[j][p]
  }

  /** Every post counted when serve `k` reached its slot is told of by exactly one ticket, of that
      serve or an earlier one. */
  lemma EveryPostToldOnce(n: nat, loads: seq<seq<nat>>, k: nat, p: nat, c: nat)
    requires Serves(n, loads) && k < |loads| && p < n && 1 <= c <= loads[k][p]
    ensures exists j: nat :: j <= k && Tells(n, loads, j, p, c)
    ensures forall i: nat, j: nat :: i < j < |loads| && Tells(n, loads, i, p, c) ==> !Tells(n, loads, j, p, c)
  {
    var j := FirstReaching(n, loads, k, p, c);
    BatchNames(loads[j], Seen(n, loads, j));
    assert Tells(n, loads, j, p, c);
    forall i: nat, j: nat | i < j < |loads| && Tells(n, loads, i, p, c) ensures !Tells(n, loads, j, p, c) {
      LoadsUp(n, loads, i, j - 1);
    }
  }

  lemma {:induction false} FirstReaching(n: nat, loads: seq<seq<nat>>, k: nat, p: nat, c: nat) returns (j: nat)
    requires Serves(n, loads) && k < |loads| && p < n && 1 <= c <= loads[k][p]
    ensures j <= k && Seen(n, loads, j)[p] < c <= loads[j][p]
  {
    if k > 0 && c <= loads[k - 1][p] {
      j := FirstReaching(n, loads, k - 1, p, c);
    } else {
      j := k;
    }
  }

  lemma BatchNext(loads: seq<nat>, seen: seq<nat>, i: nat)
    requires |loads| == |seen| && i < |loads|
    ensures Batch(loads[..i + 1], seen[..i + 1])
            == Batch(loads[..i], seen[..i]) + (if loads[i] != seen[i] then [Ticket(i, loads[i])] else [])
  {
    assert loads[..i + 1][..i] == loads[..i] && seen[..i + 1][..i] == seen[..i];
  }

  class Server {
    var busy: bool
    const seen: array<nat>

    constructor (producers: nat)
      ensures !busy && seen.Length == producers && fresh(seen) && forall i :: 0 <= i < producers ==> seen[i] == 0
    {
      busy := false;
      seen := new nat[producers](i => 0);
    }

    /** `serve_now`: nothing while somebody else serves or holds the lock; otherwise one walk. */
    method ServeNow(loads: seq<nat>) returns (did: bool, batch: seq<Ticket>)
      requires |loads| == seen.Length
      modifies this`busy, seen
      ensures busy == old(busy)
      ensures old(busy) ==> !did && batch == [] && seen[..] == old(seen[..])
      ensures !old(busy) ==> batch == Batch(loads, old(seen[..])) && seen[..] == loads && (did <==> loads != old(seen[..]))
    {
      if busy {
        return false, [];
      }
      hide Batch;
      busy := true;
      EmptyBatch([], []);
      batch := [];
      ghost var before := seen[..];
      for i := 0 to seen.Length
        invariant batch == Batch(loads[..i], before[..i])
        invariant forall j :: 0 <= j < i ==> seen[j] == loads[j]
        invariant forall j :: i <= j < seen.Length ==> seen[j] == before[j]
      {
        BatchNext(loads, before, i);
        if loads[i] != seen[i] {
          seen[i] := loads[i];
          batch := batch + [Ticket(i, loads[i])];
        }
      }
      assert loads[..|loads|] == loads && before[..|loads|] == before;
      did := batch != [];
      EmptyBatch(loads, before);
      busy := false;
    }
  }

  lemma EmptyBatch(loads: seq<nat>, seen: seq<nat>)
    requires |loads| == |seen|
    ensures Batch(loads, seen) == [] <==> loads == seen
  {
    BatchNames(loads, seen);
    if loads != seen {
      var i :| 0 <= i < |loads| && loads[i] != seen[i];
      assert Ticket(i, loads[i]) in Batch(loads, seen);
    } else if Batch(loads, seen) != [] {
      assert Batch(loads, seen)[0] in Batch(loads, seen);
    }
  }
}
