/** The descriptor pool that returns every node to the worker that allocated it
    (src/resumable/common/pool.rs): intrusive free lists linked through `next`, one local list
    and one mailbox per worker, and one staging list per pair of workers, flushed into the home
    worker's mailbox in batches. */
module ReturnPool {

  /** The lists of the pool: what worker `w` may take without a lock, `w`'s mailbox, and what
      worker `c` has staged for `w`. */
  datatype Place = Local(w: nat) | Remote(w: nat) | Staged(c: nat, w: nat)

  /** Where a node is: handed out, or `rank` nodes above the bottom of a list. */
  datatype Spot = InUse | At(place: Place, rank: nat)

  class Node {
    var next: Node?
    const allocWk: nat
    const oversized: bool

    constructor (allocWk: nat, oversized: bool)
      ensures this.allocWk == allocWk && this.oversized == oversized && next == null
    {
      this.allocWk, this.oversized, next := allocWk, oversized, null;
    }
  }

  // ---------------------------------------------------------------------------
  // The contents of the lists, as values
  // ---------------------------------------------------------------------------

  /** The contents of every list, newest first, and the spot of every pooled node not yet freed. */
  datatype Content = Content(lists: imap<Place, seq<Node>>, spots: map<Node, Spot>)

  ghost predicate IsPlace(p: Place, workers: nat) {
    p.w < workers && (p.Staged? ==> p.c < workers)
  }

  ghost predicate SlotOk(m: Content, p: Place, i: nat)
    requires p in m.lists && i < |m.lists[p]|
  {
    m.lists[p][i] in m.spots && m.spots[m.lists[p][i]] == At(p, |m.lists[p]| - 1 - i)
  }

  ghost predicate SpotOk(m: Content, n: Node)
    requires n in m.spots
  {
    m.spots[n].At? ==>
      var p, r := m.spots[n].place, m.spots[n].rank;
      p in m.lists && r < |m.lists[p]| && m.lists[p][|m.lists[p]| - 1 - r] == n && n.allocWk == p.w && !n.oversized
  }

  /** Lists and spots agree: so the lists are disjoint, no node is in a list twice, and every
      list holds nodes of its home worker only. */
  ghost predicate Placed(m: Content, workers: nat) {
    && (forall p: Place :: p in m.lists <==> IsPlace(p, workers))
    && (forall p: Place, i: nat :: p in m.lists && i < |m.lists[p]| ==> SlotOk(m, p, i))
    && (forall n: Node :: n in m.spots ==> SpotOk(m, n))
  }

  /** The node below `n` in its list. */
  ghost function Below(m: Content, n: Node): Node?
    requires n in m.spots && m.spots[n].At? && SpotOk(m, n)
  {
    var xs := m.lists[m.spots[n].place];
    if m.spots[n].rank == 0 then null else xs[|xs| - m.spots[n].rank]
  }

  ghost function HeadOf(xs: seq<Node>): Node? { if xs == [] then null else xs[0] }

  ghost function Popped(m: Content, p: Place): Content
    requires p in m.lists && m.lists[p] != []
  {
    Content(m.lists[p := m.lists[p][1..]], m.spots[m.lists[p][0] := InUse])
  }

  ghost function Pushed(m: Content, p: Place, n: Node): Content
    requires p in m.lists
  {
    Content(m.lists[p := [n] + m.lists[p]], m.spots[n := At(p, |m.lists[p]|)])
  }

  /** All of `from` on top of `to`. */
  ghost function Moved(m: Content, from: Place, to: Place): Content
    requires from in m.lists && to in m.lists && from != to
  {
    Content(m.lists[to := m.lists[from] + m.lists[to]][from := []],
            map n | n in m.spots ::
              if m.spots[n].At? && m.spots[n].place == from then At(to, m.spots[n].rank + |m.lists[to]|) else m.spots[n])
  }

  lemma PoppedPlaced(m: Content, workers: nat, p: Place)
    requires Placed(m, workers) && p in m.lists && m.lists[p] != []
    ensures Placed(Popped(m, p), workers)
    ensures SlotOk(m, p, 0)
    ensures forall n: Node :: n in m.spots && n != m.lists[p][0] && m.spots[n].At? ==>
              Popped(m, p).spots[n] == m.spots[n] && SpotOk(m, n) && SpotOk(Popped(m, p), n)
              && Below(Popped(m, p), n) == Below(m, n)
  {
    var m' := Popped(m, p);
    assert SlotOk(m, p, 0);
    forall q: Place, i: nat | q in m'.lists && i < |m'.lists[q]| ensures SlotOk(m', q, i) {
      if q == p { assert SlotOk(m, p, i + 1); } else { assert SlotOk(m, q, i); }
    }
    forall n: Node | n in m'.spots ensures SpotOk(m', n) {
      assert SpotOk(m, n);
    }
  }

  lemma PushedPlaced(m: Content, workers: nat, p: Place, n: Node)
    requires Placed(m, workers) && p in m.lists && (n in m.spots ==> m.spots[n] == InUse)
    requires n.allocWk == p.w && !n.oversized
    ensures Placed(Pushed(m, p, n), workers)
    ensures SpotOk(Pushed(m, p, n), n) && Below(Pushed(m, p, n), n) == HeadOf(m.lists[p])
    ensures forall x: Node :: x in m.spots && m.spots[x].At? ==>
              Pushed(m, p, n).spots[x] == m.spots[x] && SpotOk(m, x) && SpotOk(Pushed(m, p, n), x)
              && Below(Pushed(m, p, n), x) == Below(m, x)
  {
    var m' := Pushed(m, p, n);
    forall q: Place, i: nat | q in m'.lists && i < |m'.lists[q]| ensures SlotOk(m', q, i) {
      if q == p && i > 0 { assert SlotOk(m, p, i - 1); } else if q != p { assert SlotOk(m, q, i); }
    }
    forall x: Node | x in m'.spots ensures SpotOk(m', x) {
      if x != n { assert SpotOk(m, x); }
    }
  }

  lemma MovedPlaced(m: Content, workers: nat, from: Place, to: Place)
    requires Placed(m, workers) && from in m.lists && to in m.lists && from != to && from.w == to.w
    ensures Placed(Moved(m, from, to), workers)
    ensures forall n: Node :: n in m.spots && m.spots[n].At? ==>
              Moved(m, from, to).spots[n].At? && SpotOk(m, n) && SpotOk(Moved(m, from, to), n)
              && Below(Moved(m, from, to), n)
                 == (if m.spots[n] == At(from, 0) then HeadOf(m.lists[to]) else Below(m, n))
  {
    var m' := Moved(m, from, to);
    MovedSlots(m, workers, from, to);
    MovedSpots(m, workers, from, to);
    hide SlotOk;
    forall n: Node | n in m.spots && m.spots[n].At?
      ensures m'.spots[n].At? && SpotOk(m, n) && SpotOk(m', n)
              && Below(m', n) == (if m.spots[n] == At(from, 0) then HeadOf(m.lists[to]) else Below(m, n))
    {
      assert SpotOk(m, n) && SpotOk(m', n);
    }
  }

  lemma MovedSlots(m: Content, workers: nat, from: Place, to: Place)
    requires Placed(m, workers) && from in m.lists && to in m.lists && from != to
    ensures forall q: Place, i: nat :: q in m.lists && i < |Moved(m, from, to).lists[q]| ==> SlotOk(Moved(m, from, to), q, i)
  {
    hide SpotOk;
    var m' := Moved(m, from, to);
    forall q: Place, i: nat | q in m'.lists && i < |m'.lists[q]| ensures SlotOk(m', q, i) {
      if q == to && i < |m.lists[from]| { assert SlotOk(m, from, i); }
      else if q == to { assert SlotOk(m, to, i - |m.lists[from]|); }
      else { assert SlotOk(m, q, i); }
    }
  }

  lemma MovedSpots(m: Content, workers: nat, from: Place, to: Place)
    requires Placed(m, workers) && from in m.lists && to in m.lists && from != to && from.w == to.w
    ensures forall n: Node :: n in m.spots ==> SpotOk(Moved(m, from, to), n)
  {
    hide SlotOk;
    forall n: Node | n in m.spots ensures SpotOk(Moved(m, from, to), n) { assert SpotOk(m, n); }
  }

  /** What a worker takes, if anything: the top of its local list, else of its mailbox. */
  ghost function TakeFrom(m: Content, wk: nat): Node?
    requires Local(wk) in m.lists && Remote(wk) in m.lists
  {
    if m.lists[Local(wk)] != [] then m.lists[Local(wk)][0] else HeadOf(m.lists[Remote(wk)])
  }

  /** Taking: a mailbox found full becomes the local list as a whole. */
  ghost function Taken(m: Content, wk: nat): Content
    requires Local(wk) in m.lists && Remote(wk) in m.lists
  {
    if m.lists[Local(wk)] != [] then Popped(m, Local(wk))
    else if m.lists[Remote(wk)] != [] then Popped(Moved(m, Remote(wk), Local(wk)), Local(wk))
    else m
  }

  lemma TakenPlaced(m: Content, workers: nat, wk: nat)
    requires Placed(m, workers) && wk < workers
    ensures Local(wk) in m.lists && Remote(wk) in m.lists && Placed(Taken(m, wk), workers)
    ensures TakenLists(m, Taken(m, wk), wk)
    ensures TakenSpots(m, Taken(m, wk), wk, TakeFrom(m, wk))
  {
    assert IsPlace(Local(wk), workers) && IsPlace(Remote(wk), workers);
    if m.lists[Local(wk)] != [] {
      TakenLocal(m, workers, wk);
    } else if m.lists[Remote(wk)] != [] {
      TakenRemote(m, workers, wk);
    }
  }

  ghost predicate TakenLists(m: Content, m': Content, wk: nat)
    requires Local(wk) in m.lists && Remote(wk) in m.lists
  {
    m'.lists == if m.lists[Local(wk)] != [] then m.lists[Local(wk) := m.lists[Local(wk)][1..]]
                else if m.lists[Remote(wk)] != [] then m.lists[Local(wk) := m.lists[Remote(wk)][1..]][Remote(wk) := []]
                else m.lists
  }

  ghost predicate TakenSpots(m: Content, m': Content, wk: nat, r: Node?) {
    && m'.spots.Keys == m.spots.Keys
    && (r == null ==> m' == m)
    && (r != null ==> r in m.spots && m.spots[r].At? && m'.spots[r] == InUse && r.allocWk == wk && SpotOk(m, r)
                      && Local(wk) in m'.lists && Below(m, r) == HeadOf(m'.lists[Local(wk)]))
    && (forall n: Node :: n in m.spots && n != r ==> (m'.spots[n] == InUse <==> m.spots[n] == InUse))
    && (forall n: Node :: n in m'.spots && m'.spots[n].At? && SpotOk(m', n) ==>
          n in m.spots && m.spots[n].At? && SpotOk(m, n) && Below(m', n) == Below(m, n))
  }

  lemma TakenLocal(m: Content, workers: nat, wk: nat)
    requires Placed(m, workers) && wk < workers && Local(wk) in m.lists && m.lists[Local(wk)] != []
    ensures Placed(Popped(m, Local(wk)), workers)
    ensures TakenSpots(m, Popped(m, Local(wk)), wk, m.lists[Local(wk)][0])
  {
    PoppedPlaced(m, workers, Local(wk));
    assert SpotOk(m, m.lists[Local(wk)][0]);
    hide Placed;
  }

  lemma TakenRemote(m: Content, workers: nat, wk: nat)
    requires Placed(m, workers) && wk < workers && Local(wk) in m.lists && Remote(wk) in m.lists
    requires m.lists[Local(wk)] == [] && m.lists[Remote(wk)] != []
    ensures var m' := Popped(Moved(m, Remote(wk), Local(wk)), Local(wk));
            && Placed(m', workers) && TakenSpots(m, m', wk, m.lists[Remote(wk)][0])
            && m'.lists == m.lists[Local(wk) := m.lists[Remote(wk)][1..]][Remote(wk) := []]
  {
    hide Placed, SpotOk, Below;
    TakenRemoteLists(m, wk);
    MovedPlaced(m, workers, Remote(wk), Local(wk));
    PoppedPlaced(Moved(m, Remote(wk), Local(wk)), workers, Local(wk));
    TopOfMailbox(m, workers, wk);
    TakenRemoteSpots(m, wk);
    hide Moved, Popped;
  }

  lemma TakenRemoteLists(m: Content, wk: nat)
    requires Local(wk) in m.lists && Remote(wk) in m.lists
    requires m.lists[Local(wk)] == [] && m.lists[Remote(wk)] != []
    ensures var m1 := Moved(m, Remote(wk), Local(wk));
            && Local(wk) in m1.lists && m1.lists[Local(wk)] == m.lists[Remote(wk)]
            && Popped(m1, Local(wk)).lists == m.lists[Local(wk) := m.lists[Remote(wk)][1..]][Remote(wk) := []]
  {
  }

  lemma TakenRemoteSpots(m: Content, wk: nat)
    requires Local(wk) in m.lists && Remote(wk) in m.lists && Local(wk) in Moved(m, Remote(wk), Local(wk)).lists
    requires m.lists[Remote(wk)] != [] && Moved(m, Remote(wk), Local(wk)).lists[Local(wk)] == m.lists[Remote(wk)]
    requires m.lists[Remote(wk)][0] in m.spots
    ensures var r, m' := m.lists[Remote(wk)][0], Popped(Moved(m, Remote(wk), Local(wk)), Local(wk));
            && m'.spots.Keys == m.spots.Keys && m'.spots[r] == InUse
            && forall n: Node :: n in m.spots && n != r ==> (m'.spots[n] == InUse <==> m.spots[n] == InUse)
  {
  }

  lemma TopOfMailbox(m: Content, workers: nat, wk: nat)
    requires Placed(m, workers) && Remote(wk) in m.lists && m.lists[Remote(wk)] != []
    ensures var r := m.lists[Remote(wk)][0];
            && r in m.spots && m.spots[r] == At(Remote(wk), |m.lists[Remote(wk)]| - 1) && SpotOk(m, r)
            && r.allocWk == wk && Below(m, r) == HeadOf(m.lists[Remote(wk)][1..])
    ensures forall n: Node :: n in m.spots && m.spots[n] == At(Remote(wk), 0) && SpotOk(m, n) ==> Below(m, n) == null
  {
    assert SlotOk(m, Remote(wk), 0) && SpotOk(m, m.lists[Remote(wk)][0]);
  }

  /** Giving: home at once; otherwise onto the staging list, which is flushed when it is full. */
  ghost function Given(m: Content, cur: nat, node: Node, threshold: nat): Content
    requires HasLists(m, cur, node.allocWk)
  {
    var home := node.allocWk;
    if cur == home then Pushed(m, Local(home), node)
    else if |m.lists[Staged(cur, home)]| < threshold then Pushed(m, Staged(cur, home), node)
    else Pushed(Moved(m, Staged(cur, home), Remote(home)), Staged(cur, home), node)
  }

  ghost predicate HasLists(m: Content, cur: nat, home: nat) {
    Local(home) in m.lists && Remote(home) in m.lists && Staged(cur, home) in m.lists
  }

  ghost predicate GivenLists(m: Content, m': Content, cur: nat, node: Node, threshold: nat)
    requires HasLists(m, cur, node.allocWk)
  {
    var home := node.allocWk;
    var staged := m.lists[Staged(cur, home)];
    m'.lists == if cur == home then m.lists[Local(home) := [node] + m.lists[Local(home)]]
                else if |staged| < threshold then m.lists[Staged(cur, home) := [node] + staged]
                else m.lists[Remote(home) := staged + m.lists[Remote(home)]][Staged(cur, home) := [node]]
  }

  ghost predicate Flushes(m: Content, cur: nat, node: Node, threshold: nat)
    requires Staged(cur, node.allocWk) in m.lists
  {
    cur != node.allocWk && |m.lists[Staged(cur, node.allocWk)]| >= threshold
  }

  ghost predicate GivenSpots(m: Content, m': Content, cur: nat, node: Node, threshold: nat)
    requires HasLists(m, cur, node.allocWk)
  {
    var home := node.allocWk;
    var flushes := Flushes(m, cur, node, threshold);
    && m'.spots.Keys == m.spots.Keys && node in m.spots
    && m'.spots[node].At? && SpotOk(m', node)
    && Below(m', node) == (if flushes then null else HeadOf(m.lists[if cur == home then Local(home) else Staged(cur, home)]))
    && (forall n: Node :: n in m.spots && n != node ==> (m'.spots[n] == InUse <==> m.spots[n] == InUse))
    && (forall n: Node :: n in m.spots && n != node && m'.spots[n].At? ==>
          && m.spots[n].At? && SpotOk(m, n) && SpotOk(m', n)
          && Below(m', n) == (if flushes && m.spots[n] == At(Staged(cur, home), 0) then HeadOf(m.lists[Remote(home)])
                              else Below(m, n)))
  }

  lemma GivenPlaced(m: Content, workers: nat, cur: nat, node: Node, threshold: nat)
    requires Placed(m, workers) && cur < workers && node.allocWk < workers && threshold >= 1
    requires node in m.spots && m.spots[node] == InUse && !node.oversized
    ensures HasLists(m, cur, node.allocWk)
    ensures Placed(Given(m, cur, node, threshold), workers)
    ensures GivenLists(m, Given(m, cur, node, threshold), cur, node, threshold)
    ensures GivenSpots(m, Given(m, cur, node, threshold), cur, node, threshold)
  {
    var home := node.allocWk;
    assert IsPlace(Local(home), workers) && IsPlace(Remote(home), workers) && IsPlace(Staged(cur, home), workers);
    if Flushes(m, cur, node, threshold) {
      GivenFlushed(m, workers, cur, node, threshold);
    } else {
      PushedPlaced(m, workers, if cur == home then Local(home) else Staged(cur, home), node);
      hide Placed, SpotOk, Below;
    }
  }

  lemma GivenFlushed(m: Content, workers: nat, cur: nat, node: Node, threshold: nat)
    requires Placed(m, workers) && HasLists(m, cur, node.allocWk) && Flushes(m, cur, node, threshold)
    requires node in m.spots && m.spots[node] == InUse && !node.oversized
    ensures Placed(Given(m, cur, node, threshold), workers)
    ensures GivenLists(m, Given(m, cur, node, threshold), cur, node, threshold)
    ensures GivenSpots(m, Given(m, cur, node, threshold), cur, node, threshold)
  {
    hide Placed, SpotOk, Below;
    var staged, remote := Staged(cur, node.allocWk), Remote(node.allocWk);
    MovedPlaced(m, workers, staged, remote);
    var m1 := Moved(m, staged, remote);
    assert m1.lists[staged] == [];
    assert m1.spots[node] == InUse;
    PushedPlaced(m1, workers, staged, node);
    assert [node] + m1.lists[staged] == [node];
    assert Pushed(m1, staged, node).lists == m.lists[remote := m.lists[staged] + m.lists[remote]][staged := [node]];
  }

  /** The bottom node of a list is the only one with nothing below it there. */
  lemma BottomIs(m: Content, workers: nat, p: Place)
    requires Placed(m, workers) && p in m.lists && m.lists[p] != []
    ensures var bottom := m.lists[p][|m.lists[p]| - 1];
            && bottom in m.spots && m.spots[bottom] == At(p, 0)
            && forall n: Node :: n in m.spots && m.spots[n] == At(p, 0) ==> n == bottom
  {
    assert SlotOk(m, p, |m.lists[p]| - 1);
    forall n: Node | n in m.spots && m.spots[n] == At(p, 0) ensures n == m.lists[p][|m.lists[p]| - 1] {
      assert SpotOk(m, n);
    }
  }

  /** What a flush changes, list by list. */
  lemma FlushLists(m: Content, m': Content, cur: nat, node: Node, threshold: nat)
    requires HasLists(m, cur, node.allocWk) && Flushes(m, cur, node, threshold) && GivenLists(m, m', cur, node, threshold)
    ensures var remote := Remote(node.allocWk);
            m'.lists == m.lists[remote := m.lists[Staged(cur, node.allocWk)] + m.lists[remote]][Staged(cur, node.allocWk) := [node]]
  {
  }

  /** What a flush changes, link by link: the bottom of the batch now continues into the mailbox. */
  lemma FlushLinks(m: Content, m': Content, workers: nat, cur: nat, node: Node, threshold: nat)
    requires Placed(m, workers) && HasLists(m, cur, node.allocWk) && Flushes(m, cur, node, threshold) && threshold >= 1
    requires GivenSpots(m, m', cur, node, threshold) && m.spots[node] == InUse
    ensures m'.spots.Keys == m.spots.Keys
    ensures var staged := m.lists[Staged(cur, node.allocWk)];
            var bottom := staged[|staged| - 1];
            && bottom in m.spots && bottom != node
            && forall n: Node :: n in m'.spots && m'.spots[n].At? && SpotOk(m', n) ==>
                 && (n != node ==> m.spots[n].At? && SpotOk(m, n))
                 && Below(m', n) == (if n == node then null
                                     else if n == bottom then HeadOf(m.lists[Remote(node.allocWk)]) else Below(m, n))
  {
    BottomIs(m, workers, Staged(cur, node.allocWk));
    hide Placed, SpotOk, Below;
  }

  lemma StageLists(m: Content, m': Content, cur: nat, node: Node, threshold: nat)
    requires HasLists(m, cur, node.allocWk) && cur != node.allocWk && !Flushes(m, cur, node, threshold)
    requires GivenLists(m, m', cur, node, threshold)
    ensures var remote, staged := Remote(node.allocWk), Staged(cur, node.allocWk);
            m'.lists == m.lists[remote := m.lists[remote]][staged := [node] + m.lists[staged]]
  {
  }

  lemma StageLinks(m: Content, m': Content, cur: nat, node: Node, threshold: nat)
    requires HasLists(m, cur, node.allocWk) && cur != node.allocWk && !Flushes(m, cur, node, threshold)
    requires GivenSpots(m, m', cur, node, threshold)
    ensures m'.spots.Keys == m.spots.Keys
    ensures forall n: Node :: n in m'.spots && m'.spots[n].At? && SpotOk(m', n) ==>
              && (n != node ==> m.spots[n].At? && SpotOk(m, n))
              && Below(m', n) == (if n == node then HeadOf(m.lists[Staged(cur, node.allocWk)]) else Below(m, n))
  {
    hide SpotOk, Below;
  }

  // ---------------------------------------------------------------------------
  // Counting free nodes
  // ---------------------------------------------------------------------------

  ghost function Free(m: Content): set<Node> { set n | n in m.spots && m.spots[n].At? }

  ghost function Used(m: Content): set<Node> { set n | n in m.spots && m.spots[n] == InUse }

  lemma FreeAndUsed(m: Content)
    ensures |Free(m)| + |Used(m)| == |m.spots|
  {
    assert m.spots.Keys == Free(m) + Used(m);
    assert Free(m) * Used(m) == {};
  }

  ghost predicate NoDuplicates(xs: seq<Node>) {
    forall i: nat, j: nat :: i < j < |xs| ==> xs[i] != xs[j]
  }

  lemma NoDuplicatesAppend(xs: seq<Node>, ys: seq<Node>)
    requires NoDuplicates(xs) && NoDuplicates(ys) && forall n :: n in xs ==> n !in ys
    ensures NoDuplicates(xs + ys)
  {
    forall i: nat, j: nat | i < j < |xs + ys| ensures (xs + ys)[i] != (xs + ys)[j] {
      if i >= |xs| {
        assert ys[i - |xs|] != ys[j - |xs|];
      } else if j >= |xs| {
        assert xs[i] in xs && ys[j - |xs|] in ys;
      } else {
        assert xs[i] != xs[j];
      }
    }
  }

  ghost function Elements(xs: seq<Node>): set<Node> { set n | n in xs }

  lemma {:induction false} ElementsCount(xs: seq<Node>)
    ensures |Elements(xs)| <= |xs|
    ensures NoDuplicates(xs) ==> |Elements(xs)| == |xs|
  {
    if xs == [] {
      assert Elements(xs) == {};
    } else {
      var n := |xs| - 1;
      ElementsCount(xs[..n]);
      assert Elements(xs) == Elements(xs[..n]) + {xs[n]};
      if NoDuplicates(xs) {
        assert forall i: nat, j: nat :: i < j < n ==> xs[..n][i] != xs[..n][j];
      }
    }
  }

  /** Free nodes of home worker `h` staged by workers below `k`. */
  ghost function Stranded(m: Content, h: nat, k: nat): set<Node> {
    set n | n in m.spots && m.spots[n].At? && n.allocWk == h && m.spots[n].place.Staged? && m.spots[n].place.c < k
  }

  lemma StrandedStep(m: Content, workers: nat, h: nat, k: nat)
    requires Placed(m, workers) && Staged(k, h) in m.lists
    ensures |Stranded(m, h, k + 1)| <= |Stranded(m, h, k)| + |m.lists[Staged(k, h)]|
  {
    var xs := m.lists[Staged(k, h)];
    forall n | n in Stranded(m, h, k + 1) && n !in Stranded(m, h, k) ensures n in Elements(xs) {
      assert SpotOk(m, n);
    }
    hide Placed, SpotOk;
    ElementsCount(xs);
    SubsetCount(Stranded(m, h, k + 1), Stranded(m, h, k) + Elements(xs));
  }

  lemma {:induction false} StrandedBelow(m: Content, workers: nat, threshold: nat, h: nat, k: nat)
    requires Placed(m, workers) && h < workers && k <= workers
    requires forall c: nat :: c < workers ==> Staged(c, h) in m.lists && |m.lists[Staged(c, h)]| <= (if c == h then 0 else threshold)
    ensures |Stranded(m, h, k)| <= (if h < k then k - 1 else k) * threshold
  {
    hide Placed;
    if k == 0 {
      assert Stranded(m, h, k) == {};
    } else {
      StrandedBelow(m, workers, threshold, h, k - 1);
      assert Staged(k - 1, h) in m.lists;
      StrandedStep(m, workers, h, k - 1);
      OneMore(if h < k - 1 then k - 2 else k - 1, threshold);
    }
  }

  lemma OneMore(k: nat, threshold: nat)
    ensures (k + 1) * threshold == k * threshold + threshold
  {
  }

  lemma {:induction false} SubsetCount(a: set<Node>, b: set<Node>)
    requires a <= b
    ensures |a| <= |b|
  {
    if a != {} {
      var x :| x in a;
      SubsetCount(a - {x}, b - {x});
    }
  }

  /** The order in which the pool is torn down: worker by worker, its local list, its mailbox,
      then what it staged for each worker. */
  ghost predicate TornDown(p: Place, wk: nat, slot: nat) {
    var owner := if p.Staged? then p.c else p.w;
    owner < wk || (owner == wk && (match p case Local(_) => 0 case Remote(_) => 1 case Staged(_, w) => 2 + w) < slot)
  }

  /** `freed` names every node of the lists torn down so far, once, and no other. */
  ghost predicate FreedSoFar(m: Content, freed: seq<Node>, wk: nat, slot: nat) {
    && NoDuplicates(freed)
    && (forall n: Node :: n in freed ==> n in m.spots && m.spots[n].At? && TornDown(m.spots[n].place, wk, slot))
    && (forall n: Node :: n in m.spots && m.spots[n].At? && TornDown(m.spots[n].place, wk, slot) ==> n in freed)
  }

  lemma FreedMore(m: Content, workers: nat, freed: seq<Node>, wk: nat, slot: nat, p: Place)
    requires Placed(m, workers) && FreedSoFar(m, freed, wk, slot) && p in m.lists
    requires p == (if slot == 0 then Local(wk) else if slot == 1 then Remote(wk) else Staged(wk, slot - 2))
    ensures FreedSoFar(m, freed + m.lists[p], wk, slot + 1)
    ensures forall n: Node :: n in freed ==> n !in m.lists[p]
  {
    var xs := m.lists[p];
    forall n: Node ensures n in xs <==> n in m.spots && m.spots[n].At? && m.spots[n].place == p {
      if n in xs { var i: nat :| i < |xs| && xs[i] == n; assert SlotOk(m, p, i); }
      if n in m.spots { assert SpotOk(m, n); }
    }
    forall i: nat, j: nat | i < j < |xs| ensures xs[i] != xs[j] {
      assert SlotOk(m, p, i) && SlotOk(m, p, j);
    }
    assert !TornDown(p, wk, slot);
    NoDuplicatesAppend(freed, xs);
    assert forall q: Place :: TornDown(q, wk, slot + 1) && !TornDown(q, wk, slot) ==> q == p || !IsPlace(q, workers);
    forall n: Node ensures n in freed + xs <==> n in m.spots && m.spots[n].At? && TornDown(m.spots[n].place, wk, slot + 1) {
      if n in m.spots { assert SpotOk(m, n); }
    }
  }

  lemma FreedAll(m: Content, workers: nat, freed: seq<Node>)
    requires Placed(m, workers) && FreedSoFar(m, freed, workers, 0)
    ensures Elements(freed) == Free(m) && |freed| + |Used(m)| == |m.spots|
  {
    forall n: Node | n in Free(m) ensures n in freed {
      assert SpotOk(m, n);
      assert IsPlace(m.spots[n].place, workers);
    }
    hide Placed, SpotOk;
    ElementsCount(freed);
    FreeAndUsed(m);
  }

  // ---------------------------------------------------------------------------
  // The pool
  // ---------------------------------------------------------------------------

  class ReturnPool {
    const workers: nat
    const threshold: nat
    const stackSize: nat
    const conLocal: array<Node?>
    const conRemote: array<Node?>
    const first: array2<Node?>
    const last: array2<Node?>
    const num: array2<nat>
    ghost var m: Content

    ghost predicate Shape() {
      && threshold >= 1
      && conLocal.Length == workers && conRemote.Length == workers && conLocal != conRemote
      && first.Length0 == workers && first.Length1 == workers
      && last.Length0 == workers && last.Length1 == workers && first != last
      && num.Length0 == workers && num.Length1 == workers
    }

    /** Every head cell points to the first node of its list. */
    ghost predicate HeadsOk()
      requires Shape() && Placed(m, workers)
      reads this`m, conLocal, conRemote, first
    {
      && (forall w: nat :: w < workers ==> conLocal[w] == HeadOf(m.lists[Local(w)]))
      && (forall w: nat :: w < workers ==> conRemote[w] == HeadOf(m.lists[Remote(w)]))
      && (forall c: nat, w: nat :: c < workers && w < workers ==> first[c, w] == HeadOf(m.lists[Staged(c, w)]))
    }

    /** Every listed node points to the one below it. */
    ghost predicate Linked()
      requires Placed(m, workers)
      reads this`m, m.spots.Keys
    {
      forall n: Node :: n in m.spots && m.spots[n].At? && SpotOk(m, n) ==> n.next == Below(m, n)
    }

    /** Every staging record knows its length and its tail; nobody stages for itself. */
    ghost predicate RecordsOk()
      requires Shape() && Placed(m, workers)
      reads this`m, last, num
    {
      forall c: nat, w: nat :: c < workers && w < workers ==>
        RecordOk(m.lists[Staged(c, w)], num[c, w], last[c, w], c == w)
    }

    ghost predicate RecordOk(xs: seq<Node>, n: nat, tail: Node?, own: bool) {
      && n == |xs| <= threshold
      && (xs != [] ==> tail == xs[|xs| - 1])
      && (own ==> xs == [])
    }

    ghost predicate Valid()
      reads this, conLocal, conRemote, first, last, num, m.spots.Keys
    {
      && Shape() && Placed(m, workers)
      && HeadsOk() && Linked() && RecordsOk()
    }

    constructor (workers: nat, stackSize: nat, threshold: nat)
      requires threshold >= 1
      ensures Valid() && this.workers == workers && this.threshold == threshold && this.stackSize == stackSize
      ensures m.spots == map[] && forall p: Place :: p in m.lists ==> m.lists[p] == []
    {
      this.workers, this.stackSize, this.threshold := workers, stackSize, threshold;
      conLocal := new Node?[workers](i => null);
      conRemote := new Node?[workers](i => null);
      first := new Node?[workers, workers]((i, j) => null);
      last := new Node?[workers, workers]((i, j) => null);
      num := new nat[workers, workers]((i, j) => 0);
      m := Content(imap p: Place | IsPlace(p, workers) :: [], map[]);
    }

    /** `node_take`: the local list first; else the whole mailbox becomes the local list.  Nothing
        is taken exactly if both are empty. */
    method Take(wk: nat) returns (r: Node?)
      requires Valid() && wk < workers
      modifies this`m, conLocal, conRemote
      ensures Valid() && Local(wk) in old(m.lists) && Remote(wk) in old(m.lists)
      ensures r == TakeFrom(old(m), wk)
      ensures r == null <==> old(m.lists[Local(wk)]) == [] && old(m.lists[Remote(wk)]) == []
      ensures TakenLists(old(m), m, wk) && TakenSpots(old(m), m, wk, r)
    {
      hide Placed, SpotOk, Below, Popped, Moved, RecordOk;
      TakenPlaced(m, workers, wk);
      r := conLocal[wk];
      if r != null {
        conLocal[wk] := r.next;
      } else {
        r := conRemote[wk];
        conRemote[wk] := null;
        if r != null {
          conLocal[wk] := r.next;
        }
      }
      m := Taken(m, wk);
    }

    /** A handed-out node of this pool that worker `cur` may return. */
    ghost predicate Givable(cur: nat, node: Node)
      reads this`m
    {
      && cur < workers && node.allocWk < workers && !node.oversized
      && node in m.spots && m.spots[node] == InUse
    }

    /** Returning a node to its home worker at once. */
    method GiveHome(cur: nat, node: Node)
      requires Valid() && Givable(cur, node) && cur == node.allocWk
      modifies this`m, conLocal, node`next
      ensures Valid() && HasLists(old(m), cur, node.allocWk)
      ensures GivenLists(old(m), m, cur, node, threshold) && GivenSpots(old(m), m, cur, node, threshold)
    {
      hide Placed, SpotOk, Below, Pushed, Moved, RecordOk;
      GivenPlaced(m, workers, cur, node, threshold);
      node.next := conLocal[cur];
      conLocal[cur] := node;
      m := Given(m, cur, node, threshold);
    }

    /** Heads and records after only those of the pair `cur`, `home`, and perhaps the mailbox of
        `home`, changed. */
    lemma StagedAgree(cur: nat, home: nat, m0: Content, staged: seq<Node>, remote: seq<Node>)
      requires Shape() && Placed(m0, workers) && Placed(m, workers) && cur < workers && home < workers && cur != home
      requires Staged(cur, home) in m0.lists && Remote(home) in m0.lists
      requires m.lists == m0.lists[Remote(home) := remote][Staged(cur, home) := staged]
      requires forall w: nat :: w < workers ==> conLocal[w] == HeadOf(m0.lists[Local(w)])
      requires forall w: nat :: w < workers && w != home ==> conRemote[w] == HeadOf(m0.lists[Remote(w)])
      requires forall c: nat, w: nat :: c < workers && w < workers && !(c == cur && w == home) ==>
                 first[c, w] == HeadOf(m0.lists[Staged(c, w)])
                 && RecordOk(m0.lists[Staged(c, w)], num[c, w], last[c, w], c == w)
      requires conRemote[home] == HeadOf(remote) && first[cur, home] == HeadOf(staged)
      requires RecordOk(staged, num[cur, home], last[cur, home], false)
      ensures HeadsOk() && RecordsOk()
    {
      hide Placed, RecordOk;
    }

    /** Staging a node for another worker. */
    method Stage(cur: nat, node: Node)
      requires Valid() && Givable(cur, node) && cur != node.allocWk && num[cur, node.allocWk] < threshold
      modifies this`m, first, last, num, node`next
      ensures Valid() && HasLists(old(m), cur, node.allocWk)
      ensures GivenLists(old(m), m, cur, node, threshold) && GivenSpots(old(m), m, cur, node, threshold)
    {
      hide Placed, SpotOk, Below, Given, GivenLists, GivenSpots;
      var home := node.allocWk;
      GivenPlaced(m, workers, cur, node, threshold);
      ghost var m0, m' := m, Given(m, cur, node, threshold);
      StageLists(m, m', cur, node, threshold);
      StageLinks(m, m', cur, node, threshold);
      node.next := first[cur, home];
      if num[cur, home] == 0 {
        last[cur, home] := node;
      }
      first[cur, home] := node;
      num[cur, home] := num[cur, home] + 1;
      m := m';
      StagedAgree(cur, home, m0, [node] + m0.lists[Staged(cur, home)], m0.lists[Remote(home)]);
    }

    /** A full batch goes to the home worker's mailbox, and a new one starts. */
    method Flush(cur: nat, node: Node)
      requires Valid() && Givable(cur, node) && cur != node.allocWk && num[cur, node.allocWk] >= threshold
      modifies this`m, conRemote, first, last, num, m.spots.Keys`next
      ensures Valid() && HasLists(old(m), cur, node.allocWk)
      ensures GivenLists(old(m), m, cur, node, threshold) && GivenSpots(old(m), m, cur, node, threshold)
    {
      hide Placed, SpotOk, Below, Given, GivenLists, GivenSpots;
      var home := node.allocWk;
      GivenPlaced(m, workers, cur, node, threshold);
      ghost var m0, m' := m, Given(m, cur, node, threshold);
      FlushLists(m, m', cur, node, threshold);
      FlushLinks(m, m', workers, cur, node, threshold);
      var oldFirst, oldLast := first[cur, home], last[cur, home];
      oldLast.next := conRemote[home];
      conRemote[home] := oldFirst;
      node.next := null;
      first[cur, home] := node;
      last[cur, home] := node;
      num[cur, home] := 1;
      m := m';
      StagedAgree(cur, home, m0, [node], m0.lists[Staged(cur, home)] + m0.lists[Remote(home)]);
    }

    /** `node_give`: home at once, else staged, in batches of `threshold`. */
    method Give(cur: nat, node: Node)
      requires Valid() && Givable(cur, node)
      modifies this`m, conLocal, conRemote, first, last, num, m.spots.Keys`next
      ensures Valid() && HasLists(old(m), cur, node.allocWk)
      ensures GivenLists(old(m), m, cur, node, threshold) && GivenSpots(old(m), m, cur, node, threshold)
    {
      if node.allocWk == cur {
        GiveHome(cur, node);
      } else if num[cur, node.allocWk] < threshold {
        Stage(cur, node);
      } else {
        Flush(cur, node);
      }
    }

    /** `ReturnPool::alloc`: a request that does not fit a slot gets a node of its own that never
        enters a list; a fresh pooled node is made only when the worker's list and mailbox are
        both empty, and has this worker for its home. */
    method Alloc(wk: nat, size: nat) returns (node: Node)
      requires Valid() && wk < workers
      modifies this`m, conLocal, conRemote
      ensures Valid()
      ensures size > stackSize ==> fresh(node) && node.oversized && m == old(m)
      ensures size <= stackSize ==>
                && !node.oversized && node.allocWk == wk && node in m.spots && m.spots[node] == InUse
                && HasLists(old(m), wk, wk)
                && (fresh(node) <==> old(m.lists[Local(wk)]) == [] && old(m.lists[Remote(wk)]) == [])
                && (fresh(node) ==> node !in old(m.spots) && m.lists == old(m.lists) && m.spots == old(m.spots)[node := InUse])
                && (!fresh(node) ==> TakenLists(old(m), m, wk) && TakenSpots(old(m), m, wk, node) && old(m.spots[node]).At?)
    {
      if size > stackSize {
        node := new Node(wk, true);
        return;
      }
      var r := Take(wk);
      if r != null {
        TakenIsUsable(old(m), m, wk, r);
        node := r;
      } else {
        node := new Node(wk, false);
        FreshPlaced(m, workers, node);
        m := Content(m.lists, m.spots[node := InUse]);
      }
    }

    /** `ReturnPool::dealloc`: an oversized node is freed on the spot, any other is given back. */
    method Dealloc(cur: nat, node: Node) returns (freed: bool)
      requires Valid() && cur < workers && (node.oversized || Givable(cur, node))
      modifies this`m, conLocal, conRemote, first, last, num, m.spots.Keys`next
      ensures Valid() && freed == node.oversized
      ensures freed ==> m == old(m)
      ensures !freed ==>
                HasLists(old(m), cur, node.allocWk)
                && GivenLists(old(m), m, cur, node, threshold) && GivenSpots(old(m), m, cur, node, threshold)
    {
      if node.oversized {
        return true;
      }
      Give(cur, node);
      return false;
    }

    /** `free_desc`, for a caller that runs on no worker: the node is freed and leaves the pool. */
    method FreeDesc(node: Node)
      requires Valid() && (node.oversized || (node in m.spots && m.spots[node] == InUse))
      modifies this`m
      ensures Valid() && m.lists == old(m.lists) && m.spots == old(m.spots) - {node}
    {
      hide Placed, SpotOk, Below, RecordOk;
      if node in m.spots { NotListed(m, workers, node); }
      GonePlaced(m, workers, node);
      m := Gone(m, node);
    }

    /** Freeing one chain: every node of the list, in order, each read before it is freed. */
    method FreeChain(head: Node?, ghost p: Place, freed: seq<Node>) returns (freed': seq<Node>)
      requires Valid() && IsPlace(p, workers) && head == HeadOf(m.lists[p])
      requires forall n :: n in freed ==> n !in m.lists[p]
      ensures freed' == freed + m.lists[p]
    {
      hide HeadsOk, RecordsOk;
      ghost var xs := m.lists[p];
      ghost var i: nat := 0;
      var q := head;
      freed' := freed;
      while q != null
        invariant i <= |xs| && q == (if i < |xs| then xs[i] else null)
        invariant freed' == freed + xs[..i]
        decreases |xs| - i
      {
        NextInChain(p, i);
        assert q !in freed';   // not freed yet, so it may be read
        var next := q.next;
        freed' := freed' + [q];
        q := next;
        i := i + 1;
      }
    }

    lemma NextInChain(p: Place, i: nat)
      requires Valid() && IsPlace(p, workers) && i < |m.lists[p]|
      ensures var xs := m.lists[p];
              && xs[i].next == (if i + 1 < |xs| then xs[i + 1] else null)
              && xs[i] !in xs[..i]
    {
      hide HeadsOk, RecordsOk;
      var xs := m.lists[p];
      assert SlotOk(m, p, i) && SpotOk(m, xs[i]);
      forall j: nat | j < i ensures xs[j] != xs[i] { assert SlotOk(m, p, j); }
    }

    /** `drop_all_nodes`: teardown ends, frees every free node exactly once, and touches no node that is
        still handed out; so nodes freed and nodes still out make up all nodes there are. */
    method DropAll() returns (freed: seq<Node>)
      requires Valid()
      ensures NoDuplicates(freed) && Elements(freed) == Free(m) && |freed| + |Used(m)| == |m.spots|
    {
      hide SpotOk, SlotOk, Linked, RecordsOk;
      freed := [];
      for wk := 0 to workers
        invariant FreedSoFar(m, freed, wk, 0)
      {
        FreedMore(m, workers, freed, wk, 0, Local(wk));
        freed := FreeChain(conLocal[wk], Local(wk), freed);
        FreedMore(m, workers, freed, wk, 1, Remote(wk));
        freed := FreeChain(conRemote[wk], Remote(wk), freed);
        for j := 0 to workers
          invariant FreedSoFar(m, freed, wk, 2 + j)
        {
          FreedMore(m, workers, freed, wk, 2 + j, Staged(wk, j));
          freed := FreeChain(first[wk, j], Staged(wk, j), freed);
        }
        NextWorker(m, workers, freed, wk);
      }
      FreedAll(m, workers, freed);
    }

    /** At most `threshold` free nodes of worker `h` per other worker are out of `h`'s reach. */
    lemma StrandingBound(h: nat)
      requires Valid() && h < workers
      ensures |set n | n in Free(m) && n.allocWk == h && m.spots[n].place != Local(h) && m.spots[n].place != Remote(h)|
              <= (workers - 1) * threshold
    {
      hide Linked, HeadsOk;
      forall c: nat | c < workers
        ensures Staged(c, h) in m.lists && |m.lists[Staged(c, h)]| <= (if c == h then 0 else threshold)
      {
        assert IsPlace(Staged(c, h), workers);
        assert RecordOk(m.lists[Staged(c, h)], num[c, h], last[c, h], c == h);
      }
      StrandedBelow(m, workers, threshold, h, workers);
      var out := set n | n in Free(m) && n.allocWk == h && m.spots[n].place != Local(h) && m.spots[n].place != Remote(h);
      forall n | n in out ensures n in Stranded(m, h, workers) {
        assert SpotOk(m, n);
        assert IsPlace(m.spots[n].place, workers);
      }
      SubsetCount(out, Stranded(m, h, workers));
    }
  }

  lemma NextWorker(m: Content, workers: nat, freed: seq<Node>, wk: nat)
    requires Placed(m, workers) && FreedSoFar(m, freed, wk, 2 + workers)
    ensures FreedSoFar(m, freed, wk + 1, 0)
  {
    forall n: Node | n in m.spots && m.spots[n].At?
      ensures TornDown(m.spots[n].place, wk, 2 + workers) <==> TornDown(m.spots[n].place, wk + 1, 0)
    {
      assert SpotOk(m, n);
      assert IsPlace(m.spots[n].place, workers);
    }
  }

  lemma TakenIsUsable(m: Content, m': Content, wk: nat, r: Node)
    requires TakenSpots(m, m', wk, r)
    ensures r in m.spots && m.spots[r].At? && !r.oversized && r.allocWk == wk && r in m'.spots && m'.spots[r] == InUse
  {
  }

  lemma NotListed(m: Content, workers: nat, node: Node)
    requires Placed(m, workers) && node in m.spots && (node.oversized || m.spots[node] == InUse)
    ensures m.spots[node] == InUse
  {
    assert SpotOk(m, node);
  }

  ghost function Gone(m: Content, node: Node): Content {
    Content(m.lists, m.spots - {node})
  }

  /** A node in no list can leave. */
  lemma GonePlaced(m: Content, workers: nat, node: Node)
    requires Placed(m, workers) && (node in m.spots ==> m.spots[node] == InUse)
    ensures Placed(Gone(m, node), workers)
    ensures forall n: Node :: n in Gone(m, node).spots && Gone(m, node).spots[n].At? && SpotOk(Gone(m, node), n) ==>
              n in m.spots && m.spots[n] == Gone(m, node).spots[n] && SpotOk(m, n) && Below(Gone(m, node), n) == Below(m, n)
  {
    var m' := Gone(m, node);
    forall p: Place, i: nat | p in m'.lists && i < |m'.lists[p]| ensures SlotOk(m', p, i) {
      assert SlotOk(m, p, i);
    }
    forall n: Node | n in m'.spots ensures SpotOk(m', n) {
      assert SpotOk(m, n);
    }
  }

  lemma FreshPlaced(m: Content, workers: nat, node: Node)
    requires Placed(m, workers) && node !in m.spots
    ensures Placed(Content(m.lists, m.spots[node := InUse]), workers)
    ensures var m' := Content(m.lists, m.spots[node := InUse]);
            forall n: Node :: n in m'.spots && m'.spots[n].At? && SpotOk(m', n) ==>
              n in m.spots && m.spots[n] == m'.spots[n] && SpotOk(m, n) && Below(m', n) == Below(m, n)
  {
    var m' := Content(m.lists, m.spots[node := InUse]);
    forall p: Place, i: nat | p in m'.lists && i < |m'.lists[p]| ensures SlotOk(m', p, i) {
      assert SlotOk(m, p, i);
    }
    forall n: Node | n in m'.spots ensures SpotOk(m', n) {
      if n in m.spots { assert SpotOk(m, n); }
    }
  }
}
