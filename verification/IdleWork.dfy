/** What becomes of the work and of the workers of `Idle`: every item is taken and run once, a
    worker that may look finds work if there is any, the last searcher passes the search on, and
    workers leave exactly when the pool is finished. */
module IdleWork {
  import opened Basics
  import opened Folds
  import opened Idle

  lemma RunLength(states: seq<State>, acts: seq<Action>)
    requires IsRun(states, acts)
    ensures |states| == |acts| + 1
  {
  }

  lemma StepOf(states: seq<State>, acts: seq<Action>, i: nat)
    requires IsRun(states, acts) && i < |acts|
    ensures |states| == |acts| + 1 && Enabled(states[i], acts[i]) && states[i + 1] == Apply(states[i], acts[i])
  {
  }

  // ---------------------------------------------------------------------------
  // Every item is run once
  // ---------------------------------------------------------------------------

  /** The step takes an item from queue `q`. */
  predicate Takes(s: State, a: Action, q: nat) {
    a.Look? && a.q == q && !a.lost && q < |s.queues| && s.queues[q] > 0
  }

  /** ... for worker `w`. */
  predicate TakesFor(s: State, a: Action, w: nat) { a.Look? && a.w == w && Takes(s, a, a.q) }

  /** The step runs worker `w`'s item. */
  predicate Runs(s: State, a: Action, w: nat) { a.Move? && a.w == w && w < |s.ws| && s.ws[w].pc == Running }

  /** Took an item and has not run it yet. */
  predicate HasItem(pc: Pc) {
    pc == Found || pc.FoundPark? || pc == FoundLast || pc == WakeBump || pc == WakeCall || pc == Running
  }

  // How often it happened in the first `n` steps.
  ghost function Published(acts: seq<Action>, n: nat, q: nat): nat
    requires n <= |acts|
  {
    if n == 0 then 0 else Published(acts, n - 1, q) + One(acts[n - 1].Publish? && acts[n - 1].q == q)
  }

  ghost function Taken(states: seq<State>, acts: seq<Action>, n: nat, q: nat): nat
    requires |states| == |acts| + 1 && n <= |acts|
  {
    if n == 0 then 0 else Taken(states, acts, n - 1, q) + One(Takes(states[n - 1], acts[n - 1], q))
  }

  ghost function TakenFor(states: seq<State>, acts: seq<Action>, n: nat, w: nat): nat
    requires |states| == |acts| + 1 && n <= |acts|
  {
    if n == 0 then 0 else TakenFor(states, acts, n - 1, w) + One(TakesFor(states[n - 1], acts[n - 1], w))
  }

  ghost function Ran(states: seq<State>, acts: seq<Action>, n: nat, w: nat): nat
    requires |states| == |acts| + 1 && n <= |acts|
  {
    if n == 0 then 0 else Ran(states, acts, n - 1, w) + One(Runs(states[n - 1], acts[n - 1], w))
  }

  /** The items of a queue are those it began with and those published, less those taken. */
  lemma {:induction false} QueueBalance(states: seq<State>, acts: seq<Action>, n: nat, q: nat)
    requires IsRun(states, acts) && n < |states| && q < |states[0].queues|
    ensures |states| == |acts| + 1 && |states[n].queues| == |states[0].queues|
    ensures states[n].queues[q] + Taken(states, acts, n, q) == states[0].queues[q] + Published(acts, n, q)
  {
    hide IsRun, Enabled, Apply, Takes;
    RunLength(states, acts);
    if n > 0 {
      QueueBalance(states, acts, n - 1, q);
      StepOf(states, acts, n - 1);
      QueueMoves(states[n - 1], acts[n - 1], q);
    }
  }

  lemma QueueMoves(s: State, a: Action, q: nat)
    requires Enabled(s, a) && q < |s.queues|
    ensures |Apply(s, a).queues| == |s.queues|
    ensures Apply(s, a).queues[q] + One(Takes(s, a, q)) == s.queues[q] + One(a.Publish? && a.q == q)
  {
    hide StepWorker;
    if a.Move? { MoveKeepsQueues(s, a.w, a.expired); }
  }

  lemma MoveKeepsQueues(s: State, w: nat, expired: bool)
    requires Enabled(s, Move(w, expired))
    ensures StepWorker(s, w, expired).queues == s.queues
  {
  }

  /** Whatever a worker takes it runs, once, before it takes anything else. */
  lemma {:induction false} WorkerBalance(states: seq<State>, acts: seq<Action>, n: nat, w: nat)
    requires IsRun(states, acts) && n < |states| && w < |states[0].ws|
    ensures |states| == |acts| + 1 && |states[n].ws| == |states[0].ws|
    ensures TakenFor(states, acts, n, w) == Ran(states, acts, n, w) + One(HasItem(states[n].ws[w].pc))
  {
    hide IsRun, Enabled, Apply, TakesFor, Runs, HasItem;
    RunLength(states, acts);
    if n > 0 {
      WorkerBalance(states, acts, n - 1, w);
      StepOf(states, acts, n - 1);
      ItemMoves(states[n - 1], acts[n - 1], w);
    } else {
      NoItemYet(states, acts, w);
    }
  }

  lemma NoItemYet(states: seq<State>, acts: seq<Action>, w: nat)
    requires IsRun(states, acts) && |states| > 0 && w < |states[0].ws|
    ensures !HasItem(states[0].ws[w].pc)
  {
  }

  lemma ItemMoves(s: State, a: Action, w: nat)
    requires Enabled(s, a) && w < |s.ws|
    ensures |Apply(s, a).ws| == |s.ws|
    ensures One(HasItem(s.ws[w].pc)) + One(TakesFor(s, a, w)) == One(HasItem(Apply(s, a).ws[w].pc)) + One(Runs(s, a, w))
  {
    hide StepWorker;
    if a.Move? { ItemMove(s, a.w, a.expired); }
  }

  lemma ItemMove(s: State, w: nat, expired: bool)
    requires Enabled(s, Move(w, expired))
    ensures var s' := StepWorker(s, w, expired);
            && |s'.ws| == |s.ws| && s'.ws == s.ws[w := s'.ws[w]]
            && (HasItem(s'.ws[w].pc) <==> HasItem(s.ws[w].pc) && s.ws[w].pc != Running)
  {
  }

  // ---------------------------------------------------------------------------
  // Workers leave when the pool is finished
  // ---------------------------------------------------------------------------

  /** A worker leaves exactly at the head of its loop with the flag set, and never comes back. */
  lemma LeavesExactlyWhenFinished(states: seq<State>, acts: seq<Action>, n: nat, w: nat)
    requires IsRun(states, acts) && n < |acts| && w < |states[n].ws|
    ensures |states| == |acts| + 1 && w < |states[n + 1].ws|
    ensures states[n + 1].ws[w].pc == Exited
            <==> states[n].ws[w].pc == Exited
                 || (acts[n].Move? && acts[n].w == w && states[n].ws[w].pc == Top && FinishedFlag(states[n]))
    ensures states[n].ws[w].pc == Exited ==> FinishedFlag(states[n])
  {
    hide IsRun, StepWorker, Inv;
    RunLength(states, acts);
    StepOf(states, acts, n);
    if acts[n].Move? { ExitMove(states[n], acts[n].w, acts[n].expired); }
    assert states[n].ws[w].pc == Exited ==> FinishedFlag(states[n]) by {
      RunKeeps(states, acts, n, false);
      ExitedFinished(states[n], w);
    }
  }

  lemma ExitMove(s: State, w: nat, expired: bool)
    requires Enabled(s, Move(w, expired))
    ensures var s' := StepWorker(s, w, expired);
            && |s'.ws| == |s.ws| && s'.ws == s.ws[w := s'.ws[w]]
            && (s'.ws[w].pc == Exited <==> s.ws[w].pc == Top && FinishedFlag(s))
  {
  }

  lemma ExitedFinished(s: State, w: nat)
    requires Inv(s, false) && w < |s.ws|
    ensures s.ws[w].pc == Exited ==> FinishedFlag(s)
  {
    assert LocalOk(s.cfg, s.bumps, s.fin, s.ws[w]);
  }

  // ---------------------------------------------------------------------------
  // The last searcher passes the search on
  // ---------------------------------------------------------------------------

  /** On its way, as the last searcher, from its find to running it. */
  predicate Passing(pc: Pc) {
    pc == FoundPark(true) || pc == FoundLast || pc == WakeBump || pc == WakeCall
  }

  /** The step decides the wake of a last searcher that found its item when the epoch had been
      bumped `b` times: it sees nobody registered, or, the epoch bumped since, it wakes whoever waits
      (who may stay only as the check of a condition variable allows). */
  predicate PassesOn(s: State, a: Action, w: nat, b: nat) {
    || (a.Move? && a.w == w && w < |s.ws| && s.ws[w].pc == FoundLast && s.sleepers == 0)
    || (a.WorkerWakes? && a.w == w && s.bumps > b)
  }

  /** Passing, with the epoch bumped before the wake. */
  predicate PassingFrom(s: State, w: nat, b: nat) {
    w < |s.ws| && Passing(s.ws[w].pc) && s.bumps >= b + One(s.ws[w].pc == WakeCall)
  }

  /** The step is the find of a searcher while nobody else searches. */
  predicate FindsAlone(s: State, a: Action, w: nat) {
    a.Move? && a.w == w && w < |s.ws| && s.ws[w].pc == Found && s.ws[w].search && s.searching == 1
  }

  /** A searcher that takes an item while nobody else searches (step `i`) has, when it comes to run
      the item, seen that no worker is registered, or woken one after the epoch was bumped. */
  lemma LastSearcherWakes(states: seq<State>, acts: seq<Action>, i: nat, n: nat, w: nat)
    requires IsRun(states, acts) && i < n < |states| && |states| == |acts| + 1 && FindsAlone(states[i], acts[i], w)
    ensures w < |states[n].ws|
    ensures PassingFrom(states[n], w, states[i].bumps)
            || exists j :: i < j < n && PassesOn(states[j], acts[j], w, states[i].bumps)
  {
    hide IsRun, Enabled, Apply, PassingFrom, PassesOn, FindsAlone;
    if n == i + 1 {
      StepOf(states, acts, i);
      FoundLastSearcher(states[i], acts[i], w);
    } else {
      LastSearcherWakes(states, acts, i, n - 1, w);
      StepOf(states, acts, n - 1);
      PassStep(states[n - 1], acts[n - 1], w, states[i].bumps);
    }
  }

  lemma FoundLastSearcher(s: State, a: Action, w: nat)
    requires Enabled(s, a) && FindsAlone(s, a, w)
    ensures w < |Apply(s, a).ws| && PassingFrom(Apply(s, a), w, s.bumps)
  {
  }

  lemma PassStep(s: State, a: Action, w: nat, b: nat)
    requires Enabled(s, a) && w < |s.ws|
    ensures |Apply(s, a).ws| == |s.ws|
    ensures PassingFrom(s, w, b) ==> PassingFrom(Apply(s, a), w, b) || PassesOn(s, a, w, b)
  {
    hide StepWorker;
    if a.Move? { PassMove(s, a.w, a.expired); }
  }

  lemma PassMove(s: State, w: nat, expired: bool)
    requires Enabled(s, Move(w, expired))
    ensures var s' := StepWorker(s, w, expired);
            && |s'.ws| == |s.ws| && s'.ws == s.ws[w := s'.ws[w]] && s'.bumps >= s.bumps
            && (s.ws[w].pc == WakeBump ==> s'.ws[w].pc == WakeCall && s'.bumps == s.bumps + 1)
            && (s'.ws[w].pc == WakeBump ==> s.ws[w].pc == FoundLast && s.sleepers != 0)
            && (s'.ws[w].pc == WakeCall ==> s.ws[w].pc == WakeBump)
            && (Passing(s.ws[w].pc) ==> Passing(s'.ws[w].pc) || (s.ws[w].pc == FoundLast && s.sleepers == 0))
            && (Passing(s'.ws[w].pc) ==> Passing(s.ws[w].pc) || FindsAlone(s, Move(w, expired), w))
  {
  }

  /** The step sees, for a last searcher, that somebody is registered. */
  predicate SeesSleepers(s: State, a: Action, w: nat) {
    a.Move? && a.w == w && w < |s.ws| && s.ws[w].pc == FoundLast && s.sleepers != 0
  }

  /** About to wake somebody for having been the last searcher. */
  predicate WakingNext(pc: Pc) { pc == WakeBump || pc == WakeCall }

  /** And nobody else does so: a worker on its way to such a wake took its item (step `i`) while
      nobody else searched, and is on that way since; before it wakes anybody it has seen (step `j`)
      that somebody is registered. */
  lemma {:induction false} OnlyTheLastSearcherWakes(states: seq<State>, acts: seq<Action>, n: nat, w: nat) returns (i: nat, j: nat)
    requires IsRun(states, acts) && n < |states| && w < |states[n].ws| && Passing(states[n].ws[w].pc)
    ensures |states| == |acts| + 1 && i < n && FindsAlone(states[i], acts[i], w)
    ensures forall m :: i < m <= n ==> w < |states[m].ws| && Passing(states[m].ws[w].pc)
    ensures WakingNext(states[n].ws[w].pc) ==> i < j < n && SeesSleepers(states[j], acts[j], w)
  {
    hide IsRun, Enabled, Apply, Passing, WakingNext, FindsAlone, SeesSleepers;
    RunLength(states, acts);
    i, j := 0, 0;
    if n == 0 {
      NobodyPasses(states, acts, w);
    } else {
      StepOf(states, acts, n - 1);
      PassesFrom(states[n - 1], acts[n - 1], w);
      if FindsAlone(states[n - 1], acts[n - 1], w) {
        i := n - 1;
      } else {
        i, j := OnlyTheLastSearcherWakes(states, acts, n - 1, w);
        if SeesSleepers(states[n - 1], acts[n - 1], w) { j := n - 1; }
      }
    }
  }

  lemma NobodyPasses(states: seq<State>, acts: seq<Action>, w: nat)
    requires IsRun(states, acts) && |states| > 0 && w < |states[0].ws|
    ensures !Passing(states[0].ws[w].pc)
  {
  }

  lemma PassesFrom(s: State, a: Action, w: nat)
    requires Enabled(s, a)
    ensures |Apply(s, a).ws| == |s.ws|
    ensures w < |s.ws| ==>
              var pc, pc' := s.ws[w].pc, Apply(s, a).ws[w].pc;
              && (Passing(pc') ==> Passing(pc) || FindsAlone(s, a, w))
              && (FindsAlone(s, a, w) ==> !WakingNext(pc'))
              && (WakingNext(pc') ==> WakingNext(pc) || SeesSleepers(s, a, w))
              && (SeesSleepers(s, a, w) ==> !FindsAlone(s, a, w))
  {
    hide StepWorker;
    if a.Move? { PassMove(s, a.w, a.expired); }
  }

  /** How many steps a producer has left in `new_work`. */
  function ProducerLeft(p: Producer): nat {
    match p
    case Quiet => 0
    case Published => 4
    case SawNoSearcher => 3
    case Bumping => 2
    case Waking => 1
  }

  /** A producer's call ends: each of its steps leaves fewer, and nobody else has a part in it. */
  lemma ProducersEnd(states: seq<State>, acts: seq<Action>, n: nat, p: nat)
    requires IsRun(states, acts) && n < |acts| && p < |states[n].ps| && states[n].ps[p] != Quiet
    ensures |states| == |acts| + 1 && p < |states[n + 1].ps|
    ensures if (acts[n].Notify? || acts[n].ProducerWakes?) && acts[n].p == p
            then ProducerLeft(states[n + 1].ps[p]) < ProducerLeft(states[n].ps[p])
            else states[n + 1].ps[p] == states[n].ps[p]
  {
    hide IsRun, StepWorker;
    StepOf(states, acts, n);
    if acts[n].Move? { MoveKeepsProducers(states[n], acts[n].w, acts[n].expired); }
  }

  lemma MoveKeepsProducers(s: State, w: nat, expired: bool)
    requires Enabled(s, Move(w, expired))
    ensures StepWorker(s, w, expired).ps == s.ps && StepWorker(s, w, expired).cfg == s.cfg
  {
  }

  /** The producer is about to bump the epoch and wake somebody. */
  predicate Waker(p: Producer) { p == Bumping || p == Waking }

  /** No wake without a reason: a producer that has published (step `i`) and goes on to wake somebody
      saw a worker registered since, and with a limit on searchers also saw nobody search. */
  lemma {:induction false} WakesOnlyIfNeeded(states: seq<State>, acts: seq<Action>, i: nat, n: nat, p: nat)
    requires IsRun(states, acts) && i < n < |states| && acts[i].Publish? && acts[i].p == p
    ensures |states| == |acts| + 1 && p < |states[n].ps|
    ensures Waker(states[n].ps[p]) ==> exists j :: i < j < n && states[j].sleepers != 0
    ensures states[n].ps[p] == SawNoSearcher || (Waker(states[n].ps[p]) && states[n].cfg.policy.Search?) ==>
              exists j :: i < j < n && states[j].searching == 0
  {
    hide IsRun, Enabled, Apply;
    RunLength(states, acts);
    StepOf(states, acts, n - 1);
    if n == i + 1 {
      PublishFirst(states[i], acts[i]);
    } else {
      WakesOnlyIfNeeded(states, acts, i, n - 1, p);
      ProducerMoves(states[n - 1], acts[n - 1], p);
    }
  }

  lemma PublishFirst(s: State, a: Action)
    requires Enabled(s, a) && a.Publish?
    ensures a.p < |Apply(s, a).ps| && Apply(s, a).ps[a.p] == Producer.Published
  {
  }

  lemma ProducerMoves(s: State, a: Action, p: nat)
    requires Enabled(s, a) && p < |s.ps|
    ensures var s' := Apply(s, a);
            && |s'.ps| == |s.ps| && s'.cfg == s.cfg
            && (Waker(s'.ps[p]) && !Waker(s.ps[p]) ==>
                  s.sleepers != 0 && (s.ps[p] == SawNoSearcher || !s.cfg.policy.Search?))
            && (s'.ps[p] == SawNoSearcher && s.ps[p] != SawNoSearcher ==> s.searching == 0)
  {
    hide StepWorker;
    if a.Move? { MoveKeepsProducers(s, a.w, a.expired); }
  }

  /** What a wake does: the waiter it names wakes up, or stays on a condition variable whose epoch
      is still the one it saw; without a waiter to name, nobody was blocked. */
  lemma WakeReaches(states: seq<State>, acts: seq<Action>, n: nat)
    requires IsRun(states, acts) && n < |acts| && (acts[n].ProducerWakes? || acts[n].WorkerWakes?)
    ensures |states| == |acts| + 1
    ensures match acts[n].t {
              case None => forall w :: 0 <= w < |states[n].ws| ==> states[n].ws[w].pc != Blocked
              case Some(t) =>
                && t < |states[n].ws| == |states[n + 1].ws| && states[n].ws[t].pc == Blocked
                && states[n + 1].ws[t].pc == (if acts[n].stay then Blocked else Woke)
                && (acts[n].stay ==> MayStay(states[n], t))
            }
  {
    hide IsRun;
    StepOf(states, acts, n);
  }

  // ---------------------------------------------------------------------------
  // Parking is prompt, and no sooner than it should be
  // ---------------------------------------------------------------------------

  /** A worker of `ParkIdle` is registered exactly after its rounds of spinning and yielding, all
      without finding work; one of `SearchIdle` that has decided to park registers with its next
      step. */
  lemma RegistersInTime(states: seq<State>, acts: seq<Action>, n: nat, w: nat, expired: bool)
    requires IsRun(states, acts) && n < |states| && w < |states[n].ws|
    ensures states[n].cfg.policy.Park? ==>
              (RegOf(states[n].ws[w]) == 1 <==> states[n].ws[w].rounds == SPIN_ROUNDS + YIELD_ROUNDS + 1)
    ensures states[n].cfg.policy.Search? && states[n].ws[w].pc == ParkNoWork && states[n].ws[w].ticket.None? ==>
              RegOf(StepPark(states[n], w).ws[w]) == 1
  {
    RunKeeps(states, acts, n, false);
    assert LocalOk(states[n].cfg, states[n].bumps, states[n].fin, states[n].ws[w]);
  }

  /** A worker becomes a searcher exactly if the number of searchers it read is under the cap; over
      the cap, and with no work seen nearby, its next two steps take it to registering. */
  lemma OverCapParks(s: State, w: nat, e1: bool, e2: bool)
    requires w < |s.ws| && s.ws[w].pc.Trying? && s.cfg.policy.Search?
    ensures var k, s1 := s.ws[w], StepWorker(s, w, e1);
            var under := k.pc.n < Cap(s.cfg.policy.cap, |s.ws|, Word(s.sleepers), k.pc.n);
            && |s1.ws| == |s.ws|
            && (under ==> s1.ws[w].search && s1.ws[w].pc == Top)
            && (!under ==> s1.ws[w].search == k.search && s1.ws[w].pc == Reject(k.pc.retry)
                           && |StepWorker(s1, w, e2).ws| == |s.ws|
                           && StepWorker(s1, w, e2).ws[w].pc == (if k.pc.retry then Top else ParkNoWork)
                           && StepWorker(s1, w, e2).searching == s.searching - 1)
  {
  }

  /** The step ends a search of worker `w` that found nothing and saw no work nearby. */
  predicate Fruitless(s: State, a: Action, w: nat) {
    a.Move? && a.w == w && w < |s.ws| && s.ws[w].pc == NoWork(false)
  }

  /** How many fruitless rounds worker `w` has had, at state `n`, since it became a searcher. */
  ghost function Rounds(states: seq<State>, acts: seq<Action>, n: nat, w: nat): nat
    requires |states| == |acts| + 1 && n <= |acts|
  {
    if n == 0 || w >= |states[n - 1].ws| || !states[n - 1].ws[w].search then 0
    else Rounds(states, acts, n - 1, w) + One(Fruitless(states[n - 1], acts[n - 1], w))
  }

  lemma {:induction false} RoundsCounted(states: seq<State>, acts: seq<Action>, n: nat, w: nat)
    requires IsRun(states, acts) && n < |states| && w < |states[n].ws|
    ensures |states| == |acts| + 1
    ensures states[n].ws[w].search ==> states[n].ws[w].rounds == Rounds(states, acts, n, w)
  {
    hide IsRun, Enabled, Apply, Fruitless, Inv;
    RunLength(states, acts);
    if n == 0 {
      NobodySearches(states, acts, w);
    } else {
      StepOf(states, acts, n - 1);
      RunKeeps(states, acts, n - 1, false);
      RoundStep(states[n - 1], acts[n - 1], w);
      RoundsCounted(states, acts, n - 1, w);
    }
  }

  lemma NobodySearches(states: seq<State>, acts: seq<Action>, w: nat)
    requires IsRun(states, acts) && |states| > 0 && w < |states[0].ws|
    ensures !states[0].ws[w].search
  {
  }

  lemma RoundStep(s: State, a: Action, w: nat)
    requires Inv(s, false) && Enabled(s, a)
    ensures |Apply(s, a).ws| == |s.ws|
    ensures w < |s.ws| ==>
              var k, k' := s.ws[w], Apply(s, a).ws[w];
              k'.search ==> k'.rounds == if k.search then k.rounds + One(Fruitless(s, a, w)) else 0
  {
    hide StepWorker, Inv;
    if a.Move? {
      LocalOf(s, a.w);
      RoundMove(s, a.w, a.expired);
    }
  }

  lemma RoundMove(s: State, w: nat, expired: bool)
    requires Enabled(s, Move(w, expired)) && LocalOk(s.cfg, s.bumps, s.fin, s.ws[w])
    ensures var s' := StepWorker(s, w, expired);
            && |s'.ws| == |s.ws| && s'.ws == s.ws[w := s'.ws[w]]
            && (s'.ws[w].search ==>
                  s'.ws[w].rounds == if s.ws[w].search then s.ws[w].rounds + One(s.ws[w].pc == NoWork(false)) else 0)
  {
  }

  /** What a search that found nothing leads to.  A worker of `SearchIdle` that neither searches nor
      has decided to park asks to search, whether or not it saw work nearby; and a searcher stops, to
      park, exactly in every sixteenth fruitless round of its search, if its time is over. */
  lemma SearchersStopInTime(states: seq<State>, acts: seq<Action>, n: nat, w: nat)
    requires IsRun(states, acts) && n < |acts| && acts[n].Move? && acts[n].w == w
    requires w < |states[n].ws| && states[n].ws[w].pc.NoWork? && states[n].cfg.policy.Search?
    ensures |states| == |acts| + 1 && w < |states[n + 1].ws|
    ensures var k, k' := states[n].ws[w], states[n + 1].ws[w];
            var stops := (Rounds(states, acts, n, w) + 1) % 16 == 0 && acts[n].expired && !k.pc.retry;
            && (k'.pc.Trying? <==> !k.search && !k.parking)
            && (k.search ==> k'.search == !stops && k'.parking == stops && k'.pc == if stops then ParkNoWork else Top)
  {
    hide IsRun, Inv;
    RunLength(states, acts);
    StepOf(states, acts, n);
    RoundsCounted(states, acts, n, w);
    RunKeeps(states, acts, n, false);
    LocalOf(states[n], w);
  }

  // ---------------------------------------------------------------------------
  // A worker that may look finds work
  // ---------------------------------------------------------------------------

  /** A step of worker `w`'s own. */
  predicate Own(a: Action, w: nat) { (a.Move? || a.Look? || a.LookDone? || a.WorkerWakes?) && a.w == w }

  /** Taking steps of worker `w` alone from `s` leads to `t`. */
  ghost predicate Alone(s: State, acts: seq<Action>, t: State, w: nat) {
    Leads(s, acts, t) && forall i :: 0 <= i < |acts| ==> Own(acts[i], w)
  }

  /** Queue `q` has work, and worker `w` of a pool that is not finished has yet to look at it. */
  ghost predicate Awake(s: State, w: nat, q: nat) {
    && Inv(s, false) && s.fin == NotFinished && q < |s.queues| && s.queues[q] > 0
    && w < |s.ws| && Watches(s.ws[w], s.bumps, q) && !Overrun(s, w)
  }

  /** How far a worker that does not search is from the head of its loop. */
  function Rank(pc: Pc): nat {
    match pc
    case Found => 6
    case FoundPark(_) => 5
    case FoundLast => 4
    case WakeBump => 3
    case WakeCall => 2
    case Running => 1
    case NoWork(_) => 7
    case Trying(_, _) => 6
    case Reject(_) => 5
    case ParkNoWork => 4
    case Wait1 => 3
    case Wait2 => 2
    case Woke => 1
    case Snapshot => 1
    case _ => 0
  }

  lemma LocalOf(s: State, w: nat)
    requires Inv(s, false) && w < |s.ws|
    ensures LocalOk(s.cfg, s.bumps, s.fin, s.ws[w])
  {
  }

  /** Off the search, one step of its own takes the worker nearer to the head of its loop. */
  lemma NearerTop(s: State, w: nat, q: nat) returns (a: Action)
    requires Awake(s, w, q) && s.ws[w].pc != Top && !s.ws[w].pc.Scan?
    ensures Own(a, w) && Enabled(s, a) && Awake(Apply(s, a), w, q)
    ensures Rank(Apply(s, a).ws[w].pc) < Rank(s.ws[w].pc) && !Apply(s, a).ws[w].pc.Scan?
  {
    hide Inv;
    LocalOf(s, w);
    if s.ws[w].pc == WakeCall {
      a := WakeSomebody(s, w, q);
    } else {
      a := Move(w, false);
      StepKeeps(s, a, false);
      MoveNearer(s, w, q);
      StaysAwake(s, w, q);
    }
  }

  lemma MoveNearer(s: State, w: nat, q: nat)
    requires w < |s.ws| && LocalOk(s.cfg, s.bumps, s.fin, s.ws[w]) && s.fin == NotFinished && !Overrun(s, w)
    requires Watches(s.ws[w], s.bumps, q) && s.ws[w].pc != Top && !s.ws[w].pc.Scan? && s.ws[w].pc != WakeCall
    ensures Enabled(s, Move(w, false)) && w < |StepWorker(s, w, false).ws|
    ensures Rank(StepWorker(s, w, false).ws[w].pc) < Rank(s.ws[w].pc) && !StepWorker(s, w, false).ws[w].pc.Scan?
  {
    if s.ws[w].ticket.Some? { SameWordMovedEpoch(s, w); }
  }

  lemma StaysAwake(s: State, w: nat, q: nat)
    requires w < |s.ws| && LocalOk(s.cfg, s.bumps, s.fin, s.ws[w]) && s.fin == NotFinished && !Overrun(s, w)
    requires Watches(s.ws[w], s.bumps, q) && s.ws[w].pc != Top && !s.ws[w].pc.Scan? && s.ws[w].pc != WakeCall
    ensures var s' := StepWorker(s, w, false);
            && s'.fin == NotFinished && s'.queues == s.queues && |s'.ws| == |s.ws|
            && Watches(s'.ws[w], s'.bumps, q) && !Overrun(s', w)
  {
    hide RoundsOk, StepWorker;
    StaysOnTime(s, w);
    if s.ws[w].pc.NoWork? || s.ws[w].pc == ParkNoWork || s.ws[w].pc == Wait1 || s.ws[w].pc == Wait2 {
      StaysWatching(s, w, q);
    } else {
      WatchesAnyway(s, w, q);
    }
  }

  lemma StaysOnTime(s: State, w: nat)
    requires w < |s.ws| && LocalOk(s.cfg, s.bumps, s.fin, s.ws[w]) && !Overrun(s, w)
    ensures var s' := StepWorker(s, w, false);
            s'.fin == s.fin && s'.queues == s.queues && |s'.ws| == |s.ws| && !Overrun(s', w)
  {
    hide RoundsOk;
  }

  lemma StaysWatching(s: State, w: nat, q: nat)
    requires w < |s.ws| && LocalOk(s.cfg, s.bumps, s.fin, s.ws[w]) && s.fin == NotFinished && !Overrun(s, w)
    requires s.ws[w].pc.NoWork? || s.ws[w].pc == ParkNoWork || s.ws[w].pc == Wait1 || s.ws[w].pc == Wait2
    requires Watches(s.ws[w], s.bumps, q)
    ensures |StepWorker(s, w, false).ws| == |s.ws|
    ensures Watches(StepWorker(s, w, false).ws[w], StepWorker(s, w, false).bumps, q)
  {
    hide RoundsOk;
    if s.ws[w].ticket.Some? { SameWordMovedEpoch(s, w); }
  }

  lemma WatchesAnyway(s: State, w: nat, q: nat)
    requires w < |s.ws| && LocalOk(s.cfg, s.bumps, s.fin, s.ws[w]) && s.ws[w].pc != Top && !s.ws[w].pc.Scan?
    requires !s.ws[w].pc.NoWork? && s.ws[w].pc != ParkNoWork && s.ws[w].pc != Wait1 && s.ws[w].pc != Wait2
    requires Watches(s.ws[w], s.bumps, q)
    ensures |StepWorker(s, w, false).ws| == |s.ws|
    ensures Watches(StepWorker(s, w, false).ws[w], StepWorker(s, w, false).bumps, q)
  {
    hide RoundsOk;
  }

  lemma WakeSomebody(s: State, w: nat, q: nat) returns (a: Action)
    requires Awake(s, w, q) && s.ws[w].pc == WakeCall
    ensures Own(a, w) && Enabled(s, a) && Awake(Apply(s, a), w, q) && Apply(s, a).ws[w].pc == Running
  {
    LocalOf(s, w);
    if t: nat :| t < |s.ws| && s.ws[t].pc == Blocked {
      a := WorkerWakes(w, Some(t), false);
    } else {
      a := WorkerWakes(w, None, false);
    }
    assert Enabled(s, a);
    StepKeeps(s, a, false);
    hide Inv;
  }

  /** The worker takes an item with its last step. */
  ghost predicate TakesLast(s: State, acts: seq<Action>, t: State, w: nat) {
    && Alone(s, acts, t, w) && acts != [] && acts[|acts| - 1].Look?
    && w < |t.ws| && t.ws[w].pc == Found
  }

  lemma AloneFirst(s: State, a: Action, s1: State, acts: seq<Action>, t: State, w: nat)
    requires Enabled(s, a) && Own(a, w) && s1 == Apply(s, a)
    ensures Alone(s1, acts, t, w) ==> Alone(s, [a] + acts, t, w)
    ensures TakesLast(s1, acts, t, w) ==> TakesLast(s, [a] + acts, t, w)
  {
    hide Enabled, Apply, Own;
    assert ([a] + acts)[1..] == acts;
  }

  lemma JustOne(s: State, a: Action, t: State, w: nat)
    requires Enabled(s, a) && Own(a, w) && t == Apply(s, a) && a.Look? && w < |t.ws| && t.ws[w].pc == Found
    ensures TakesLast(s, [a], t, w)
  {
    hide Enabled, Apply;
    assert Leads(t, [], t);
    assert [a][1..] == [];
  }

  /** The queues a search has yet to look at. */
  function Unseen(s: State, done: set<nat>): set<nat> { set q: nat | q < |s.queues| && q !in done }

  /** A searching worker either takes an item, or ends its search nearer to the next one. */
  lemma {:induction false} SearchOn(s: State, w: nat, q: nat) returns (acts: seq<Action>, t: State)
    requires Awake(s, w, q) && s.ws[w].pc.Scan?
    ensures TakesLast(s, acts, t, w) || (Alone(s, acts, t, w) && Awake(t, w, q) && t.ws[w].pc.NoWork?)
    decreases Unseen(s, s.ws[w].pc.done)
  {
    hide Inv, Leads, Apply, Enabled, Alone, TakesLast;
    var done := s.ws[w].pc.done;
    if q !in done {
      acts, t := TakeFrom(s, w, q, q);
    } else if p: nat :| p < |s.queues| && p !in done {
      if s.queues[p] > 0 {
        acts, t := TakeFrom(s, w, q, p);
      } else {
        var a := Look(w, p, false);
        LooksOn(s, w, q, p);
        var s1 := Apply(s, a);
        assert p in Unseen(s, done) && p !in Unseen(s1, s1.ws[w].pc.done);
        var rest;
        rest, t := SearchOn(s1, w, q);
        acts := [a] + rest;
        AloneFirst(s, a, s1, rest, t, w);
      }
    } else {
      var a := LookDone(w);
      EndsSearch(s, w, q);
      t := Apply(s, a);
      acts := [a] + [];
      AloneNowhere(t, w);
      AloneFirst(s, a, t, [], t, w);
    }
  }

  lemma AloneNowhere(t: State, w: nat)
    ensures Alone(t, [], t, w)
  {
    LeadsNowhere(t);
  }

  lemma EndsSearch(s: State, w: nat, q: nat)
    requires Awake(s, w, q) && s.ws[w].pc.Scan? && forall p: nat :: p < |s.queues| ==> p in s.ws[w].pc.done
    ensures var a := LookDone(w);
            Enabled(s, a) && Awake(Apply(s, a), w, q) && Apply(s, a).ws[w].pc.NoWork?
  {
    hide Inv;
    assert Enabled(s, LookDone(w));
    StepKeeps(s, LookDone(w), false);
  }

  lemma LooksOn(s: State, w: nat, q: nat, p: nat)
    requires Awake(s, w, q) && s.ws[w].pc.Scan? && q in s.ws[w].pc.done
    requires p < |s.queues| && p !in s.ws[w].pc.done && s.queues[p] == 0
    ensures Enabled(s, Look(w, p, false))
    ensures var s1 := Apply(s, Look(w, p, false));
            && Awake(s1, w, q) && s1.ws[w].pc.Scan? && s1.ws[w].pc.done == s.ws[w].pc.done + {p} && |s1.queues| == |s.queues|
  {
    hide Inv;
    StepKeeps(s, Look(w, p, false), false);
  }

  lemma TakeFrom(s: State, w: nat, q: nat, p: nat) returns (acts: seq<Action>, t: State)
    requires Awake(s, w, q) && s.ws[w].pc.Scan? && p < |s.queues| && p !in s.ws[w].pc.done && s.queues[p] > 0
    ensures TakesLast(s, acts, t, w)
  {
    hide Inv, Leads;
    t := Apply(s, Look(w, p, false));
    acts := [Look(w, p, false)];
    JustOne(s, Look(w, p, false), t, w);
  }

  /** From the head of its loop, a worker left alone takes an item. */
  lemma TopFinds(s: State, w: nat, q: nat) returns (acts: seq<Action>, t: State)
    requires Awake(s, w, q) && s.ws[w].pc == Top
    ensures TakesLast(s, acts, t, w)
  {
    hide Inv, Leads, Apply, Enabled, TakesLast;
    var a := Move(w, false);
    StartsScan(s, w, q);
    var s1 := Apply(s, a);
    var rest;
    rest, t := TakeFrom(s1, w, q, q);
    acts := [a] + rest;
    AloneFirst(s, a, s1, rest, t, w);
  }

  lemma StartsScan(s: State, w: nat, q: nat)
    requires Awake(s, w, q) && s.ws[w].pc == Top
    ensures Enabled(s, Move(w, false)) && Awake(Apply(s, Move(w, false)), w, q)
    ensures Apply(s, Move(w, false)).ws[w].pc == Scan({}, false)
  {
    hide Inv;
    StepKeeps(s, Move(w, false), false);
    assert Apply(s, Move(w, false)) == Put(s, w, s.ws[w].(pc := Scan({}, false)));
    hide Apply;
  }

  lemma {:induction false} NotSearchingFinds(s: State, w: nat, q: nat) returns (acts: seq<Action>, t: State)
    requires Awake(s, w, q) && !s.ws[w].pc.Scan?
    ensures TakesLast(s, acts, t, w)
    decreases Rank(s.ws[w].pc)
  {
    hide Inv, Leads, Apply, Enabled;
    if s.ws[w].pc == Top {
      acts, t := TopFinds(s, w, q);
    } else {
      var a := NearerTop(s, w, q);
      var rest;
      rest, t := NotSearchingFinds(Apply(s, a), w, q);
      acts := [a] + rest;
      AloneFirst(s, a, Apply(s, a), rest, t, w);
    }
  }

  lemma AloneThen(s: State, first: seq<Action>, s1: State, rest: seq<Action>, t: State, w: nat)
    requires Alone(s, first, s1, w) && TakesLast(s1, rest, t, w)
    ensures TakesLast(s, first + rest, t, w)
  {
    hide Leads, Own;
    LeadsOn(s, first, s1, rest, t);
  }

  /** A worker that watches a queue with work, and is not about to be deceived by a wrapped epoch,
      takes an item if it is left alone, wherever it stands. */
  lemma WatcherFindsWork(s: State, w: nat, q: nat) returns (acts: seq<Action>, t: State)
    requires Awake(s, w, q)
    ensures TakesLast(s, acts, t, w)
  {
    hide Inv, Alone, TakesLast;
    if s.ws[w].pc.Scan? {
      var first, s1 := SearchOn(s, w, q);
      if TakesLast(s, first, s1, w) {
        acts, t := first, s1;
      } else {
        var rest;
        rest, t := NotSearchingFinds(s1, w, q);
        acts := first + rest;
        AloneThen(s, first, s1, rest, t, w);
      }
    } else {
      acts, t := NotSearchingFinds(s, w, q);
    }
  }

  /** So whenever work is waiting and nobody is about to wake somebody for it, some worker takes an
      item if it is left alone. */
  lemma WorkIsTaken(states: seq<State>, acts: seq<Action>, n: nat, q: nat) returns (w: nat, more: seq<Action>, t: State)
    requires IsRun(states, acts) && n < |states| && NeverDeceived(states, acts, n) && states[n].fin == NotFinished
    requires q < |states[n].queues| && states[n].queues[q] > 0
    requires forall p :: 0 <= p < |states[n].ps| ==> states[n].ps[p] == Quiet
    requires forall v: nat :: v < |states[n].ws| ==> !Overrun(states[n], v)
    ensures TakesLast(states[n], more, t, w)
  {
    hide IsRun, Inv, TakesLast;
    NoLostWakeup(states, acts, n, q);
    w :| 0 <= w < |states[n].ws| && states[n].ws[w].pc != Blocked && Watches(states[n].ws[w], states[n].bumps, q);
    RunKeeps(states, acts, n, false);
    more, t := WatcherFindsWork(states[n], w, q);
  }
}
