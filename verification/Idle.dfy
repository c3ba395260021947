/** The parking idle policies (src/resumable/common/idle.rs) inside the worker loop
    (src/resumable/common/worker_core.rs): idle workers search every queue, register, search
    once more and block; producers publish work and then read the counters to decide whether to
    wake somebody.  `ParkIdle` and `SearchIdle` are the two values of `policy`.

    One step is one atomic access: one queue of a search, one counter, the epoch, the kernel's
    compare-and-queue.  Any number of workers and producers interleave. */
module Idle {
  import opened Basics
  import opened Folds

  const SPIN_ROUNDS: nat := 64
  const YIELD_ROUNDS: nat := 64

  /** The number of values of the 32-bit epoch word. */
  const WORD: nat := 0x1_0000_0000

  // ---------------------------------------------------------------------------
  // Configuration
  // ---------------------------------------------------------------------------

  datatype CapPolicy = GoCap | HalfCap | FixedCap(n: nat)

  datatype Policy = Park | Search(cap: CapPolicy)

  /** `condvar`: waits on a condition variable (`CondvarWait`) instead of a futex. */
  datatype Config = Config(policy: Policy, condvar: bool)

  function Max(a: nat, b: nat): nat { if a < b then b else a }

  function Minus(a: nat, b: nat): nat { if a < b then 0 else a - b }

  /** `SearchCap::cap`: how many workers may search at once. */
  function Cap(c: CapPolicy, workers: nat, parked: nat, searching: nat): nat {
    match c
    case GoCap => Max(Minus(workers, parked + searching) / 2, 1)
    case HalfCap => Max(workers / 2, 1)
    case FixedCap(n) => n
  }

  /** What no cap of the policy ever exceeds. */
  function CapBound(c: CapPolicy, workers: nat): nat {
    match c
    case GoCap => Max(workers / 2, 1)
    case HalfCap => Max(workers / 2, 1)
    case FixedCap(n) => n
  }

  lemma CapBounded(c: CapPolicy, workers: nat, parked: nat, searching: nat)
    ensures Cap(c, workers, parked, searching) <= CapBound(c, workers)
  {
  }

  /** A counter as an unsigned number; that it never goes below zero is part of the invariant. */
  function Word(n: int): nat { if n < 0 then 0 else n }

  // ---------------------------------------------------------------------------
  // State
  // ---------------------------------------------------------------------------

  /** A registered worker's epoch snapshot: the word it read, and (history) how many times the
      epoch had been bumped by then. */
  datatype Ticket = Ticket(seen: nat, at: nat)

  datatype Pc =
    | Top                              // head of the worker loop
    | Scan(done: set<nat>, retry: bool) // searching; the queues looked at so far; lost a race
    | NoWork(retry: bool)              // the search found nothing
    | Trying(n: nat, retry: bool)      // try_search: added itself to `searching`, read `n`
    | Reject(retry: bool)              // try_search: over the cap, not yet subtracted
    | ParkNoWork                       // ParkIdle's no_work_found
    | Snapshot                         // counted in `sleepers`, epoch not yet read
    | Wait1                            // wait: about to compare the epoch and read `finished`
    | Wait2                            // wait: about to enter the kernel (futex only)
    | Blocked
    | Woke                             // returned from the wait, still registered
    | Found                            // took an item: work_found
    | FoundPark(last: bool)            // work_found: stopped searching, still registered
    | FoundLast                        // work_found: was the last searcher
    | WakeBump | WakeCall              // wake_one, from work_found
    | Running                          // runs the item
    | Exited

  /** A worker's loop position and episode: `rounds` and `ticket` of `ParkEpisode`, whether it
      holds `search_since`, and `parking` of `SearchEpisode`. */
  datatype Worker = Worker(pc: Pc, rounds: nat, ticket: Option<Ticket>, search: bool, parking: bool)

  /** A producer between publishing an item and the end of `new_work`. */
  datatype Producer =
    | Quiet
    | Published       // about to read the first counter
    | SawNoSearcher   // read searching == 0, about to read sleepers
    | Bumping         // read sleepers != 0, about to bump the epoch
    | Waking          // bumped the epoch, about to wake one waiter

  /** `PoolCore::finish`. */
  datatype Finisher = NotFinished | Flagged | EpochBumped | Finished

  datatype State = State(cfg: Config, ws: seq<Worker>, ps: seq<Producer>, queues: seq<nat>,
                         sleepers: int, searching: int, bumps: nat, fin: Finisher)

  predicate FinishedFlag(s: State) { s.fin != NotFinished }

  function Epoch(s: State): nat { s.bumps % WORD }

  ghost predicate Init(s: State) {
    && |s.ws| > 0
    && (forall w :: 0 <= w < |s.ws| ==> s.ws[w] == Worker(Top, 0, None, false, false))
    && (forall p :: 0 <= p < |s.ps| ==> s.ps[p] == Quiet)
    && s.sleepers == 0 && s.searching == 0 && s.bumps == 0 && s.fin == NotFinished
  }

  // ---------------------------------------------------------------------------
  // Steps
  // ---------------------------------------------------------------------------

  datatype Action =
    | Move(w: nat, expired: bool)               // worker's own step; `expired`: its search time is over
    | Look(w: nat, q: nat, lost: bool)          // search one queue; `lost`: had work, lost the race
    | LookDone(w: nat)
    | Publish(p: nat, q: nat)
    | Notify(p: nat)                            // a producer's step in new_work
    | ProducerWakes(p: nat, t: Option<nat>, stay: bool)
    | WorkerWakes(w: nat, t: Option<nat>, stay: bool)
    | Returns(v: nat, stay: bool)               // a timed-out or spurious return from the wait
    | Finish

  /** A woken waiter of a condition variable checks again under the lock, and goes back to sleep
      if the epoch word is still the one it saw and the pool is not finished. */
  predicate MayStay(s: State, t: nat)
    requires t < |s.ws|
  {
    && s.cfg.condvar && !FinishedFlag(s)
    && s.ws[t].ticket.Some? && s.ws[t].ticket.value.seen == Epoch(s)
  }

  ghost predicate Wakable(s: State, t: Option<nat>, stay: bool) {
    match t
    case None => forall w :: 0 <= w < |s.ws| ==> s.ws[w].pc != Blocked
    case Some(t) => t < |s.ws| && s.ws[t].pc == Blocked && (stay ==> MayStay(s, t))
  }

  ghost predicate Enabled(s: State, a: Action) {
    match a
    case Move(w, _) =>
      w < |s.ws| && match s.ws[w].pc {
        case Scan(_, _) => false
        case Blocked => false
        case WakeCall => false
        case Exited => false
        case Wait1 => s.ws[w].ticket.Some?
        case Wait2 => s.ws[w].ticket.Some?
        case _ => true
      }
    case Look(w, q, lost) =>
      && w < |s.ws| && q < |s.queues| && s.ws[w].pc.Scan? && q !in s.ws[w].pc.done
      && (lost ==> s.queues[q] > 0)
    case LookDone(w) =>
      w < |s.ws| && s.ws[w].pc.Scan? && (forall q :: 0 <= q < |s.queues| ==> q in s.ws[w].pc.done)
    case Publish(p, q) => p < |s.ps| && s.ps[p] == Quiet && q < |s.queues|
    case Notify(p) => p < |s.ps| && s.ps[p] != Quiet && s.ps[p] != Waking
    case ProducerWakes(p, t, stay) => p < |s.ps| && s.ps[p] == Waking && Wakable(s, t, stay)
    case WorkerWakes(w, t, stay) => w < |s.ws| && s.ws[w].pc == WakeCall && Wakable(s, t, stay)
    case Returns(t, stay) => Wakable(s, Some(t), stay)
    case Finish => s.fin != Finished
  }

  function Put(s: State, w: nat, k: Worker): State
    requires w < |s.ws|
  {
    s.(ws := s.ws[w := k])
  }

  function Apply(s: State, a: Action): State
    requires Enabled(s, a)
  {
    match a
    case Move(w, expired) => StepWorker(s, w, expired)
    case Look(w, q, lost) => StepLook(s, w, q, lost)
    case LookDone(w) => Put(s, w, s.ws[w].(pc := NoWork(s.ws[w].pc.retry)))
    case Publish(p, q) => s.(queues := s.queues[q := s.queues[q] + 1], ps := s.ps[p := Published])
    case Notify(p) => StepNotify(s, p)
    case ProducerWakes(p, t, stay) => Wake(s.(ps := s.ps[p := Quiet]), t, stay)
    case WorkerWakes(w, t, stay) =>
      var s1 := Wake(s, t, stay);
      Put(s1, w, s1.ws[w].(pc := Running))
    case Returns(t, stay) => Wake(s, Some(t), stay)
    case Finish => StepFinish(s)
  }

  /** Wake the waiter `t`, if there is one. */
  function Wake(s: State, t: Option<nat>, stay: bool): State
    requires t.Some? ==> t.value < |s.ws|
  {
    if t.None? || stay then s else Put(s, t.value, s.ws[t.value].(pc := Woke))
  }

  /** One queue of a search: take an item, or find it empty, or lose the race for its items. */
  function StepLook(s: State, w: nat, q: nat, lost: bool): State
    requires w < |s.ws| && q < |s.queues| && s.ws[w].pc.Scan?
  {
    var k := s.ws[w];
    if s.queues[q] == 0 || lost then
      Put(s, w, k.(pc := Scan(k.pc.done + {q}, k.pc.retry || lost)))
    else
      Put(s.(queues := s.queues[q := s.queues[q] - 1]), w, k.(pc := Found))
  }

  /** `new_work`, after the item was published. */
  function StepNotify(s: State, p: nat): State
    requires p < |s.ps| && s.ps[p] != Quiet && s.ps[p] != Waking
  {
    match s.ps[p]
    case Published =>
      if s.cfg.policy.Search? then
        s.(ps := s.ps[p := if s.searching == 0 then SawNoSearcher else Quiet])
      else
        s.(ps := s.ps[p := if s.sleepers != 0 then Bumping else Quiet])
    case SawNoSearcher => s.(ps := s.ps[p := if s.sleepers != 0 then Bumping else Quiet])
    case Bumping => s.(ps := s.ps[p := Waking], bumps := s.bumps + 1)
  }

  /** `PoolCore::finish`: the flag, the bump, the wake of everyone. */
  function StepFinish(s: State): State {
    match s.fin
    case NotFinished => s.(fin := Flagged)
    case Flagged => s.(fin := EpochBumped, bumps := s.bumps + 1)
    case EpochBumped => s.(fin := Finished, ws := seq(|s.ws|, i requires 0 <= i < |s.ws| => WakeUp(s.ws[i])))
    case Finished => s
  }

  function WakeUp(k: Worker): Worker {
    if k.pc == Blocked then k.(pc := Woke) else k
  }

  /** A worker's own steps. */
  function StepWorker(s: State, w: nat, expired: bool): State
    requires w < |s.ws|
    requires s.ws[w].pc == Wait1 || s.ws[w].pc == Wait2 ==> s.ws[w].ticket.Some?
  {
    var k := s.ws[w];
    match k.pc
    case Top => Put(s, w, k.(pc := if FinishedFlag(s) then Exited else Scan({}, false)))
    case NoWork(retry) => StepNoWork(s, w, retry, expired)
    case Trying(n, retry) =>
      if s.cfg.policy.Search? && n < Cap(s.cfg.policy.cap, |s.ws|, Word(s.sleepers), n) then
        Put(s, w, k.(pc := Top, search := true, rounds := 0))
      else
        Put(s, w, k.(pc := Reject(retry)))
    case Reject(retry) =>
      var s1 := s.(searching := s.searching - 1);
      if retry then Put(s1, w, k.(pc := Top))
      else Put(s1, w, k.(pc := ParkNoWork, parking := true, rounds := SPIN_ROUNDS + YIELD_ROUNDS))
    case ParkNoWork => StepPark(s, w)
    case Snapshot => Put(s, w, k.(pc := Top, ticket := Some(Ticket(Epoch(s), s.bumps))))
    case Wait1 =>
      if Epoch(s) == k.ticket.value.seen && !FinishedFlag(s) then
        Put(s, w, k.(pc := if s.cfg.condvar then Blocked else Wait2))
      else Put(s, w, k.(pc := Woke))
    case Wait2 => Put(s, w, k.(pc := if Epoch(s) == k.ticket.value.seen then Blocked else Woke))
    case Woke => Unregister(s, w, k.(pc := Top, parking := false))
    case Found => StepFound(s, w)
    case FoundPark(last) => Unregister(s, w, k.(pc := if last then FoundLast else Running))
    case FoundLast => Put(s, w, k.(pc := if s.sleepers != 0 then WakeBump else Running))
    case WakeBump => Put(s.(bumps := s.bumps + 1), w, k.(pc := WakeCall))
    case Running => Put(s, w, k.(pc := Top))
    case _ => s
  }

  /** `unregister`: give the ticket back. */
  function Unregister(s: State, w: nat, k: Worker): State
    requires w < |s.ws|
  {
    Put(s.(sleepers := if k.ticket.Some? then s.sleepers - 1 else s.sleepers), w,
        k.(ticket := None, rounds := 0))
  }

  /** `work_found`: a searcher stops searching and notes whether it was the last one. */
  function StepFound(s: State, w: nat): State
    requires w < |s.ws|
  {
    var k := s.ws[w];
    if k.search then
      Put(s.(searching := s.searching - 1), w,
          k.(pc := FoundPark(s.searching == 1), search := false, parking := false))
    else
      Put(s, w, k.(pc := FoundPark(false), parking := false))
  }

  /** `no_work_found` of the policy, up to its first access to a counter. */
  function StepNoWork(s: State, w: nat, retry: bool, expired: bool): State
    requires w < |s.ws|
  {
    var k := s.ws[w];
    if s.cfg.policy.Park? then
      Put(s, w, k.(pc := if retry then Top else ParkNoWork))
    else if retry then
      if !k.search && !k.parking then TrySearch(s, w, true) else Put(s, w, k.(pc := Top))
    else if k.parking then
      Put(s, w, k.(pc := ParkNoWork))
    else if !k.search then
      TrySearch(s, w, false)
    else if (k.rounds + 1) % 16 != 0 || !expired then
      Put(s, w, k.(pc := Top, rounds := k.rounds + 1))
    else
      Put(s.(searching := s.searching - 1), w,
          k.(pc := ParkNoWork, search := false, parking := true, rounds := SPIN_ROUNDS + YIELD_ROUNDS))
  }

  function TrySearch(s: State, w: nat, retry: bool): State
    requires w < |s.ws|
  {
    Put(s.(searching := s.searching + 1), w, s.ws[w].(pc := Trying(Word(s.searching), retry)))
  }

  /** `ParkIdle::no_work_found`: count rounds, then register, and with a ticket wait. */
  function StepPark(s: State, w: nat): State
    requires w < |s.ws|
  {
    var k := s.ws[w];
    if k.ticket.Some? then Put(s, w, k.(pc := Wait1))
    else if k.rounds + 1 <= SPIN_ROUNDS + YIELD_ROUNDS then Put(s, w, k.(pc := Top, rounds := k.rounds + 1))
    else Put(s.(sleepers := s.sleepers + 1), w, k.(pc := Snapshot, rounds := k.rounds + 1))
  }

  // ---------------------------------------------------------------------------
  // Inductive invariant
  // ---------------------------------------------------------------------------

  /** Counted in `sleepers`. */
  function RegOf(k: Worker): nat { if k.ticket.Some? || k.pc == Snapshot then 1 else 0 }

  /** Counted in `searching`. */
  function SearchOf(k: Worker): nat { if k.search || k.pc.Trying? || k.pc.Reject? then 1 else 0 }

  /** Holds `search_since`, or will once its `try_search` has compared with the cap. */
  function AccOf(bound: nat): Worker -> nat {
    (k: Worker) => if k.search || (k.pc.Trying? && k.pc.n < bound) then 1 else 0
  }

  /** Holds `search_since`. */
  function HoldOf(k: Worker): nat { if k.search then 1 else 0 }

  ghost predicate CountsOk(s: State) {
    && s.sleepers == Sum(s.ws, RegOf)
    && s.searching == Sum(s.ws, SearchOf)
  }

  ghost predicate CapOk(s: State) {
    match s.cfg.policy
    case Park => true
    case Search(cap) => var b := CapBound(cap, |s.ws|); Sum(s.ws, AccOf(b)) <= b
  }

  predicate Fresh(k: Worker, bumps: nat) { k.ticket.Some? && k.ticket.value.at == bumps }

  /** No bump since the worker's snapshot, and queue `q` found empty since: if nothing changes,
      the worker goes to sleep without looking at `q` again. */
  predicate Past(k: Worker, bumps: nat, q: nat) {
    && Fresh(k, bumps)
    && match k.pc
       case Scan(done, retry) => !retry && q in done
       case NoWork(retry) => !retry
       case ParkNoWork => true
       case Wait1 => true
       case Wait2 => true
       case Blocked => true
       case _ => false
  }

  /** Somebody may still look at queue `q`. */
  predicate Watches(k: Worker, bumps: nat, q: nat) { k.pc != Blocked && !Past(k, bumps, q) }

  predicate Pending(p: Producer) { p == Published || p == SawNoSearcher || p == Bumping }

  ghost predicate SomePending(s: State) {
    exists p :: 0 <= p < |s.ps| && Pending(s.ps[p])
  }

  ghost predicate SomeWatcher(s: State, q: nat) {
    exists w :: 0 <= w < |s.ws| && Watches(s.ws[w], s.bumps, q)
  }

  ghost predicate SomeWaker(s: State) {
    s.fin == EpochBumped || exists p :: 0 <= p < |s.ps| && s.ps[p] == Waking
  }

  /** Everyone sleeps, on an epoch that has moved on. */
  ghost predicate AllStale(s: State) {
    forall w :: 0 <= w < |s.ws| ==> s.ws[w].pc == Blocked && !Fresh(s.ws[w], s.bumps)
  }

  /** Work in queue `q` is not forgotten: a producer has yet to decide about a wake, or an awake
      worker has yet to look at `q`, or everybody's wait is over and a wake is on its way. */
  ghost predicate Remembered(s: State, q: nat) {
    SomePending(s) || SomeWatcher(s, q) || (AllStale(s) && SomeWaker(s))
  }

  ghost predicate WorkOk(s: State) {
    forall q :: 0 <= q < |s.queues| && s.queues[q] > 0 ==> Remembered(s, q)
  }

  predicate LocalOk(cfg: Config, bumps: nat, fin: Finisher, k: Worker) {
    && (k.ticket.Some? ==> k.ticket.value.at <= bumps && k.ticket.value.seen == k.ticket.value.at % WORD)
    && (k.pc == Wait1 || k.pc == Wait2 || k.pc == Blocked || k.pc == Woke ==> k.ticket.Some?)
    && (k.pc == Snapshot ==> k.ticket.None?)
    && (SearchOf(k) == 1 ==> k.ticket.None? && k.pc != Snapshot && !k.parking && k.pc != ParkNoWork && cfg.policy.Search?)
    && (cfg.policy.Search? && (k.ticket.Some? || k.pc == Snapshot || k.pc == ParkNoWork) ==> k.parking || k.pc.FoundPark?)
    && (k.pc.Trying? || k.pc.Reject? ==> !k.search)
    && (k.pc.FoundPark? ==> !k.search && !k.parking)
    && ((fin == EpochBumped || fin == Finished) && k.ticket.Some? && k.pc != Top && k.pc != Exited
        ==> k.ticket.value.at < bumps)
    && (cfg.condvar ==> k.pc != Wait2 && (fin == Finished ==> k.pc != Blocked))
    && (k.pc == Exited ==> fin != NotFinished)
    && (k.pc == FoundLast || k.pc == WakeBump || k.pc == WakeCall || k.pc == Running ==> k.ticket.None?)
    && RoundsOk(cfg, k)
  }

  /** `ParkIdle` counts fruitless rounds up to the one in which it registers; a worker of
      `SearchIdle` that has decided to park has them behind it. */
  predicate RoundsOk(cfg: Config, k: Worker) {
    match cfg.policy
    case Park => k.rounds <= SPIN_ROUNDS + YIELD_ROUNDS + 1 && (RegOf(k) == 1 <==> k.rounds == SPIN_ROUNDS + YIELD_ROUNDS + 1)
    case Search(_) => k.parking && RegOf(k) == 0 ==> k.pc == Exited || (k.pc == ParkNoWork && k.rounds >= SPIN_ROUNDS + YIELD_ROUNDS)
  }

  ghost predicate LocalsOk(s: State) {
    && |s.ws| > 0
    && (forall w :: 0 <= w < |s.ws| ==> LocalOk(s.cfg, s.bumps, s.fin, s.ws[w]))
  }

  /** `exact`: as long as no comparison was deceived by a wrap of the epoch word.  Only the memory
      of waiting work depends on that. */
  ghost predicate Inv(s: State, exact: bool) {
    CountsOk(s) && CapOk(s) && LocalsOk(s) && (exact ==> WorkOk(s))
  }

  /** The epoch has moved on since the worker's snapshot, by a multiple of what its word can
      hold. */
  predicate Overrun(s: State, w: nat)
    requires w < |s.ws|
  {
    var k := s.ws[w];
    k.ticket.Some? && k.ticket.value.at < s.bumps && (s.bumps - k.ticket.value.at) % WORD == 0
  }

  /** The step is a comparison that puts a worker to sleep, or leaves it asleep, although the epoch
      has moved on since its snapshot: the kernel's compare-and-queue, the check of a condition
      variable's waiter under the lock, or the check of such a waiter that was woken. */
  ghost predicate Deceived(s: State, a: Action) {
    match a
    case Move(w, _) =>
      w < |s.ws| && Overrun(s, w)
      && (s.ws[w].pc == Wait2 || (s.ws[w].pc == Wait1 && s.cfg.condvar && !FinishedFlag(s)))
    case ProducerWakes(_, t, stay) => stay && t.Some? && t.value < |s.ws| && Overrun(s, t.value)
    case WorkerWakes(_, t, stay) => stay && t.Some? && t.value < |s.ws| && Overrun(s, t.value)
    case Returns(t, stay) => stay && t < |s.ws| && Overrun(s, t)
    case _ => false
  }

  // ---------------------------------------------------------------------------
  // Preservation
  // ---------------------------------------------------------------------------

  /** A registered worker finds the epoch word it saw on a moved epoch exactly if it is overrun. */
  lemma SameWordMovedEpoch(s: State, w: nat)
    requires w < |s.ws| && LocalOk(s.cfg, s.bumps, s.fin, s.ws[w]) && s.ws[w].ticket.Some?
    ensures s.ws[w].ticket.value.seen == Epoch(s) && !Fresh(s.ws[w], s.bumps) <==> Overrun(s, w)
  {
    var at, d := s.ws[w].ticket.value.at, s.bumps - s.ws[w].ticket.value.at;
    SameRemainder(at, d, WORD);
  }

  /** A waiter's own comparison puts it to sleep on a moved epoch exactly if it is overrun (and, for
      a condition variable, the pool is not finished). */
  lemma BlocksDeceivedExactly(s: State, w: nat, expired: bool)
    requires LocalsOk(s) && Enabled(s, Move(w, expired))
    requires s.ws[w].pc == Wait2 || (s.ws[w].pc == Wait1 && s.cfg.condvar)
    ensures StepWorker(s, w, expired).ws[w].pc == Blocked && !Fresh(s.ws[w], s.bumps) <==> Deceived(s, Move(w, expired))
  {
    assert LocalOk(s.cfg, s.bumps, s.fin, s.ws[w]);
    SameWordMovedEpoch(s, w);
  }

  /** A woken waiter may go back to sleep on a moved epoch exactly if it is overrun and waits on a
      condition variable of an unfinished pool. */
  lemma StaysDeceivedExactly(s: State, t: nat)
    requires LocalsOk(s) && t < |s.ws| && s.ws[t].pc == Blocked
    ensures MayStay(s, t) && !Fresh(s.ws[t], s.bumps) <==> s.cfg.condvar && !FinishedFlag(s) && Overrun(s, t)
  {
    assert LocalOk(s.cfg, s.bumps, s.fin, s.ws[t]);
    SameWordMovedEpoch(s, t);
  }

  lemma SomeCounted(ws: seq<Worker>, f: Worker -> nat) returns (w: nat)
    requires Sum(ws, f) > 0
    ensures w < |ws| && f(ws[w]) > 0
  {
    var n := |ws| - 1;
    if f(ws[n]) > 0 { w := n; } else { w := SomeCounted(ws[..n], f); }
  }

  lemma {:induction false} NoneCounted(ws: seq<Worker>, f: Worker -> nat, w: nat)
    requires Sum(ws, f) == 0 && w < |ws|
    ensures f(ws[w]) == 0
  {
    if w < |ws| - 1 { NoneCounted(ws[..|ws| - 1], f, w); }
  }

  /** A worker's own step cannot make the pool forget work, as long as a worker that watched a
      queue which is still non-empty goes on watching it. */
  lemma WorkKept(s: State, s': State, w: nat)
    requires WorkOk(s) && LocalsOk(s) && w < |s.ws| == |s'.ws| && s'.ws == s.ws[w := s'.ws[w]]
    requires |s'.queues| == |s.queues|
    requires s'.ps == s.ps && s'.fin == s.fin && s.bumps <= s'.bumps
    requires s.ws[w].pc != Blocked
    requires forall q :: 0 <= q < |s.queues| && s'.queues[q] > 0 ==>
               s.queues[q] > 0 && (Watches(s.ws[w], s.bumps, q) ==> Watches(s'.ws[w], s'.bumps, q))
    ensures WorkOk(s')
  {
    forall q | 0 <= q < |s'.queues| && s'.queues[q] > 0 ensures Remembered(s', q) {
      assert Remembered(s, q);
      if SomeWatcher(s, q) {
        var v :| 0 <= v < |s.ws| && Watches(s.ws[v], s.bumps, q);
        assert LocalOk(s.cfg, s.bumps, s.fin, s.ws[v]);
        assert Watches(s'.ws[v], s'.bumps, q);
      } else if SomePending(s) {
        var p :| 0 <= p < |s.ps| && Pending(s.ps[p]);
        assert Pending(s'.ps[p]);
      }
    }
  }

  /** One worker changes: the counters move by that worker's difference. */
  lemma CountsKept(s: State, s': State, w: nat)
    requires CountsOk(s) && w < |s.ws| == |s'.ws| && s'.ws == s.ws[w := s'.ws[w]]
    requires s'.sleepers - s.sleepers == RegOf(s'.ws[w]) - RegOf(s.ws[w])
    requires s'.searching - s.searching == SearchOf(s'.ws[w]) - SearchOf(s.ws[w])
    ensures CountsOk(s')
  {
    SumUpdate(s.ws, w, s'.ws[w], RegOf);
    SumUpdate(s.ws, w, s'.ws[w], SearchOf);
  }

  lemma CapKept(s: State, s': State, w: nat)
    requires CapOk(s) && w < |s.ws| == |s'.ws| && s'.ws == s.ws[w := s'.ws[w]] && s'.cfg == s.cfg
    requires s.cfg.policy.Search? ==>
               var b := CapBound(s.cfg.policy.cap, |s.ws|);
               AccOf(b)(s'.ws[w]) <= AccOf(b)(s.ws[w])
    ensures CapOk(s')
  {
    if s.cfg.policy.Search? {
      SumUpdate(s.ws, w, s'.ws[w], AccOf(CapBound(s.cfg.policy.cap, |s.ws|)));
    }
  }

  /** Those accepted under the cap are all counted in `searching`. */
  lemma {:induction false} AcceptedAreCounted(ws: seq<Worker>, b: nat)
    ensures Sum(ws, AccOf(b)) <= Sum(ws, SearchOf)
  {
    if ws != [] { AcceptedAreCounted(ws[..|ws| - 1], b); }
  }

  lemma TrySearchKeepsCap(s: State, w: nat, retry: bool)
    requires CapOk(s) && CountsOk(s) && w < |s.ws| && s.cfg.policy.Search?
    requires !s.ws[w].search && !s.ws[w].pc.Trying?
    ensures CapOk(TrySearch(s, w, retry))
  {
    var s' := TrySearch(s, w, retry);
    var b := CapBound(s.cfg.policy.cap, |s.ws|);
    SumUpdate(s.ws, w, s'.ws[w], AccOf(b));
    AcceptedAreCounted(s.ws, b);
  }

  lemma LocalsKept(s: State, s': State, w: nat)
    requires LocalsOk(s) && w < |s.ws| == |s'.ws| && s'.ws == s.ws[w := s'.ws[w]]
    requires s'.cfg == s.cfg && s'.fin == s.fin && s.bumps <= s'.bumps
    requires LocalOk(s'.cfg, s'.bumps, s'.fin, s'.ws[w])
    ensures LocalsOk(s')
  {
    forall v | 0 <= v < |s'.ws| ensures LocalOk(s'.cfg, s'.bumps, s'.fin, s'.ws[v]) {
      if v != w { assert LocalOk(s.cfg, s.bumps, s.fin, s.ws[v]); }
    }
  }

  lemma LookKeeps(s: State, w: nat, q: nat, lost: bool, exact: bool)
    requires Inv(s, exact) && Enabled(s, Look(w, q, lost))
    ensures Inv(StepLook(s, w, q, lost), exact)
  {
    hide Sum;
    var s' := StepLook(s, w, q, lost);
    assert LocalOk(s.cfg, s.bumps, s.fin, s.ws[w]);
    CountsKept(s, s', w);
    CapKept(s, s', w);
    LocalsKept(s, s', w);
    if exact { WorkKept(s, s', w); }
  }

  lemma LookDoneKeeps(s: State, w: nat, exact: bool)
    requires Inv(s, exact) && Enabled(s, LookDone(w))
    ensures Inv(Apply(s, LookDone(w)), exact)
  {
    hide Sum;
    var s' := Apply(s, LookDone(w));
    assert LocalOk(s.cfg, s.bumps, s.fin, s.ws[w]);
    CountsKept(s, s', w);
    CapKept(s, s', w);
    LocalsKept(s, s', w);
    if exact { WorkKept(s, s', w); }
  }

  lemma NoWorkKeeps(s: State, w: nat, retry: bool, expired: bool, exact: bool)
    requires Inv(s, exact) && w < |s.ws| && s.ws[w].pc == NoWork(retry)
    ensures Inv(StepNoWork(s, w, retry, expired), exact)
  {
    hide Sum;
    var s' := StepNoWork(s, w, retry, expired);
    assert LocalOk(s.cfg, s.bumps, s.fin, s.ws[w]);
    CountsKept(s, s', w);
    if s'.ws[w].pc.Trying? { TrySearchKeepsCap(s, w, retry); } else { CapKept(s, s', w); }
    LocalsKept(s, s', w);
    if exact { WorkKept(s, s', w); }
  }

  lemma TryKeeps(s: State, w: nat, expired: bool, exact: bool)
    requires Inv(s, exact) && w < |s.ws| && (s.ws[w].pc.Trying? || s.ws[w].pc.Reject?)
    ensures Inv(StepWorker(s, w, expired), exact)
  {
    hide Sum, Cap, CapBound;
    var s' := StepWorker(s, w, expired);
    assert LocalOk(s.cfg, s.bumps, s.fin, s.ws[w]);
    CountsKept(s, s', w);
    if s.ws[w].pc.Trying? {
      CapBounded(s.cfg.policy.cap, |s.ws|, Word(s.sleepers), s.ws[w].pc.n);
    }
    CapKept(s, s', w);
    LocalsKept(s, s', w);
    if exact { WorkKept(s, s', w); }
  }

  lemma ParkKeeps(s: State, w: nat, exact: bool)
    requires Inv(s, exact) && w < |s.ws| && s.ws[w].pc == ParkNoWork
    ensures Inv(StepPark(s, w), exact)
  {
    hide Sum;
    var s' := StepPark(s, w);
    assert LocalOk(s.cfg, s.bumps, s.fin, s.ws[w]);
    CountsKept(s, s', w);
    CapKept(s, s', w);
    LocalsKept(s, s', w);
    if exact { WorkKept(s, s', w); }
  }

  lemma WaitKeeps(s: State, w: nat, expired: bool, exact: bool)
    requires Inv(s, exact) && (exact ==> !Deceived(s, Move(w, expired))) && w < |s.ws| && (s.ws[w].pc == Wait1 || s.ws[w].pc == Wait2)
    requires s.ws[w].ticket.Some?
    ensures Inv(StepWorker(s, w, expired), exact)
  {
    hide Sum;
    var s' := StepWorker(s, w, expired);
    assert LocalOk(s.cfg, s.bumps, s.fin, s.ws[w]);
    if exact && s'.ws[w].pc == Blocked { BlocksDeceivedExactly(s, w, expired); }
    CountsKept(s, s', w);
    CapKept(s, s', w);
    LocalsKept(s, s', w);
    if exact { WorkKept(s, s', w); }
  }

  lemma FoundLocal(s: State, w: nat, expired: bool)
    requires w < |s.ws| && LocalOk(s.cfg, s.bumps, s.fin, s.ws[w])
    requires var pc := s.ws[w].pc; pc == Found || pc.FoundPark? || pc == FoundLast || pc == WakeBump || pc == Running
    ensures var s' := StepWorker(s, w, expired);
            |s'.ws| == |s.ws| && LocalOk(s'.cfg, s'.bumps, s'.fin, s'.ws[w])
  {
  }

  lemma FoundKeeps(s: State, w: nat, expired: bool, exact: bool)
    requires Inv(s, exact) && w < |s.ws|
    requires var pc := s.ws[w].pc; pc == Found || pc.FoundPark? || pc == FoundLast || pc == WakeBump || pc == Running
    ensures Inv(StepWorker(s, w, expired), exact)
  {
    hide Sum, RoundsOk;
    var s' := StepWorker(s, w, expired);
    assert LocalOk(s.cfg, s.bumps, s.fin, s.ws[w]);
    FoundLocal(s, w, expired);
    CountsKept(s, s', w);
    CapKept(s, s', w);
    hide CountsOk, CapOk;
    LocalsKept(s, s', w);
    if exact { WorkKept(s, s', w); }
  }

  lemma LoopKeeps(s: State, w: nat, expired: bool, exact: bool)
    requires Inv(s, exact) && w < |s.ws|
    requires var pc := s.ws[w].pc; pc == Top || pc == Snapshot || pc == Woke
    ensures Inv(StepWorker(s, w, expired), exact)
  {
    hide Sum;
    var s' := StepWorker(s, w, expired);
    assert LocalOk(s.cfg, s.bumps, s.fin, s.ws[w]);
    CountsKept(s, s', w);
    CapKept(s, s', w);
    LocalsKept(s, s', w);
    if exact { WorkKept(s, s', w); }
  }

  lemma MoveKeeps(s: State, w: nat, expired: bool, exact: bool)
    requires Inv(s, exact) && (exact ==> !Deceived(s, Move(w, expired))) && Enabled(s, Move(w, expired))
    ensures Inv(StepWorker(s, w, expired), exact)
  {
    hide Inv, Deceived;
    match s.ws[w].pc
    case NoWork(retry) => NoWorkKeeps(s, w, retry, expired, exact);
    case Trying(_, _) => TryKeeps(s, w, expired, exact);
    case Reject(_) => TryKeeps(s, w, expired, exact);
    case ParkNoWork => ParkKeeps(s, w, exact);
    case Wait1 => WaitKeeps(s, w, expired, exact);
    case Wait2 => WaitKeeps(s, w, expired, exact);
    case Top => LoopKeeps(s, w, expired, exact);
    case Snapshot => LoopKeeps(s, w, expired, exact);
    case Woke => LoopKeeps(s, w, expired, exact);
    case _ => FoundKeeps(s, w, expired, exact);
  }

  lemma PublishKeeps(s: State, p: nat, q: nat, exact: bool)
    requires Inv(s, exact) && Enabled(s, Publish(p, q))
    ensures Inv(Apply(s, Publish(p, q)), exact)
  {
    var s' := Apply(s, Publish(p, q));
    assert Pending(s'.ps[p]);
  }

  /** A bump of the epoch makes every ticket stale: either an awake worker will look again, or
      everybody sleeps on a stale epoch. */
  lemma BumpRemembers(s: State, s': State, q: nat)
    requires LocalsOk(s) && s'.ws == s.ws && s'.bumps == s.bumps + 1 && SomeWaker(s')
    ensures Remembered(s', q)
  {
    if w :| 0 <= w < |s.ws| && s.ws[w].pc != Blocked {
      assert LocalOk(s.cfg, s.bumps, s.fin, s.ws[w]);
      assert Watches(s'.ws[w], s'.bumps, q);
    } else {
      forall w | 0 <= w < |s'.ws| ensures s'.ws[w].pc == Blocked && !Fresh(s'.ws[w], s'.bumps) {
        assert LocalOk(s.cfg, s.bumps, s.fin, s.ws[w]);
      }
    }
  }

  /** A producer that decides not to wake anybody has a reason: some worker is searching, or
      nobody is registered, and in both cases someone awake has yet to look. */
  lemma SkippedWakeIsCovered(s: State, q: nat)
    requires CountsOk(s) && LocalsOk(s) && (s.searching != 0 || s.sleepers == 0)
    ensures SomeWatcher(s, q)
  {
    var w: nat;
    if s.searching != 0 {
      w := SomeCounted(s.ws, SearchOf);
    } else {
      w := 0;
      NoneCounted(s.ws, RegOf, 0);
    }
    assert LocalOk(s.cfg, s.bumps, s.fin, s.ws[w]);
    assert Watches(s.ws[w], s.bumps, q);
  }

  lemma NotifyKeepsWork(s: State, p: nat)
    requires Inv(s, true) && Enabled(s, Notify(p))
    ensures WorkOk(StepNotify(s, p))
  {
    hide Sum;
    var s' := StepNotify(s, p);
    forall q | 0 <= q < |s'.queues| && s'.queues[q] > 0 ensures Remembered(s', q) {
      if s'.ps[p] == Quiet {
        SkippedWakeIsCovered(s, q);
        var w :| 0 <= w < |s.ws| && Watches(s.ws[w], s.bumps, q);
        assert Watches(s'.ws[w], s'.bumps, q);
      } else if s'.ps[p] == Waking {
        BumpRemembers(s, s', q);
      } else {
        assert Pending(s'.ps[p]);
      }
    }
  }

  lemma NotifyKeeps(s: State, p: nat, exact: bool)
    requires Inv(s, exact) && Enabled(s, Notify(p))
    ensures Inv(StepNotify(s, p), exact)
  {
    hide Sum;
    var s' := StepNotify(s, p);
    if exact { NotifyKeepsWork(s, p); }
    forall v | 0 <= v < |s'.ws| ensures LocalOk(s'.cfg, s'.bumps, s'.fin, s'.ws[v]) {
      assert LocalOk(s.cfg, s.bumps, s.fin, s.ws[v]);
    }
  }

  /** Waking a waiter puts an awake worker with a ticket that no longer counts in its place. */
  lemma WakeKeeps(s: State, t: Option<nat>, stay: bool, exact: bool)
    requires Inv(s, exact) && Wakable(s, t, stay)
    ensures Inv(Wake(s, t, stay), exact)
  {
    hide Sum;
    var s' := Wake(s, t, stay);
    if t.Some? && !stay {
      var w := t.value;
      assert LocalOk(s.cfg, s.bumps, s.fin, s.ws[w]);
      CountsKept(s, s', w);
      CapKept(s, s', w);
      LocalsKept(s, s', w);
      forall q | exact && 0 <= q < |s'.queues| && s'.queues[q] > 0 ensures Remembered(s', q) {
        assert Watches(s'.ws[w], s'.bumps, q);
      }
    }
  }

  /** If everybody sleeps on a stale epoch, a wake finds a waiter, and it does not stay unless it
      is deceived. */
  lemma StaleIsWoken(s: State, t: Option<nat>, stay: bool)
    requires LocalsOk(s) && Wakable(s, t, stay) && AllStale(s)
    ensures t.Some? && t.value < |s.ws| && (stay ==> Overrun(s, t.value))
  {
    assert s.ws[0].pc == Blocked;
    if t.Some? { StaysDeceivedExactly(s, t.value); }
  }

  lemma ProducerWakesKeeps(s: State, p: nat, t: Option<nat>, stay: bool, exact: bool)
    requires Inv(s, exact) && (exact ==> !Deceived(s, ProducerWakes(p, t, stay))) && Enabled(s, ProducerWakes(p, t, stay))
    ensures Inv(Apply(s, ProducerWakes(p, t, stay)), exact)
  {
    hide Sum, LocalOk;
    WakeKeeps(s, t, stay, exact);
    var s1 := Wake(s, t, stay);
    var s' := Apply(s, ProducerWakes(p, t, stay));
    assert s' == s1.(ps := s1.ps[p := Quiet]);
    if exact && AllStale(s) { StaleIsWoken(s, t, stay); }
    forall q | exact && 0 <= q < |s'.queues| && s'.queues[q] > 0 ensures Remembered(s', q) {
      assert Remembered(s1, q);
      if SomePending(s1) {
        var r :| 0 <= r < |s1.ps| && Pending(s1.ps[r]);
        assert Pending(s'.ps[r]);
      } else if t.Some? && !stay {
        assert Watches(s'.ws[t.value], s'.bumps, q);
      } else if SomeWatcher(s1, q) {
        var w :| 0 <= w < |s1.ws| && Watches(s1.ws[w], s1.bumps, q);
        assert Watches(s'.ws[w], s'.bumps, q);
      }
    }
  }

  lemma WorkerWakesKeeps(s: State, w: nat, t: Option<nat>, stay: bool, exact: bool)
    requires Inv(s, exact) && Enabled(s, WorkerWakes(w, t, stay))
    ensures Inv(Apply(s, WorkerWakes(w, t, stay)), exact)
  {
    hide Sum;
    WakeKeeps(s, t, stay, exact);
    var s1 := Wake(s, t, stay);
    var s' := Apply(s, WorkerWakes(w, t, stay));
    assert LocalOk(s1.cfg, s1.bumps, s1.fin, s1.ws[w]);
    CountsKept(s1, s', w);
    CapKept(s1, s', w);
    LocalsKept(s1, s', w);
    if exact { WorkKept(s1, s', w); }
  }

  lemma {:induction false} SumWoken(ws: seq<Worker>, vs: seq<Worker>, f: Worker -> nat)
    requires |vs| == |ws| && (forall i :: 0 <= i < |ws| ==> f(vs[i]) == f(ws[i]))
    ensures Sum(vs, f) == Sum(ws, f)
  {
    if ws != [] {
      var n := |ws| - 1;
      SumWoken(ws[..n], vs[..n], f);
    }
  }

  lemma WakeAllKeeps(s: State, exact: bool)
    requires Inv(s, exact) && s.fin == EpochBumped
    ensures Inv(StepFinish(s), exact)
  {
    hide Sum;
    var s' := StepFinish(s);
    SumWoken(s.ws, s'.ws, RegOf);
    SumWoken(s.ws, s'.ws, SearchOf);
    if s.cfg.policy.Search? { SumWoken(s.ws, s'.ws, AccOf(CapBound(s.cfg.policy.cap, |s.ws|))); }
    forall v | 0 <= v < |s'.ws| ensures LocalOk(s'.cfg, s'.bumps, s'.fin, s'.ws[v]) {
      assert LocalOk(s.cfg, s.bumps, s.fin, s.ws[v]);
    }
    forall q | exact && 0 <= q < |s'.queues| && s'.queues[q] > 0 ensures Remembered(s', q) {
      assert Remembered(s, q);
      if SomeWatcher(s, q) {
        var w :| 0 <= w < |s.ws| && Watches(s.ws[w], s.bumps, q);
        assert Watches(s'.ws[w], s'.bumps, q);
      } else if SomePending(s) {
        var r :| 0 <= r < |s.ps| && Pending(s.ps[r]);
        assert Pending(s'.ps[r]);
      } else {
        assert Watches(s'.ws[0], s'.bumps, q);
      }
    }
  }

  lemma FinishKeeps(s: State, exact: bool)
    requires Inv(s, exact) && Enabled(s, Finish)
    ensures Inv(StepFinish(s), exact)
  {
    hide Sum;
    var s' := StepFinish(s);
    if s.fin == EpochBumped {
      WakeAllKeeps(s, exact);
    } else {
      forall v | 0 <= v < |s'.ws| ensures LocalOk(s'.cfg, s'.bumps, s'.fin, s'.ws[v]) {
        assert LocalOk(s.cfg, s.bumps, s.fin, s.ws[v]);
      }
      forall q | exact && 0 <= q < |s'.queues| && s'.queues[q] > 0 ensures Remembered(s', q) {
        if s.fin == Flagged { BumpRemembers(s, s', q); } else { FlagRemembers(s, s', q); }
      }
    }
  }

  lemma FlagRemembers(s: State, s': State, q: nat)
    requires Remembered(s, q) && s' == s.(fin := s'.fin) && s.fin != EpochBumped
    ensures Remembered(s', q)
  {
    if SomeWatcher(s, q) {
      var w :| 0 <= w < |s.ws| && Watches(s.ws[w], s.bumps, q);
      assert Watches(s'.ws[w], s'.bumps, q);
    } else if SomePending(s) {
      var r :| 0 <= r < |s.ps| && Pending(s.ps[r]);
      assert Pending(s'.ps[r]);
    } else {
      var r :| 0 <= r < |s.ps| && s.ps[r] == Waking;
      assert s'.ps[r] == Waking;
    }
  }

  lemma StepKeeps(s: State, a: Action, exact: bool)
    requires Inv(s, exact) && (exact ==> !Deceived(s, a)) && Enabled(s, a)
    ensures Inv(Apply(s, a), exact)
  {
    hide Inv, Deceived;
    match a
    case Move(w, expired) => MoveKeeps(s, w, expired, exact);
    case Look(w, q, lost) => LookKeeps(s, w, q, lost, exact);
    case LookDone(w) => LookDoneKeeps(s, w, exact);
    case Publish(p, q) => PublishKeeps(s, p, q, exact);
    case Notify(p) => NotifyKeeps(s, p, exact);
    case ProducerWakes(p, t, stay) => ProducerWakesKeeps(s, p, t, stay, exact);
    case WorkerWakes(w, t, stay) => WorkerWakesKeeps(s, w, t, stay, exact);
    case Returns(t, stay) => WakeKeeps(s, Some(t), stay, exact);
    case Finish => FinishKeeps(s, exact);
  }

  lemma {:induction false} NobodyCounted(ws: seq<Worker>, f: Worker -> nat)
    requires forall w :: 0 <= w < |ws| ==> f(ws[w]) == 0
    ensures Sum(ws, f) == 0
  {
    if ws != [] { NobodyCounted(ws[..|ws| - 1], f); }
  }

  lemma InitKeeps(s: State, exact: bool)
    requires Init(s)
    ensures Inv(s, exact)
  {
    NobodyCounted(s.ws, RegOf);
    NobodyCounted(s.ws, SearchOf);
    if s.cfg.policy.Search? { NobodyCounted(s.ws, AccOf(CapBound(s.cfg.policy.cap, |s.ws|))); }
    forall q | 0 <= q < |s.queues| && s.queues[q] > 0 ensures Remembered(s, q) {
      assert Watches(s.ws[0], s.bumps, q);
    }
  }

  // ---------------------------------------------------------------------------
  // Runs
  // ---------------------------------------------------------------------------

  ghost predicate IsRun(states: seq<State>, acts: seq<Action>) {
    && |states| == |acts| + 1
    && Init(states[0])
    && (forall i :: 0 <= i < |acts| ==> Enabled(states[i], acts[i]) && states[i + 1] == Apply(states[i], acts[i]))
  }

  /** Up to state `n` no comparison puts or leaves a worker asleep on an epoch that has moved on. */
  ghost predicate NeverDeceived(states: seq<State>, acts: seq<Action>, n: nat)
    requires n < |states| == |acts| + 1
  {
    forall i :: 0 <= i < n ==> !Deceived(states[i], acts[i])
  }

  lemma {:induction false} RunKeeps(states: seq<State>, acts: seq<Action>, n: nat, exact: bool)
    requires IsRun(states, acts) && n < |states| && (exact ==> NeverDeceived(states, acts, n))
    ensures Inv(states[n], exact)
  {
    hide Inv, Deceived, Enabled;
    if n == 0 {
      InitKeeps(states[0], exact);
    } else {
      RunKeeps(states, acts, n - 1, exact);
      StepKeeps(states[n - 1], acts[n - 1], exact);
    }
  }

  /** No lost wakeup, for `ParkIdle` and for `SearchIdle` under every cap: if some queue has work
      and no producer is between publishing and the end of `new_work` (and `finish` is not
      between its bump and its wake), then some worker is not blocked, nor gone while the pool is
      not finished, and will look at that queue before it can sleep on the epoch as it is; unless a
      comparison was deceived before. */
  lemma NoLostWakeup(states: seq<State>, acts: seq<Action>, n: nat, q: nat)
    requires IsRun(states, acts) && n < |states| && NeverDeceived(states, acts, n)
    requires var s := states[n];
             && q < |s.queues| && s.queues[q] > 0 && s.fin != EpochBumped
             && (forall p :: 0 <= p < |s.ps| ==> s.ps[p] == Quiet)
    ensures exists w :: 0 <= w < |states[n].ws| && states[n].ws[w].pc != Blocked && Watches(states[n].ws[w], states[n].bumps, q)
                        && (states[n].fin == NotFinished ==> states[n].ws[w].pc != Exited)
  {
    var s := states[n];
    RunKeeps(states, acts, n, true);
    assert Remembered(s, q);
    var w :| 0 <= w < |s.ws| && Watches(s.ws[w], s.bumps, q);
    assert LocalOk(s.cfg, s.bumps, s.fin, s.ws[w]);
  }

  /** `sleepers` counts exactly the registered workers, `searching` exactly the searchers and
      those inside `try_search`; neither goes below zero. */
  lemma CountersAreExact(states: seq<State>, acts: seq<Action>, n: nat)
    requires IsRun(states, acts) && n < |states|
    ensures states[n].sleepers == Sum(states[n].ws, RegOf) >= 0
    ensures states[n].searching == Sum(states[n].ws, SearchOf) >= 0
  {
    RunKeeps(states, acts, n, false);
  }

  /** Every worker that is not blocked can take its next step, or has left a pool that is
      finished. */
  lemma AwakeWorkersMove(states: seq<State>, acts: seq<Action>, n: nat, w: nat)
    requires IsRun(states, acts) && n < |states| && w < |states[n].ws| && states[n].ws[w].pc != Blocked
    ensures (states[n].ws[w].pc == Exited && FinishedFlag(states[n]))
            || exists a: Action ::
                 Enabled(states[n], a) && (a.Move? || a.Look? || a.LookDone? || a.WorkerWakes?) && a.w == w
  {
    var s := states[n];
    RunKeeps(states, acts, n, false);
    assert LocalOk(s.cfg, s.bumps, s.fin, s.ws[w]);
    if s.ws[w].pc.Scan? {
      if q :| 0 <= q < |s.queues| && q !in s.ws[w].pc.done {
        assert Enabled(s, Look(w, q, false));
      } else {
        assert Enabled(s, LookDone(w));
      }
    } else if s.ws[w].pc == WakeCall {
      if t :| 0 <= t < |s.ws| && s.ws[t].pc == Blocked {
        assert Enabled(s, WorkerWakes(w, Some(t), false));
      } else {
        assert Enabled(s, WorkerWakes(w, None, false));
      }
    } else if s.ws[w].pc != Exited {
      assert Enabled(s, Move(w, false));
    }
  }

  lemma {:induction false} HoldersAreAccepted(ws: seq<Worker>, b: nat)
    ensures Sum(ws, HoldOf) <= Sum(ws, AccOf(b))
  {
    if ws != [] { HoldersAreAccepted(ws[..|ws| - 1], b); }
  }

  /** At most the cap's bound of workers hold `search_since` at once: the cap itself for
      `HalfCap` and `FixedCap`, half the workers for `GoCap`. */
  lemma SearchersStayUnderCap(states: seq<State>, acts: seq<Action>, n: nat)
    requires IsRun(states, acts) && n < |states|
    ensures var s := states[n];
            match s.cfg.policy
            case Park => Sum(s.ws, HoldOf) == 0
            case Search(cap) => Sum(s.ws, HoldOf) <= CapBound(cap, |s.ws|)
  {
    RunKeeps(states, acts, n, false);
    var s := states[n];
    match s.cfg.policy
    case Search(cap) => HoldersAreAccepted(s.ws, CapBound(cap, |s.ws|));
    case Park =>
      forall w | 0 <= w < |s.ws| ensures HoldOf(s.ws[w]) == 0 {
        assert LocalOk(s.cfg, s.bumps, s.fin, s.ws[w]);
      }
      NobodyCounted(s.ws, HoldOf);
  }

  lemma {:induction false} FinishStays(states: seq<State>, acts: seq<Action>, i: nat, n: nat)
    requires IsRun(states, acts) && i <= n < |states| && states[i].fin == Finished
    ensures states[n].fin == Finished
  {
    if i < n {
      FinishStays(states, acts, i, n - 1);
      assert Enabled(states[n - 1], acts[n - 1]);
    }
  }

  lemma {:induction false} CfgStays(states: seq<State>, acts: seq<Action>, n: nat)
    requires IsRun(states, acts) && n < |states|
    ensures states[n].cfg == states[0].cfg && |states[n].ws| == |states[0].ws|
  {
    hide Enabled, Init;
    if n > 0 {
      CfgStays(states, acts, n - 1);
      CfgStep(states[n - 1], acts[n - 1]);
      hide Apply;
    }
  }

  lemma CfgStep(s: State, a: Action)
    requires Enabled(s, a)
    ensures Apply(s, a).cfg == s.cfg && |Apply(s, a).ws| == |s.ws|
  {
    hide StepWorker;
    if a.Move? { CfgMove(s, a.w, a.expired); }
  }

  lemma CfgMove(s: State, w: nat, expired: bool)
    requires Enabled(s, Move(w, expired))
    ensures StepWorker(s, w, expired).cfg == s.cfg && |StepWorker(s, w, expired).ws| == |s.ws|
  {
  }

  /** With condition variables, once `PoolCore::finish` has returned no worker is blocked and none
      blocks again. */
  lemma FinishWakesForGood(states: seq<State>, acts: seq<Action>, i: nat, n: nat, w: nat)
    requires IsRun(states, acts) && states[0].cfg.condvar && i <= n < |states| && states[i].fin == Finished
    requires w < |states[n].ws|
    ensures states[n].ws[w].pc != Blocked
  {
    RunKeeps(states, acts, n, false);
    CfgStays(states, acts, n);
    FinishStays(states, acts, i, n);
    assert LocalOk(states[n].cfg, states[n].bumps, states[n].fin, states[n].ws[w]);
  }

  ghost predicate SomeBlocked(s: State) {
    exists w :: 0 <= w < |s.ws| && s.ws[w].pc == Blocked
  }

  /** The kernel's compare-and-queue of an overrun waiter. */
  ghost predicate QueuedOverrun(s: State, a: Action) {
    a.Move? && a.w < |s.ws| && s.ws[a.w].pc == Wait2 && Overrun(s, a.w)
  }

  /** With either kind of wait: after `finish` has returned (state `i`), some worker is blocked
      again exactly if the kernel queued a waiter overrun by a multiple of 2^32 bumps. */
  lemma FinishWakesExactly(states: seq<State>, acts: seq<Action>, i: nat, n: nat)
    requires IsRun(states, acts) && i <= n < |states| && states[i].fin == Finished
    requires i > 0 ==> states[i - 1].fin != Finished
    ensures (exists m :: i <= m <= n && SomeBlocked(states[m]))
            <==> (exists m :: i <= m < n && QueuedOverrun(states[m], acts[m]))
  {
    if m :| i <= m < n && QueuedOverrun(states[m], acts[m]) {
      RunKeeps(states, acts, m, false);
      QueuedBlocks(states[m], acts[m]);
      assert SomeBlocked(states[m + 1]);
    } else {
      forall m | i <= m <= n ensures !SomeBlocked(states[m]) { NobodyBlocks(states, acts, i, m); }
    }
  }

  lemma QueuedBlocks(s: State, a: Action)
    requires LocalsOk(s) && Enabled(s, a) && QueuedOverrun(s, a)
    ensures SomeBlocked(Apply(s, a))
  {
    assert LocalOk(s.cfg, s.bumps, s.fin, s.ws[a.w]);
    SameWordMovedEpoch(s, a.w);
    assert Apply(s, a).ws[a.w].pc == Blocked;
  }

  lemma {:induction false} NobodyBlocks(states: seq<State>, acts: seq<Action>, i: nat, n: nat)
    requires IsRun(states, acts) && i <= n < |states| && states[i].fin == Finished
    requires i > 0 ==> states[i - 1].fin != Finished
    requires forall m :: i <= m < n ==> !QueuedOverrun(states[m], acts[m])
    ensures !SomeBlocked(states[n])
  {
    hide QueuedOverrun, SomeBlocked, Enabled, Inv;
    if n == i {
      assert i > 0 by { InitNotFinished(states[0]); }
      WakeAllEmpties(states[i - 1], acts[i - 1]);
    } else {
      NobodyBlocks(states, acts, i, n - 1);
      RunKeeps(states, acts, n - 1, false);
      FinishStays(states, acts, i, n - 1);
      LateStepBlocksNobody(states[n - 1], acts[n - 1]);
    }
  }

  lemma InitNotFinished(s: State)
    requires Init(s)
    ensures s.fin != Finished
  {
  }

  lemma WakeAllEmpties(s: State, a: Action)
    requires Enabled(s, a) && s.fin != Finished && Apply(s, a).fin == Finished
    ensures !SomeBlocked(Apply(s, a))
  {
  }

  lemma LateStepBlocksNobody(s: State, a: Action)
    requires Inv(s, false) && s.fin == Finished && Enabled(s, a) && !SomeBlocked(s) && !QueuedOverrun(s, a)
    ensures !SomeBlocked(Apply(s, a))
  {
    hide Inv, Apply;
    if a.Move? { LateMoveBlocksNobody(s, a.w, a.expired); } else { LateRestBlocksNobody(s, a); }
  }

  lemma LateMoveBlocksNobody(s: State, w: nat, expired: bool)
    requires Inv(s, false) && s.fin == Finished && Enabled(s, Move(w, expired)) && !SomeBlocked(s)
    requires !QueuedOverrun(s, Move(w, expired))
    ensures !SomeBlocked(Apply(s, Move(w, expired)))
  {
    hide Sum;
    assert LocalOk(s.cfg, s.bumps, s.fin, s.ws[w]);
    if s.ws[w].pc == Wait2 { SameWordMovedEpoch(s, w); }
    var s' := StepWorker(s, w, expired);
    hide Inv;
    forall v | 0 <= v < |s'.ws| ensures s'.ws[v].pc != Blocked {
      assert s.ws[v].pc != Blocked;
    }
  }

  lemma LateRestBlocksNobody(s: State, a: Action)
    requires Enabled(s, a) && !a.Move? && !SomeBlocked(s)
    ensures !SomeBlocked(Apply(s, a))
  {
    var s' := Apply(s, a);
    forall w | 0 <= w < |s'.ws| ensures s'.ws[w].pc != Blocked {
      assert s.ws[w].pc != Blocked;
    }
  }

  // ---------------------------------------------------------------------------
  // The wrap condition is needed
  // ---------------------------------------------------------------------------

  /** `acts` can be taken one after the other from `s` and lead to `t`. */
  ghost predicate Leads(s: State, acts: seq<Action>, t: State)
    decreases |acts|
  {
    if acts == [] then s == t
    else Enabled(s, acts[0]) && Leads(Apply(s, acts[0]), acts[1..], t)
  }

  lemma {:induction false} LeadsOn(s: State, acts: seq<Action>, t: State, more: seq<Action>, u: State)
    requires Leads(s, acts, t) && Leads(t, more, u)
    ensures Leads(s, acts + more, u)
    decreases |acts|
  {
    if acts == [] {
      assert acts + more == more;
    } else {
      LeadsOn(Apply(s, acts[0]), acts[1..], t, more, u);
      assert (acts + more)[1..] == acts[1..] + more;
    }
  }

  lemma {:induction false} LeadsIsRun(s: State, acts: seq<Action>, t: State) returns (states: seq<State>)
    requires Leads(s, acts, t)
    ensures |states| == |acts| + 1 && states[0] == s && states[|acts|] == t
    ensures forall i :: 0 <= i < |acts| ==> Enabled(states[i], acts[i]) && states[i + 1] == Apply(states[i], acts[i])
    decreases |acts|
  {
    if acts == [] {
      states := [s];
    } else {
      var rest := LeadsIsRun(Apply(s, acts[0]), acts[1..], t);
      states := [s] + rest;
      forall i | 0 <= i < |acts|
        ensures Enabled(states[i], acts[i]) && states[i + 1] == Apply(states[i], acts[i])
      {
        if i > 0 { assert acts[i] == acts[1..][i - 1]; }
      }
    }
  }

  /** One `ParkIdle` worker, one producer, one queue: the worker after `r` empty rounds. */
  function Spinning(r: nat): State {
    State(Config(Park, false), [Worker(Top, r, None, false, false)], [Quiet], [0], 0, 0, 0, NotFinished)
  }

  /** The same pool: the worker has registered, searched once more, compared the epoch and is
      about to enter the kernel, while the producer has posted `k` items. */
  function Entering(k: nat): State {
    State(Config(Park, false),
          [Worker(Wait2, SPIN_ROUNDS + YIELD_ROUNDS + 1, Some(Ticket(0, 0)), false, false)],
          [Quiet], [k], 1, 0, k, NotFinished)
  }

  const ROUND: seq<Action> := [Move(0, false), Look(0, 0, false), LookDone(0), Move(0, false), Move(0, false)]

  const POST: seq<Action> := [Publish(0, 0), Notify(0), Notify(0), ProducerWakes(0, None, false)]

  lemma LeadsNowhere(s: State)
    ensures Leads(s, [], s)
  {
  }

  lemma OneStep(s: State, a: Action, t: State)
    requires Enabled(s, a) && Apply(s, a) == t
    ensures Leads(s, [a], t)
  {
    assert Leads(t, [], t);
  }

  lemma EmptySearch(s: State)
    requires |s.ws| == 1 && s.queues == [0] && s.ws[0].pc == Top && s.fin == NotFinished && s.cfg.policy.Park?
    ensures Leads(s, ROUND[..4], Put(s, 0, s.ws[0].(pc := ParkNoWork)))
  {
    hide Leads;
    var s1 := Put(s, 0, s.ws[0].(pc := Scan({}, false)));
    var s2 := Put(s, 0, s.ws[0].(pc := Scan({0}, false)));
    var s3 := Put(s, 0, s.ws[0].(pc := NoWork(false)));
    var s4 := Put(s, 0, s.ws[0].(pc := ParkNoWork));
    var none: set<nat> := {};
    assert none + {0} == {0};
    OneStep(s, ROUND[0], s1);
    OneStep(s1, ROUND[1], s2);
    OneStep(s2, ROUND[2], s3);
    OneStep(s3, ROUND[3], s4);
    LeadsOn(s2, [ROUND[2]], s3, [ROUND[3]], s4);
    LeadsOn(s1, [ROUND[1]], s2, [ROUND[2]] + [ROUND[3]], s4);
    LeadsOn(s, [ROUND[0]], s1, [ROUND[1]] + ([ROUND[2]] + [ROUND[3]]), s4);
    assert ROUND[..4] == [ROUND[0]] + ([ROUND[1]] + ([ROUND[2]] + [ROUND[3]]));
  }

  lemma OneMove(s: State, t: State)
    requires Enabled(s, Move(0, false)) && Apply(s, Move(0, false)) == t
    ensures Leads(s, [Move(0, false)], t)
  {
    assert Leads(t, [], t);
  }

  lemma {:induction false} SpinsUntil(r: nat) returns (acts: seq<Action>)
    requires r <= SPIN_ROUNDS + YIELD_ROUNDS
    ensures Leads(Spinning(0), acts, Spinning(r))
  {
    if r == 0 {
      acts := [];
    } else {
      var before := SpinsUntil(r - 1);
      var s := Spinning(r - 1);
      EmptySearch(s);
      var mid := Put(s, 0, s.ws[0].(pc := ParkNoWork));
      OneMove(mid, Spinning(r));
      LeadsOn(s, ROUND[..4], mid, [Move(0, false)], Spinning(r));
      acts := before + (ROUND[..4] + [Move(0, false)]);
      LeadsOn(Spinning(0), before, s, ROUND[..4] + [Move(0, false)], Spinning(r));
    }
  }

  /** The last round registers, takes the snapshot, searches once more and reaches the kernel. */
  lemma Registers() returns (acts: seq<Action>)
    ensures Leads(Spinning(SPIN_ROUNDS + YIELD_ROUNDS), acts, Entering(0))
  {
    hide Leads;
    var m := Move(0, false);
    var s := Spinning(SPIN_ROUNDS + YIELD_ROUNDS);
    EmptySearch(s);
    var s1 := Put(s, 0, s.ws[0].(pc := ParkNoWork));
    var k := s.ws[0].(rounds := SPIN_ROUNDS + YIELD_ROUNDS + 1);
    var s2 := Put(s, 0, k.(pc := Snapshot)).(sleepers := 1);
    OneMove(s1, s2);
    var t := k.(ticket := Some(Ticket(0, 0)));
    var s3 := Put(s2, 0, t);
    OneMove(s2, s3);
    EmptySearch(s3);
    var s4 := Put(s3, 0, t.(pc := ParkNoWork));
    var s5 := Put(s3, 0, t.(pc := Wait1));
    OneMove(s4, s5);
    OneMove(s5, Entering(0));
    LeadsOn(s4, [m], s5, [m], Entering(0));
    LeadsOn(s3, ROUND[..4], s4, [m] + [m], Entering(0));
    LeadsOn(s2, [m], s3, ROUND[..4] + ([m] + [m]), Entering(0));
    LeadsOn(s1, [m], s2, [m] + (ROUND[..4] + ([m] + [m])), Entering(0));
    acts := ROUND[..4] + ([m] + ([m] + (ROUND[..4] + ([m] + [m]))));
    LeadsOn(s, ROUND[..4], s1, [m] + ([m] + (ROUND[..4] + ([m] + [m]))), Entering(0));
  }

  lemma PostsOne(k: nat)
    ensures Leads(Entering(k), POST, Entering(k + 1))
  {
    var s0, s4 := Entering(k), Entering(k + 1);
    var s1 := s0.(queues := [k + 1], ps := [Published]);
    var s2 := s1.(ps := [Bumping]);
    var s3 := s1.(ps := [Waking], bumps := k + 1);
    assert Apply(s0, POST[0]) == s1 && Apply(s1, POST[1]) == s2 && Apply(s2, POST[2]) == s3;
    assert Enabled(s3, POST[3]) && Apply(s3, POST[3]) == s4;
    assert Leads(s4, [], s4);
    assert Leads(s3, [POST[3]], s4);
    assert Leads(s2, [POST[2], POST[3]], s4) by { assert [POST[2], POST[3]][1..] == [POST[3]]; }
    assert Leads(s1, POST[1..], s4) by { assert POST[1..][1..] == [POST[2], POST[3]]; }
  }

  lemma {:induction false} PostsMany(k: nat) returns (acts: seq<Action>)
    ensures Leads(Entering(0), acts, Entering(k))
  {
    hide Leads;
    if k == 0 {
      acts := [];
      LeadsNowhere(Entering(0));
    } else {
      var before := PostsMany(k - 1);
      PostsOne(k - 1);
      acts := before + POST;
      LeadsOn(Entering(0), before, Entering(k - 1), POST, Entering(k));
    }
  }

  /** The way into the kernel, with `k` posts made before the worker gets there. */
  lemma EntersLate(k: nat) returns (acts: seq<Action>)
    ensures Leads(Spinning(0), acts, Entering(k))
  {
    hide Leads;
    var a := SpinsUntil(SPIN_ROUNDS + YIELD_ROUNDS);
    var b := Registers();
    var c := PostsMany(k);
    LeadsOn(Spinning(SPIN_ROUNDS + YIELD_ROUNDS), b, Entering(0), c, Entering(k));
    LeadsOn(Spinning(0), a, Spinning(SPIN_ROUNDS + YIELD_ROUNDS), b + c, Entering(k));
    acts := a + (b + c);
  }

  /** The wrap is real: with exactly 2^32 wakes between a worker's comparison of the epoch and
      its entry into the kernel, the only worker blocks on a non-empty queue and no producer is
      going to wake it. */
  lemma EpochWrapLosesWakeup() returns (states: seq<State>, acts: seq<Action>)
    ensures IsRun(states, acts) && |acts| > 0 && Deceived(states[|acts| - 1], acts[|acts| - 1])
    ensures var s := states[|acts|];
            && s.queues == [WORD] && s.ps == [Quiet] && s.fin == NotFinished
            && |s.ws| == 1 && s.ws[0].pc == Blocked
  {
    hide Leads;
    var a := EntersLate(WORD);
    var s := Entering(WORD);
    var t := Put(s, 0, s.ws[0].(pc := Blocked));
    OneMove(s, t);
    acts := a + [Move(0, false)];
    states := LeadsLast(Spinning(0), a, s, Move(0, false), t);
  }

  /** So is its effect on `finish`: with 2^32 - 1 wakes before and the bump of `finish` itself, the
      only worker blocks after `finish` has returned. */
  lemma EpochWrapOutlastsFinish() returns (states: seq<State>, acts: seq<Action>)
    ensures IsRun(states, acts) && |acts| > 0 && QueuedOverrun(states[|acts| - 1], acts[|acts| - 1])
    ensures states[|acts| - 1].fin == Finished
    ensures var s := states[|acts|];
            && s.fin == Finished && !s.cfg.condvar && s.ps == [Quiet] && |s.ws| == 1 && s.ws[0].pc == Blocked
  {
    hide Leads;
    var a := EntersLate(WORD - 1);
    var s := Entering(WORD - 1);
    var s1 := s.(fin := Flagged);
    var s2 := s1.(fin := EpochBumped, bumps := WORD);
    var s3 := s2.(fin := Finished);
    OneStep(s, Finish, s1);
    OneStep(s1, Finish, s2);
    assert StepFinish(s2).ws == s2.ws;
    OneStep(s2, Finish, s3);
    LeadsOn(s1, [Finish], s2, [Finish], s3);
    LeadsOn(s, [Finish], s1, [Finish] + [Finish], s3);
    LeadsOn(Spinning(0), a, s, [Finish] + ([Finish] + [Finish]), s3);
    var t := Put(s3, 0, s3.ws[0].(pc := Blocked));
    OneMove(s3, t);
    acts := a + ([Finish] + ([Finish] + [Finish])) + [Move(0, false)];
    states := LeadsLast(Spinning(0), a + ([Finish] + ([Finish] + [Finish])), s3, Move(0, false), t);
  }

  /** A run that ends with action `a` from `s` to `t`. */
  lemma LeadsLast(r: State, acts: seq<Action>, s: State, a: Action, t: State) returns (states: seq<State>)
    requires Leads(r, acts, s) && Enabled(s, a) && Apply(s, a) == t
    ensures |states| == |acts| + 2 && states[0] == r && states[|acts|] == s && states[|acts| + 1] == t
    ensures forall i :: 0 <= i <= |acts| ==>
              Enabled(states[i], (acts + [a])[i]) && states[i + 1] == Apply(states[i], (acts + [a])[i])
  {
    hide Leads;
    var before := LeadsIsRun(r, acts, s);
    states := before + [t];
    forall i | 0 <= i <= |acts|
      ensures Enabled(states[i], (acts + [a])[i]) && states[i + 1] == Apply(states[i], (acts + [a])[i])
    {
      if i < |acts| { assert states[i] == before[i] && states[i + 1] == before[i + 1]; }
    }
  }
}
