/** Polled tasks: the wake word (src/resumable/common/waker.rs), the poll loop with symmetric
    transfer (src/resumable/stackless/worker.rs), awaiting a join handle with its reclaim fast
    path (src/resumable/stackless/thread.rs), and the wake half of `block_on`
    (src/resumable/stackful/waker.rs).

    The state machine has any number of tasks, workers and waking threads.  A worker carries a
    stack of poll loops, because awaiting a child may run the child's poll loop in place.  One
    step is one load, store, swap or compare-and-swap on a wake word or join word, or one queue
    operation; a compare-and-swap may also fail for no visible reason (it is weak, or another
    bit of the word changed). */
module AsyncTasks {
  import opened Basics
  import opened Folds

  // ---------------------------------------------------------------------------
  // State
  // ---------------------------------------------------------------------------

  datatype Wake = IDLE | POLLING | PARKED | NOTIFIED

  /** The join word, as far as it matters to polling: `Foreign` is any waiter that is not a task
      of this system (a boxed waker or a parked sync joiner). */
  datatype Join = Running | FINISHED | DETACHED | AsyncJoiner(joiner: nat) | Foreign

  /** A spawned future, or the poll session of a `block_on` call. */
  datatype Kind = Spawned | BlockOn

  /** `done`, `woken` and `waits` are history: the poll session is over; a wake was issued since
      the last poll began; the children it registered with in the current or last poll, or earlier
      if the entry still stood when that poll began, unless somebody has overwritten the entry. */
  datatype Task = Task(kind: Kind, wake: Wake, join: Join, done: bool, woken: bool, waits: set<nat>)

  /** Where a poll loop stands. */
  datatype Pc =
    | Start                             // owns the task, about to mark it POLLING
    | Polling                           // inside the future's `poll`
    | Reclaim(c: nat)                   // awaiting child `c`: about to pop the local queue
    | PutBack(x: nat, c: nat)           // popped another task `x`, about to push it back
    | Register(c: nat)                  // about to load the child's join word
    | RegisterCas(c: nat, seen: Join)   // about to swap itself in
    | Taking(c: nat)                    // the child is finished: about to take its result
    | Parking                           // `poll` returned Pending: about to load the wake word
    | ParkingCas(cur: Wake)
    | Restore(requeue: bool)            // about to restore `polling_async`
    | Requeue                           // about to push the task
    | Ending                            // `poll` returned Ready: about to store IDLE
    | Settle                            // about to swap FINISHED into the join word
    | Claim(p: nat)                     // found joiner `p`: about to load its wake word
    | ClaimCas(p: nat, cur: Wake)

  /** One active `run_async_poll` (or the frame of a `block_on`): the task it drives and the
      value of `polling_async` it will restore. */
  datatype Frame = Frame(task: nat, prev: Option<nat>, pc: Pc)

  datatype Worker = Worker(frames: seq<Frame>, polling: Option<nat>)

  /** A thread calling `wake` on some task. */
  datatype Waker =
    | Quiet
    | Loaded(t: nat, cur: Wake)
    | Holding(t: nat)               // claimed the parked task, about to push it

  datatype State = State(tasks: seq<Task>, ws: seq<Worker>, ks: seq<Waker>, queue: multiset<nat>)

  ghost predicate Init(s: State) {
    && s.tasks == [] && s.queue == multiset{}
    && (forall w :: 0 <= w < |s.ws| ==> s.ws[w] == Worker([], None))
    && (forall k :: 0 <= k < |s.ks| ==> s.ks[k] == Quiet)
  }

  // ---------------------------------------------------------------------------
  // Steps
  // ---------------------------------------------------------------------------

  datatype Action =
    | Create                                 // spawn from outside any poll: a fresh task is pushed
    | EnterBlockOn(w: nat)                   // the task a worker runs calls `block_on`
    | Dispatch(w: nat, t: nat)               // an idle worker takes a task from some queue
    | UserSpawn(w: nat)                      // what the polled future may do:
    | UserAwait(w: nat, c: nat)
    | UserReturn(w: nat, ready: bool)
    | Pop(w: nat, x: Option<nat>)            // the local pop of the reclaim fast path
    | Move(w: nat, fails: bool)              // the top poll loop's next access
    | WakeBegin(k: nat, t: nat)
    | WakeCas(k: nat, fails: bool)
    | WakePush(k: nat)
    | Overwrite(c: nat, detach: bool)        // someone else's use of a handle: drop, or another waiter

  predicate HasTop(s: State, w: nat) { w < |s.ws| && s.ws[w].frames != [] }

  function TopOf(k: Worker): Frame
    requires k.frames != []
  {
    k.frames[|k.frames| - 1]
  }

  predicate Known(s: State, t: nat) { t < |s.tasks| }

  predicate Enabled(s: State, a: Action) {
    match a
    case Create => true
    case EnterBlockOn(w) => w < |s.ws| && s.ws[w].frames == []
    case Dispatch(w, t) => w < |s.ws| && s.ws[w].frames == [] && t in s.queue
    case UserSpawn(w) => HasTop(s, w) && TopOf(s.ws[w]).pc == Polling
    case UserAwait(w, c) =>
      && HasTop(s, w) && TopOf(s.ws[w]).pc == Polling && Known(s, c)
      && s.tasks[c].kind == Spawned
    case UserReturn(w, _) => HasTop(s, w) && TopOf(s.ws[w]).pc == Polling
    case Pop(w, x) =>
      && HasTop(s, w) && TopOf(s.ws[w]).pc.Reclaim?
      && (x.Some? ==> x.value in s.queue && Known(s, x.value))
    case Move(w, _) =>
      HasTop(s, w) && Known(s, TopOf(s.ws[w]).task) && match TopOf(s.ws[w]).pc {
        case Polling => false
        case Reclaim(_) => false
        case Register(c) => Known(s, c)
        case RegisterCas(c, _) => Known(s, c)
        case Claim(p) => Known(s, p)
        case ClaimCas(p, _) => Known(s, p)
        case _ => true
      }
    case WakeBegin(k, t) => k < |s.ks| && s.ks[k] == Quiet && Known(s, t)
    case WakeCas(k, _) => k < |s.ks| && s.ks[k].Loaded? && Known(s, s.ks[k].t)
    case WakePush(k) => k < |s.ks| && s.ks[k].Holding?
    case Overwrite(c, _) => Known(s, c)
  }

  function SetTask(s: State, t: nat, k: Task): State
    requires Known(s, t)
  {
    s.(tasks := s.tasks[t := k])
  }

  /** Replace the top poll loop of worker `w`. */
  function SetTop(s: State, w: nat, f: Frame): State
    requires HasTop(s, w)
  {
    var k := s.ws[w];
    s.(ws := s.ws[w := k.(frames := k.frames[..|k.frames| - 1] + [f])])
  }

  function SetPc(s: State, w: nat, pc: Pc): State
    requires HasTop(s, w)
  {
    SetTop(s, w, TopOf(s.ws[w]).(pc := pc))
  }

  function PopFrame(s: State, w: nat): State
    requires HasTop(s, w)
  {
    var k := s.ws[w];
    s.(ws := s.ws[w := k.(frames := k.frames[..|k.frames| - 1])])
  }

  function PushLoop(s: State, w: nat, t: nat): State
    requires w < |s.ws|
  {
    var k := s.ws[w];
    s.(ws := s.ws[w := k.(frames := k.frames + [Frame(t, k.polling, Start)])])
  }

  function SetPolling(s: State, w: nat, t: Option<nat>): State
    requires w < |s.ws|
  {
    s.(ws := s.ws[w := s.ws[w].(polling := t)])
  }

  function Fresh(kind: Kind): Task {
    Task(kind, if kind == Spawned then IDLE else POLLING, Running, false, false, {})
  }

  function Apply(s: State, a: Action): State
    requires Enabled(s, a)
  {
    match a
    case Create => s.(tasks := s.tasks + [Fresh(Spawned)], queue := s.queue + multiset{|s.tasks|})
    case EnterBlockOn(w) =>
      s.(tasks := s.tasks + [Fresh(BlockOn)],
         ws := s.ws[w := s.ws[w].(frames := [Frame(|s.tasks|, s.ws[w].polling, Polling)])])
    case Dispatch(w, t) => PushLoop(s.(queue := s.queue - multiset{t}), w, t)
    case UserSpawn(w) => s.(tasks := s.tasks + [Fresh(Spawned)], queue := s.queue + multiset{|s.tasks|})
    case UserAwait(w, c) => SetPc(s, w, Reclaim(c))
    case UserReturn(w, ready) => SetPc(s, w, if ready then Ending else Parking)
    case Pop(w, x) => StepPop(s, w, x)
    case Move(w, fails) => StepMove(s, w, fails)
    case WakeBegin(k, t) => StepLoad(s, k, t)
    case WakeCas(k, fails) => StepWake(s, k, fails)
    case WakePush(k) =>
      s.(queue := s.queue + multiset{s.ks[k].t}, ks := s.ks[k := Quiet])
    case Overwrite(c, detach) => StepOverwrite(s, c, detach)
  }

  /** `try_reclaim_and_run`: only the awaited child itself is run in place. */
  function StepPop(s: State, w: nat, x: Option<nat>): State
    requires HasTop(s, w) && TopOf(s.ws[w]).pc.Reclaim? && (x.Some? ==> Known(s, x.value))
  {
    var c := TopOf(s.ws[w]).pc.c;
    if x.None? then SetPc(s, w, Register(c)) else
    var s1 := s.(queue := s.queue - multiset{x.value});
    if x.value == c && s.tasks[c].kind == Spawned then PushLoop(SetPc(s1, w, Register(c)), w, c)
    else SetPc(s1, w, PutBack(x.value, c))
  }

  /** The effect of `try_wake_state` on the word it has just confirmed, and the mark that a wake
      was issued. */
  function Woken(t: Task): Task { t.(woken := true, wake := Rung(t.wake)) }

  function Rung(w: Wake): Wake {
    match w
    case POLLING => NOTIFIED
    case PARKED => POLLING
    case NOTIFIED => NOTIFIED
    case IDLE => IDLE
  }

  function StepLoad(s: State, k: nat, t: nat): State
    requires k < |s.ks| && Known(s, t)
  {
    var cur := s.tasks[t].wake;
    if cur == NOTIFIED || cur == IDLE then
      SetTask(s, t, Woken(s.tasks[t])).(ks := s.ks[k := Quiet])
    else
      s.(ks := s.ks[k := Loaded(t, cur)])
  }

  function StepWake(s: State, k: nat, fails: bool): State
    requires k < |s.ks| && s.ks[k].Loaded? && Known(s, s.ks[k].t)
  {
    var t, cur := s.ks[k].t, s.ks[k].cur;
    if fails || s.tasks[t].wake != cur then StepLoad(s, k, t)
    else SetTask(s, t, Woken(s.tasks[t])).(ks := s.ks[k := if cur == PARKED then Holding(t) else Quiet])
  }

  /** The joiner registered in a join word that is being replaced waits for that child no more. */
  function Unhook(s: State, c: nat): State
    requires Known(s, c)
  {
    match s.tasks[c].join
    case AsyncJoiner(p) =>
      if Known(s, p) then SetTask(s, p, s.tasks[p].(waits := s.tasks[p].waits - {c})) else s
    case _ => s
  }

  function StepOverwrite(s: State, c: nat, detach: bool): State
    requires Known(s, c)
  {
    if s.tasks[c].join == FINISHED then s else
    var s1 := Unhook(s, c);
    SetTask(s1, c, s1.tasks[c].(join := if detach then DETACHED else Foreign))
  }

  /** `try_register_async_joiner` with `polling_async` as the joiner, once its word is confirmed;
      with no `polling_async`, a boxed waker is registered instead. */
  function StepRegister(s: State, w: nat, c: nat): State
    requires HasTop(s, w) && Known(s, c)
  {
    var me := s.ws[w].polling;
    if me.None? || !Known(s, me.value) then SetPc(StepOverwrite(s, c, false), w, Polling) else
    var s1 := Unhook(s, c);
    var s2 := SetTask(s1, c, s1.tasks[c].(join := AsyncJoiner(me.value)));
    SetPc(SetTask(s2, me.value, s2.tasks[me.value].(waits := s2.tasks[me.value].waits + {c})), w, Polling)
  }

  /** The children a task registered with whose join words still name it. */
  function Standing(s: State, t: nat): set<nat>
    requires Known(s, t)
  {
    set c | c in s.tasks[t].waits && Known(s, c) && s.tasks[c].join == AsyncJoiner(t)
  }

  function StepMove(s: State, w: nat, fails: bool): State
    requires Enabled(s, Move(w, fails))
  {
    var f := TopOf(s.ws[w]);
    var t := s.tasks[f.task];
    match f.pc
    case Start =>
      if t.kind == Spawned then
        SetPolling(SetPc(SetTask(s, f.task, t.(wake := POLLING, woken := false, waits := Standing(s, f.task))), w, Polling),
                   w, Some(f.task))
      else SetPc(SetTask(s, f.task, t.(woken := false)), w, Polling)
    case PutBack(x, c) => SetPc(s.(queue := s.queue + multiset{x}), w, Register(c))
    case Register(c) => SetPc(s, w, if s.tasks[c].join == FINISHED then Taking(c) else RegisterCas(c, s.tasks[c].join))
    case RegisterCas(c, cur) =>
      if fails || s.tasks[c].join != cur then
        SetPc(s, w, if s.tasks[c].join == FINISHED then Taking(c) else RegisterCas(c, s.tasks[c].join))
      else StepRegister(s, w, c)
    case Taking(_) => SetPc(s, w, Polling)
    case Parking => SetPc(s, w, ParkingCas(t.wake))
    case ParkingCas(cur) => if fails || t.wake != cur then SetPc(s, w, ParkingCas(t.wake)) else StepPark(s, w, cur)
    case Restore(requeue) =>
      var s1 := SetPolling(s, w, f.prev);
      if requeue then SetPc(s1, w, Requeue) else PopFrame(s1, w)
    case Requeue => PopFrame(s.(queue := s.queue + multiset{f.task}), w)
    case Ending =>
      var s1 := SetTask(s, f.task, t.(wake := IDLE, done := t.kind == BlockOn));
      if t.kind == Spawned then SetPc(s1, w, Settle) else PopFrame(s1, w)
    case Settle =>
      var s1 := SetTask(s, f.task, t.(join := FINISHED, done := true));
      if t.join.AsyncJoiner? then SetPc(s1, w, Claim(t.join.joiner)) else SetPc(s1, w, Restore(false))
    case Claim(p) => StepClaimLoad(s, w, p)
    case ClaimCas(p, cur) =>
      if fails || s.tasks[p].wake != cur then StepClaimLoad(s, w, p)
      else
        var s1 := SetTask(s, p, Woken(s.tasks[p]));
        if cur == PARKED then SetTop(s1, w, Frame(p, f.prev, Start)) else SetPc(s1, w, Restore(false))
    case Polling => s
    case Reclaim(_) => s
  }

  /** `park_after_poll` and `decide_park` on the word they have just confirmed: park, or, if a
      wake came during the poll, poll again (a spawned task after another trip through the
      queue, a `block_on` at once). */
  function StepPark(s: State, w: nat, cur: Wake): State
    requires HasTop(s, w) && Known(s, TopOf(s.ws[w]).task)
  {
    var f := TopOf(s.ws[w]);
    var t := s.tasks[f.task];
    if cur == NOTIFIED then
      if t.kind == Spawned then SetPc(SetTask(s, f.task, t.(wake := POLLING)), w, Restore(true))
      else SetPc(SetTask(s, f.task, t.(wake := POLLING, woken := false)), w, Polling)
    else SetPc(SetTask(s, f.task, t.(wake := PARKED)), w, Restore(false))
  }

  /** `try_claim_parked` on the joiner, first half. */
  function StepClaimLoad(s: State, w: nat, p: nat): State
    requires HasTop(s, w) && Known(s, p)
  {
    var cur := s.tasks[p].wake;
    if cur == NOTIFIED || cur == IDLE then SetPc(SetTask(s, p, Woken(s.tasks[p])), w, Restore(false))
    else SetPc(s, w, ClaimCas(p, cur))
  }

  // ---------------------------------------------------------------------------
  // Inductive invariant
  // ---------------------------------------------------------------------------

  // (1) Every task has one owner: a queue, a poll loop, a waking thread, or (parked) its own
  // wake word; a finished one has none.

  /** The tasks a poll loop owns. */
  function FrameTokens(f: Frame): multiset<nat> {
    match f.pc
    case PutBack(x, _) => multiset{f.task, x}
    case Restore(requeue) => if requeue then multiset{f.task} else multiset{}
    case Claim(_) => multiset{}
    case ClaimCas(_, _) => multiset{}
    case _ => multiset{f.task}
  }

  function WorkerTokens(k: Worker): multiset<nat> { Bag(k.frames, FrameTokens) }

  function WakerTokens(k: Waker): multiset<nat> {
    if k.Holding? then multiset{k.t} else multiset{}
  }

  function Tokens(s: State): multiset<nat> {
    s.queue + Bag(s.ws, WorkerTokens) + Bag(s.ks, WakerTokens)
  }

  ghost predicate OwnersOk(s: State) {
    && (forall t: nat :: t < |s.tasks| ==> Tokens(s)[t] + One(s.tasks[t].wake == PARKED) == One(!s.tasks[t].done))
    && (forall t: nat :: t >= |s.tasks| ==> t !in Tokens(s))
  }

  // (2) Wake words: what they say while the task is being polled.

  /** Between the start of a poll and the decision to park. */
  predicate InPoll(f: Frame) {
    match f.pc
    case Start => false
    case Restore(_) => false
    case Requeue => false
    case Settle => false
    case Claim(_) => false
    case ClaimCas(_, _) => false
    case _ => true
  }

  /** During a poll the word says NOTIFIED if a wake was issued since the poll began, and for a
      spawned future only then. */
  predicate RungOk(t: Task) {
    && Live(t.wake) && (t.woken ==> t.wake == NOTIFIED)
    && (t.kind == Spawned && t.wake == NOTIFIED ==> t.woken)
  }

  predicate Live(w: Wake) { w == POLLING || w == NOTIFIED }

  predicate TaskOk(t: Task) {
    && (t.done ==> t.wake == IDLE)
    && (t.woken ==> t.wake != PARKED)
    && (t.kind == BlockOn && !t.done ==> t.wake != IDLE)
    && (t.kind == Spawned ==> (t.join == FINISHED <==> t.done))
    && (t.kind == BlockOn ==> t.join != FINISHED && t.waits == {})
  }

  ghost predicate FrameOk(s: State, f: Frame) {
    && Known(s, f.task)
    && var t := s.tasks[f.task];
       && (InPoll(f) ==> RungOk(t))
       && match f.pc {
            case ParkingCas(cur) => Live(cur)
            case Settle => t.kind == Spawned && t.wake == IDLE
            case Claim(p) => t.kind == Spawned && t.done && Known(s, p) && s.tasks[p].kind == Spawned
            case ClaimCas(p, cur) =>
              t.kind == Spawned && t.done && Known(s, p) && s.tasks[p].kind == Spawned && (cur == POLLING || cur == PARKED)
            case Reclaim(c) => Known(s, c) && s.tasks[c].kind == Spawned
            case PutBack(x, c) => Known(s, c) && s.tasks[c].kind == Spawned && Known(s, x)
            case Register(c) => Known(s, c) && s.tasks[c].kind == Spawned
            case RegisterCas(c, cur) => Known(s, c) && s.tasks[c].kind == Spawned && cur != FINISHED
            case Taking(c) => Known(s, c) && s.tasks[c].kind == Spawned && s.tasks[c].join == FINISHED
            case Restore(requeue) => requeue ==> t.kind == Spawned
            case Requeue => t.kind == Spawned
            case _ => true
          }
  }

  // (3) `polling_async` names the task of the innermost poll loop while it polls.

  ghost predicate StackOk(s: State, k: Worker) {
    && (forall i :: 0 <= i < |k.frames| ==> FrameOk(s, k.frames[i]))
    && (forall i :: 0 <= i < |k.frames| - 1 ==> k.frames[i].pc.Register?)
    && (forall i :: 0 < i < |k.frames| ==> PollingOk(s, k.frames[i - 1], k.frames[i].prev))
    && (k.frames == [] ==> k.polling == None)
    && (k.frames != [] ==> k.frames[0].prev == None)
    && (k.frames != [] ==> PollingOk(s, TopOf(k), k.polling))
  }

  ghost predicate PollingOk(s: State, f: Frame, polling: Option<nat>) {
    && Known(s, f.task)
    && (f.pc == Requeue ==> polling == f.prev)
    && (f.pc != Start && f.pc != Requeue && s.tasks[f.task].kind == Spawned ==> polling == Some(f.task))
    && (s.tasks[f.task].kind == BlockOn ==> polling == None && f.prev == None)
  }

  // (4) A registered joiner is woken when the child finishes.

  /** A poll loop that finished child `c` and is about to try a wake of `p`. */
  predicate Settles(f: Frame, c: nat, p: nat) {
    f.task == c && ((f.pc.Claim? && f.pc.p == p) || (f.pc.ClaimCas? && f.pc.p == p))
  }

  ghost predicate Settling(s: State, c: nat, p: nat) {
    exists w, i :: 0 <= w < |s.ws| && 0 <= i < |s.ws[w].frames| && Settles(s.ws[w].frames[i], c, p)
  }

  ghost predicate WaitOk(s: State, p: nat, c: nat)
    requires Known(s, p)
  {
    && Known(s, c)
    && (s.tasks[c].join == AsyncJoiner(p) || s.tasks[p].woken || s.tasks[p].done || Settling(s, c, p))
  }

  ghost predicate JoinsOk(s: State) {
    && (forall p: nat, c: nat :: Known(s, p) && c in s.tasks[p].waits ==> WaitOk(s, p, c))
    && (forall c: nat :: c < |s.tasks| && s.tasks[c].join.AsyncJoiner? ==>
          Known(s, s.tasks[c].join.joiner) && s.tasks[s.tasks[c].join.joiner].kind == Spawned)
  }

  ghost predicate Inv(s: State) {
    && OwnersOk(s)
    && (forall t: nat :: t < |s.tasks| ==> TaskOk(s.tasks[t]))
    && (forall w :: 0 <= w < |s.ws| ==> StackOk(s, s.ws[w]))
    && (forall k :: 0 <= k < |s.ks| && s.ks[k].Loaded? ==>
          Known(s, s.ks[k].t) && (s.ks[k].cur == POLLING || s.ks[k].cur == PARKED))
    && JoinsOk(s)
  }

  // ---------------------------------------------------------------------------
  // Tokens
  // ---------------------------------------------------------------------------

  lemma TopTokens(ws: seq<Worker>, w: nat, k: Worker, f: Frame)
    requires w < |ws| && ws[w].frames != []
    requires k.frames == ws[w].frames[..|ws[w].frames| - 1] + [f]
    ensures Bag(ws[w := k], WorkerTokens) + FrameTokens(TopOf(ws[w])) == Bag(ws, WorkerTokens) + FrameTokens(f)
  {
    hide FrameTokens;
    var below := ws[w].frames[..|ws[w].frames| - 1];
    BagPush(below, f, FrameTokens);
    BagUpdate(ws, w, k, WorkerTokens);
    SplitLast(ws[w].frames);
    var b := Bag(below, FrameTokens);
    assert WorkerTokens(ws[w]) == b + FrameTokens(TopOf(ws[w]));
    assert WorkerTokens(k) == b + FrameTokens(f);
    Cancel(Bag(ws[w := k], WorkerTokens), Bag(ws, WorkerTokens), b, FrameTokens(TopOf(ws[w])), FrameTokens(f));
  }

  lemma SplitLast(fs: seq<Frame>)
    requires fs != []
    ensures Bag(fs, FrameTokens) == Bag(fs[..|fs| - 1], FrameTokens) + FrameTokens(fs[|fs| - 1])
  {
  }

  lemma PopTokens(ws: seq<Worker>, w: nat, k: Worker)
    requires w < |ws| && ws[w].frames != []
    requires k.frames == ws[w].frames[..|ws[w].frames| - 1]
    ensures Bag(ws[w := k], WorkerTokens) + FrameTokens(TopOf(ws[w])) == Bag(ws, WorkerTokens)
  {
    hide FrameTokens;
    BagUpdate(ws, w, k, WorkerTokens);
    SplitLast(ws[w].frames);
    Cancel(Bag(ws[w := k], WorkerTokens), Bag(ws, WorkerTokens), WorkerTokens(k), FrameTokens(TopOf(ws[w])), multiset{});
  }

  lemma PushTokens(ws: seq<Worker>, w: nat, k: Worker, f: Frame)
    requires w < |ws| && k.frames == ws[w].frames + [f]
    ensures Bag(ws[w := k], WorkerTokens) == Bag(ws, WorkerTokens) + FrameTokens(f)
  {
    hide FrameTokens;
    BagUpdate(ws, w, k, WorkerTokens);
    BagPush(ws[w].frames, f, FrameTokens);
    Cancel(Bag(ws[w := k], WorkerTokens), Bag(ws, WorkerTokens), WorkerTokens(ws[w]), multiset{}, FrameTokens(f));
  }

  /** A poll loop owns its tasks: they are neither parked nor done. */
  lemma FrameOwns(s: State, w: nat, i: nat, t: nat)
    requires OwnersOk(s) && w < |s.ws| && i < |s.ws[w].frames| && t in FrameTokens(s.ws[w].frames[i])
    ensures Known(s, t) && s.tasks[t].wake != PARKED && !s.tasks[t].done && Tokens(s)[t] == 1
  {
    hide FrameTokens, Bag;
    BagAt(s.ws[w].frames, i, FrameTokens, t);
    BagAt(s.ws, w, WorkerTokens, t);
    assert t in Tokens(s);
  }

  /** ... and no other poll loop owns them. */
  lemma FramesOwnApart(s: State, w: nat, i: nat, v: nat, j: nat, t: nat)
    requires OwnersOk(s) && w < |s.ws| && i < |s.ws[w].frames| && t in FrameTokens(s.ws[w].frames[i])
    requires v < |s.ws| && j < |s.ws[v].frames| && t in FrameTokens(s.ws[v].frames[j])
    ensures w == v && i == j
  {
    hide FrameTokens, Bag;
    FrameOwns(s, w, i, t);
    BagAt(s.ws[w].frames, i, FrameTokens, t);
    BagAt(s.ws[v].frames, j, FrameTokens, t);
    if w < v { BagPair(s.ws, w, v, WorkerTokens, t); }
    if v < w { BagPair(s.ws, v, w, WorkerTokens, t); }
    if w == v {
      BagAt(s.ws, w, WorkerTokens, t);
      if i < j { BagPair(s.ws[w].frames, i, j, FrameTokens, t); }
      if j < i { BagPair(s.ws[w].frames, j, i, FrameTokens, t); }
    }
  }

  /** The new totals and the new task states fit for every task but `t`; it remains to check `t`. */
  lemma OwnersMove(s: State, s': State, t: nat)
    requires OwnersOk(s) && |s'.tasks| == |s.tasks| && Known(s, t)
    requires forall x: nat :: x != t ==> Tokens(s')[x] == Tokens(s)[x]
    requires forall x: nat :: x < |s.tasks| && x != t ==>
               s'.tasks[x].done == s.tasks[x].done && (s'.tasks[x].wake == PARKED <==> s.tasks[x].wake == PARKED)
    requires Tokens(s')[t] + One(s'.tasks[t].wake == PARKED) == One(!s'.tasks[t].done)
    ensures OwnersOk(s')
  {
    hide Tokens;
    assert forall x: nat :: x >= |s.tasks| ==> Tokens(s')[x] == Tokens(s)[x];
  }

  lemma OwnersSame(s: State, s': State)
    requires OwnersOk(s) && |s'.tasks| == |s.tasks| && Tokens(s') == Tokens(s)
    requires forall x: nat :: x < |s.tasks| ==>
               s'.tasks[x].done == s.tasks[x].done && (s'.tasks[x].wake == PARKED <==> s.tasks[x].wake == PARKED)
    ensures OwnersOk(s')
  {
    hide Tokens;
  }

  // ---------------------------------------------------------------------------
  // Preservation, shared parts
  // ---------------------------------------------------------------------------

  /** What no step takes back. */
  ghost predicate Grows(s: State, s': State) {
    && |s.tasks| <= |s'.tasks| && |s.ws| == |s'.ws|
    && forall t: nat :: t < |s.tasks| ==>
         && s'.tasks[t].kind == s.tasks[t].kind
         && (s.tasks[t].done ==> s'.tasks[t].done)
         && (s.tasks[t].join == FINISHED ==> s'.tasks[t].join == FINISHED)
  }

  /** The step leaves the wake word of the frame's task as the frame needs it. */
  ghost predicate WordKept(s: State, s': State, f: Frame)
    requires Known(s, f.task) && Known(s', f.task)
  {
    var t, t' := s.tasks[f.task], s'.tasks[f.task];
    && (InPoll(f) && RungOk(t) ==> RungOk(t'))
    && (f.pc == Settle && t.wake == IDLE ==> t'.wake == IDLE)
  }

  lemma PollingStays(s: State, s': State, f: Frame, polling: Option<nat>)
    requires PollingOk(s, f, polling) && Grows(s, s')
    ensures PollingOk(s', f, polling)
  {
  }

  /** What the loops below the top one of `k` will restore is still right. */
  lemma PrevsStay(s: State, s': State, k: Worker)
    requires StackOk(s, k) && Grows(s, s')
    ensures forall i :: 0 < i < |k.frames| ==> PollingOk(s', k.frames[i - 1], k.frames[i].prev)
    ensures k.frames != [] ==> PollingOk(s', TopOf(k), k.polling)
  {
    hide FrameOk, PollingOk;
    forall i | 0 < i < |k.frames| ensures PollingOk(s', k.frames[i - 1], k.frames[i].prev) {
      PollingStays(s, s', k.frames[i - 1], k.frames[i].prev);
    }
    if k.frames != [] { PollingStays(s, s', TopOf(k), k.polling); }
  }

  lemma FrameStays(s: State, s': State, f: Frame)
    requires FrameOk(s, f) && Grows(s, s') && WordKept(s, s', f)
    ensures FrameOk(s', f)
  {
  }

  /** The step kept every poll loop except perhaps the top one of worker `w`. */
  ghost predicate OthersOk(s: State, s': State, w: nat) {
    forall v: nat, i: nat ::
      v < |s.ws| && i < |s.ws[v].frames| && !(v == w && i == |s.ws[w].frames| - 1) ==> FrameOk(s', s.ws[v].frames[i])
  }

  ghost predicate WakersOk(s: State) {
    forall k :: 0 <= k < |s.ks| && s.ks[k].Loaded? ==>
      Known(s, s.ks[k].t) && (s.ks[k].cur == POLLING || s.ks[k].cur == PARKED)
  }

  ghost predicate AllTasksOk(s: State) {
    forall t: nat :: t < |s.tasks| ==> TaskOk(s.tasks[t])
  }

  /** All of the invariant after a step that replaced the top poll loop of `w` by `f`. */
  lemma AssembleTop(s: State, s': State, w: nat, f: Frame)
    requires Inv(s) && HasTop(s, w) && Grows(s, s')
    requires var k := s.ws[w];
             s'.ws == s.ws[w := Worker(k.frames[..|k.frames| - 1] + [f], s'.ws[w].polling)] && f.prev == TopOf(k).prev
    requires FrameOk(s', f) && PollingOk(s', f, s'.ws[w].polling)
    requires OthersOk(s, s', w)
    requires OwnersOk(s') && AllTasksOk(s') && WakersOk(s') && JoinsOk(s')
    ensures Inv(s')
  {
    hide OwnersOk, JoinsOk, FrameOk, PollingOk;
    forall v | 0 <= v < |s'.ws| ensures StackOk(s', s'.ws[v]) {
      assert StackOk(s, s.ws[v]);
      var k, k' := s.ws[v], s'.ws[v];
      PrevsStay(s, s', k);
      assert forall i :: 0 <= i < |k'.frames| && !(v == w && i == |k.frames| - 1) ==> k'.frames[i] == k.frames[i];
      assert forall i :: 0 <= i < |k'.frames| ==> k'.frames[i].prev == k.frames[i].prev;
      forall i | 0 <= i < |k'.frames| ensures FrameOk(s', k'.frames[i]) {
        if !(v == w && i == |k.frames| - 1) { assert FrameOk(s', s.ws[v].frames[i]); }
      }
    }
  }

  /** All of the invariant after a step that touched no worker. */
  lemma AssembleRest(s: State, s': State)
    requires Inv(s) && Grows(s, s') && s'.ws == s.ws
    requires forall v: nat, i: nat :: v < |s.ws| && i < |s.ws[v].frames| ==> FrameOk(s', s.ws[v].frames[i])
    requires OwnersOk(s') && AllTasksOk(s') && WakersOk(s') && JoinsOk(s')
    ensures Inv(s')
  {
    hide OwnersOk, JoinsOk, FrameOk, PollingOk;
    forall v | 0 <= v < |s'.ws| ensures StackOk(s', s'.ws[v]) {
      assert StackOk(s, s.ws[v]);
      PrevsStay(s, s', s.ws[v]);
    }
  }

  /** All of the invariant after the top poll loop of `w` was removed. */
  lemma AssemblePop(s: State, s': State, w: nat)
    requires Inv(s) && HasTop(s, w) && Grows(s, s')
    requires s'.ws == s.ws[w := Worker(s.ws[w].frames[..|s.ws[w].frames| - 1], TopOf(s.ws[w]).prev)]
    requires OthersOk(s, s', w)
    requires OwnersOk(s') && AllTasksOk(s') && WakersOk(s') && JoinsOk(s')
    ensures Inv(s')
  {
    hide OwnersOk, JoinsOk, FrameOk, PollingOk;
    forall v | 0 <= v < |s'.ws| ensures StackOk(s', s'.ws[v]) {
      assert StackOk(s, s.ws[v]);
      var k, k' := s.ws[v], s'.ws[v];
      PrevsStay(s, s', k);
      forall i | 0 <= i < |k'.frames| ensures FrameOk(s', k'.frames[i]) {
        assert FrameOk(s', s.ws[v].frames[i]);
      }
    }
  }

  /** Joiners are unaffected by a step that keeps join words and takes no wake back, except of a
      task that begins a new poll and so waits only where it is still registered. */
  lemma JoinsStay(s: State, s': State)
    requires JoinsOk(s) && Grows(s, s')
    requires forall c: nat :: c < |s.tasks| ==> s'.tasks[c].join == s.tasks[c].join
    requires forall c: nat :: |s.tasks| <= c < |s'.tasks| ==> s'.tasks[c].waits == {} && !s'.tasks[c].join.AsyncJoiner?
    requires forall p: nat :: p < |s.tasks| ==>
               || s'.tasks[p].waits <= Standing(s, p)
               || (s'.tasks[p].waits == s.tasks[p].waits && (s.tasks[p].woken ==> s'.tasks[p].woken))
    requires forall p: nat, c: nat :: Known(s, p) && Settling(s, c, p) ==> Settling(s', c, p) || s'.tasks[p].woken
    ensures JoinsOk(s')
  {
    forall p: nat, c: nat | Known(s', p) && c in s'.tasks[p].waits ensures WaitOk(s', p, c) {
      assert WaitOk(s, p, c);
    }
  }

  /** Replacing the top poll loop keeps every settling loop, if the top one goes on settling. */
  lemma SettlingStays(s: State, s': State, w: nat, f: Frame, c: nat, p: nat)
    requires HasTop(s, w) && |s'.ws| == |s.ws|
    requires var k := s.ws[w]; s'.ws == s.ws[w := Worker(k.frames[..|k.frames| - 1] + [f], s'.ws[w].polling)]
    requires Settling(s, c, p) && (Settles(TopOf(s.ws[w]), c, p) ==> Settles(f, c, p))
    ensures Settling(s', c, p)
  {
    var v, i :| 0 <= v < |s.ws| && 0 <= i < |s.ws[v].frames| && Settles(s.ws[v].frames[i], c, p);
    if v == w && i == |s.ws[w].frames| - 1 {
      assert Settles(s'.ws[v].frames[i], c, p);
    } else {
      assert s'.ws[v].frames[i] == s.ws[v].frames[i];
    }
  }

  lemma TopOk(s: State, w: nat)
    requires Inv(s) && HasTop(s, w)
    ensures FrameOk(s, TopOf(s.ws[w])) && PollingOk(s, TopOf(s.ws[w]), s.ws[w].polling)
    ensures forall t: nat :: t in FrameTokens(TopOf(s.ws[w])) ==> Known(s, t) && s.tasks[t].wake != PARKED && !s.tasks[t].done
  {
    hide OwnersOk;
    var k := s.ws[w];
    assert StackOk(s, k);
    forall t: nat | t in FrameTokens(TopOf(k)) ensures Known(s, t) && s.tasks[t].wake != PARKED && !s.tasks[t].done {
      FrameOwns(s, w, |k.frames| - 1, t);
    }
  }

  /** The poll loops a step of `w` on the task its top loop owns did not touch: none of them
      owns that task as well. */
  lemma OthersStay(s: State, s': State, w: nat)
    requires Inv(s) && HasTop(s, w) && Grows(s, s')
    requires forall v: nat, i: nat ::
               v < |s.ws| && i < |s.ws[v].frames| && !(v == w && i == |s.ws[w].frames| - 1)
               && Known(s, s.ws[v].frames[i].task) && Known(s', s.ws[v].frames[i].task)
               ==> WordKept(s, s', s.ws[v].frames[i])
    ensures OthersOk(s, s', w)
  {
    hide OwnersOk, JoinsOk, FrameOk, WordKept;
    forall v: nat, i: nat | v < |s.ws| && i < |s.ws[v].frames| && !(v == w && i == |s.ws[w].frames| - 1)
      ensures FrameOk(s', s.ws[v].frames[i])
    {
      var g := s.ws[v].frames[i];
      assert StackOk(s, s.ws[v]);
      assert FrameOk(s, g);
      KnownFrame(s, g);
      FrameStays(s, s', g);
    }
  }

  lemma KnownFrame(s: State, f: Frame)
    requires FrameOk(s, f)
    ensures Known(s, f.task)
  {
  }

  lemma SameTasks(s: State, s': State, f: Frame, polling: Option<nat>)
    requires s'.tasks == s.tasks
    ensures FrameOk(s', f) == FrameOk(s, f) && PollingOk(s', f, polling) == PollingOk(s, f, polling)
  {
  }

  /** A step that only moves the top loop to another point, owning the same tasks. */
  lemma QuietPc(s: State, w: nat, pc: Pc)
    requires Inv(s) && HasTop(s, w)
    requires var f := TopOf(s.ws[w]);
             var f' := f.(pc := pc);
             && FrameOk(s, f') && PollingOk(s, f', s.ws[w].polling) && FrameTokens(f') == FrameTokens(f)
             && forall c: nat, p: nat :: Settles(f, c, p) ==> Settles(f', c, p)
    ensures Inv(SetPc(s, w, pc))
  {
    hide OwnersOk, JoinsOk, FrameOk, PollingOk, FrameTokens, Bag;
    var s' := SetPc(s, w, pc);
    var f := TopOf(s.ws[w]).(pc := pc);
    TopTokens(s.ws, w, s'.ws[w], f);
    CancelAll(Bag(s'.ws, WorkerTokens), Bag(s.ws, WorkerTokens), FrameTokens(f));
    OwnersSame(s, s');
    forall c: nat, p: nat | Known(s, p) && Settling(s, c, p) ensures Settling(s', c, p) {
      SettlingStays(s, s', w, f, c, p);
    }
    JoinsStay(s, s');
    OthersStay(s, s', w);
    SameTasks(s, s', f, s.ws[w].polling);
    AssembleTop(s, s', w, f);
  }

  lemma UserKeeps(s: State, a: Action)
    requires Inv(s) && Enabled(s, a) && (a.UserAwait? || a.UserReturn?)
    ensures Inv(Apply(s, a))
  {
    hide OwnersOk, JoinsOk, OthersOk;
    TopOk(s, a.w);
    match a
    case UserAwait(w, c) => QuietPc(s, w, Reclaim(c));
    case UserReturn(w, ready) => QuietPc(s, w, if ready then Ending else Parking);
  }

  lemma RegisterKeeps(s: State, w: nat, c: nat)
    requires Inv(s) && HasTop(s, w) && Known(s, c)
    requires TopOf(s.ws[w]).pc == Register(c) || (TopOf(s.ws[w]).pc.RegisterCas? && TopOf(s.ws[w]).pc.c == c)
    ensures Inv(SetPc(s, w, if s.tasks[c].join == FINISHED then Taking(c) else RegisterCas(c, s.tasks[c].join)))
  {
    hide OwnersOk, JoinsOk;
    TopOk(s, w);
    QuietPc(s, w, if s.tasks[c].join == FINISHED then Taking(c) else RegisterCas(c, s.tasks[c].join));
  }

  lemma ParkingLoadKeeps(s: State, w: nat)
    requires Inv(s) && HasTop(s, w) && (TopOf(s.ws[w]).pc == Parking || TopOf(s.ws[w]).pc.ParkingCas?)
    requires Known(s, TopOf(s.ws[w]).task)
    ensures Inv(SetPc(s, w, ParkingCas(s.tasks[TopOf(s.ws[w]).task].wake)))
  {
    hide OwnersOk, JoinsOk;
    TopOk(s, w);
    QuietPc(s, w, ParkingCas(s.tasks[TopOf(s.ws[w]).task].wake));
  }

  lemma TakingKeeps(s: State, w: nat)
    requires Inv(s) && HasTop(s, w) && TopOf(s.ws[w]).pc.Taking?
    ensures Inv(SetPc(s, w, Polling))
  {
    hide OwnersOk, JoinsOk;
    TopOk(s, w);
    QuietPc(s, w, Polling);
  }

  // ---------------------------------------------------------------------------
  // Preservation, steps on the task the top loop owns
  // ---------------------------------------------------------------------------

  /** `s'` is `s` after the top loop of `w` became `f'`, `polling_async` became `polling`, and the
      loop's own task became `t'`. */
  ghost predicate OwnStep(s: State, s': State, w: nat, f': Frame, polling: Option<nat>, t': Task)
    requires HasTop(s, w) && Known(s, TopOf(s.ws[w]).task)
  {
    var k := s.ws[w];
    && s'.tasks == s.tasks[TopOf(k).task := t']
    && s'.ws == s.ws[w := Worker(k.frames[..|k.frames| - 1] + [f'], polling)]
    && s'.ks == s.ks && s'.queue == s.queue
    && f'.task == TopOf(k).task && f'.prev == TopOf(k).prev
  }

  /** No other poll loop minds what happens to the task the top loop of `w` owns. */
  lemma OwnOthers(s: State, s': State, w: nat)
    requires Inv(s) && HasTop(s, w) && Grows(s, s')
    requires var f := TopOf(s.ws[w]);
             && f.task in FrameTokens(f)
             && forall x: nat :: x < |s.tasks| && x != f.task ==> s'.tasks[x] == s.tasks[x]
    ensures OthersOk(s, s', w)
  {
    hide OwnersOk, JoinsOk, FrameOk, Bag, Grows;
    var k := s.ws[w];
    forall v: nat, i: nat | v < |s.ws| && i < |s.ws[v].frames| && !(v == w && i == |k.frames| - 1)
                            && Known(s, s.ws[v].frames[i].task) && Known(s', s.ws[v].frames[i].task)
      ensures WordKept(s, s', s.ws[v].frames[i])
    {
      var g := s.ws[v].frames[i];
      if g.task == TopOf(k).task && g.task in FrameTokens(g) {
        FramesOwnApart(s, w, |k.frames| - 1, v, i, g.task);
      }
    }
    OthersStay(s, s', w);
  }

  /** Tokens after the top loop's own task changed. */
  lemma OwnOwners(s: State, s': State, w: nat, f': Frame, polling: Option<nat>, t': Task)
    requires OwnersOk(s) && HasTop(s, w) && Known(s, TopOf(s.ws[w]).task) && OwnStep(s, s', w, f', polling, t')
    requires var f := TopOf(s.ws[w]);
             && FrameTokens(f) == multiset{f.task}
             && (forall x: nat :: x != f.task ==> x !in FrameTokens(f'))
             && FrameTokens(f')[f.task] + One(t'.wake == PARKED) == One(!t'.done)
    ensures OwnersOk(s')
  {
    hide FrameTokens, Bag;
    var f := TopOf(s.ws[w]);
    FrameOwns(s, w, |s.ws[w].frames| - 1, f.task);
    TopTokens(s.ws, w, s'.ws[w], f');
    var b, b' := Bag(s.ws, WorkerTokens), Bag(s'.ws, WorkerTokens);
    Counts(b', b, FrameTokens(f), FrameTokens(f'));
    OwnersMove(s, s', f.task);
  }

  /** All of the invariant after such a step, if the join words stayed. */
  lemma OwnKeeps(s: State, s': State, w: nat, f': Frame, polling: Option<nat>, t': Task)
    requires Inv(s) && HasTop(s, w) && Known(s, TopOf(s.ws[w]).task) && OwnStep(s, s', w, f', polling, t')
    requires var f := TopOf(s.ws[w]);
             && FrameTokens(f) == multiset{f.task}
             && (forall x: nat :: x != f.task ==> x !in FrameTokens(f'))
             && FrameTokens(f')[f.task] + One(t'.wake == PARKED) == One(!t'.done)
    requires var t := s.tasks[TopOf(s.ws[w]).task];
             t'.kind == t.kind && t'.join == t.join && (t'.waits <= Standing(s, TopOf(s.ws[w]).task) || (t'.waits == t.waits && (t.woken ==> t'.woken)))
    requires TaskOk(t') && FrameOk(s', f') && PollingOk(s', f', polling)
    ensures Inv(s')
  {
    hide JoinsOk, FrameOk, PollingOk, Bag, FrameTokens, TaskOk, OwnersOk;
    var f := TopOf(s.ws[w]);
    TopOk(s, w);
    assert f.task in FrameTokens(f);
    assert Grows(s, s');
    OwnOwners(s, s', w, f', polling, t');
    OwnOthers(s, s', w);
    forall c: nat, p: nat | Known(s, p) && Settling(s, c, p) ensures Settling(s', c, p) {
      NotSettling(f, c, p);
      SettlingStays(s, s', w, f', c, p);
    }
    JoinsStay(s, s');
    AssembleTop(s, s', w, f');
  }

  lemma NotSettling(f: Frame, c: nat, p: nat)
    requires f.task in FrameTokens(f)
    ensures !Settles(f, c, p)
  {
  }

  lemma StartKeeps(s: State, w: nat, fails: bool)
    requires Inv(s) && Enabled(s, Move(w, fails)) && TopOf(s.ws[w]).pc == Start
    ensures Inv(StepMove(s, w, fails))
  {
    hide OwnersOk, JoinsOk, Bag;
    TopOk(s, w);
    var f := TopOf(s.ws[w]);
    var t := s.tasks[f.task];
    assert f.task in FrameTokens(f);
    assert TaskOk(t);
    if t.kind == Spawned {
      OwnKeeps(s, StepMove(s, w, fails), w, f.(pc := Polling), Some(f.task), t.(wake := POLLING, woken := false, waits := Standing(s, f.task)));
    } else {
      OwnKeeps(s, StepMove(s, w, fails), w, f.(pc := Polling), s.ws[w].polling, t.(woken := false));
    }
  }

  lemma ParkKeeps(s: State, w: nat, cur: Wake)
    requires Inv(s) && HasTop(s, w) && TopOf(s.ws[w]).pc == ParkingCas(cur)
    requires Known(s, TopOf(s.ws[w]).task) && s.tasks[TopOf(s.ws[w]).task].wake == cur
    ensures Inv(StepPark(s, w, cur))
  {
    hide OwnersOk, JoinsOk, Bag, StackOk, FrameOk, PollingOk;
    TopOk(s, w);
    var f := TopOf(s.ws[w]);
    var t := s.tasks[f.task];
    assert f.task in FrameTokens(f);
    assert TaskOk(t);
    hide Inv, TaskOk;
    var s' := StepPark(s, w, cur);
    if cur != NOTIFIED {
      ParkFits(s, s', f, s.ws[w].polling, Restore(false), t.(wake := PARKED));
      OwnKeeps(s, s', w, f.(pc := Restore(false)), s.ws[w].polling, t.(wake := PARKED));
    } else if t.kind == Spawned {
      ParkFits(s, s', f, s.ws[w].polling, Restore(true), t.(wake := POLLING));
      OwnKeeps(s, s', w, f.(pc := Restore(true)), s.ws[w].polling, t.(wake := POLLING));
    } else {
      ParkFits(s, s', f, s.ws[w].polling, Polling, t.(wake := POLLING, woken := false));
      NothingWaits(s, f.task);
      OwnKeeps(s, s', w, f.(pc := Polling), s.ws[w].polling, t.(wake := POLLING, woken := false));
    }
  }

  lemma NothingWaits(s: State, t: nat)
    requires Known(s, t) && TaskOk(s.tasks[t]) && s.tasks[t].kind == BlockOn
    ensures s.tasks[t].waits <= Standing(s, t)
  {
  }

  /** What parking leaves behind fits its task. */
  lemma ParkFits(s: State, s': State, f: Frame, polling: Option<nat>, pc: Pc, t': Task)
    requires FrameOk(s, f) && PollingOk(s, f, polling) && f.pc.ParkingCas? && TaskOk(s.tasks[f.task]) && !s.tasks[f.task].done
    requires s'.tasks == s.tasks[f.task := t']
    requires var t := s.tasks[f.task];
             || (pc == Restore(false) && t.wake != NOTIFIED && t' == t.(wake := PARKED))
             || (pc == Restore(true) && t.kind == Spawned && t' == t.(wake := POLLING))
             || (pc == Polling && t.kind == BlockOn && t' == t.(wake := POLLING, woken := false))
    ensures TaskOk(t') && FrameOk(s', f.(pc := pc)) && PollingOk(s', f.(pc := pc), polling)
  {
  }

  lemma EndingSpawnedKeeps(s: State, w: nat, fails: bool)
    requires Inv(s) && Enabled(s, Move(w, fails)) && TopOf(s.ws[w]).pc == Ending
    requires s.tasks[TopOf(s.ws[w]).task].kind == Spawned
    ensures Inv(StepMove(s, w, fails))
  {
    hide OwnersOk, JoinsOk, Bag;
    TopOk(s, w);
    var f := TopOf(s.ws[w]);
    var t := s.tasks[f.task];
    assert f.task in FrameTokens(f);
    assert TaskOk(t);
    OwnKeeps(s, StepMove(s, w, fails), w, f.(pc := Settle), s.ws[w].polling, t.(wake := IDLE));
  }

  /** The join word the exiting task swaps out is never FINISHED: there is no double exit. */
  lemma SettleFindsUnfinished(s: State, w: nat)
    requires Inv(s) && HasTop(s, w) && TopOf(s.ws[w]).pc == Settle
    ensures Known(s, TopOf(s.ws[w]).task) && s.tasks[TopOf(s.ws[w]).task].join != FINISHED
  {
    hide OwnersOk, JoinsOk, StackOk;
    TopOk(s, w);
    var f := TopOf(s.ws[w]);
    assert f.task in FrameTokens(f);
    assert TaskOk(s.tasks[f.task]);
  }

  lemma SettleKeeps(s: State, w: nat, fails: bool)
    requires Inv(s) && Enabled(s, Move(w, fails)) && TopOf(s.ws[w]).pc == Settle
    ensures Inv(StepMove(s, w, fails))
  {
    hide OwnersOk, JoinsOk, Bag, Settling, StackOk, TaskOk, FrameOk, PollingOk;
    var s' := StepMove(s, w, fails);
    SettleFindsUnfinished(s, w);
    TopOk(s, w);
    var f := TopOf(s.ws[w]);
    var t := s.tasks[f.task];
    var f' := TopOf(s'.ws[w]);
    var t' := t.(join := FINISHED, done := true);
    assert f' == f.(pc := if t.join.AsyncJoiner? then Claim(t.join.joiner) else Restore(false));
    assert OwnStep(s, s', w, f', s.ws[w].polling, t');
    SettleTasks(s, s', f, t');
    hide StepMove;
    SettleJoins(s, s', w, f', t');
    SettleFrame(s, s', f, f', s.ws[w].polling);
    OwnOwners(s, s', w, f', s.ws[w].polling, t');
    OwnOthers(s, s', w);
    AssembleTop(s, s', w, f');
  }

  lemma SettleTasks(s: State, s': State, f: Frame, t': Task)
    requires Inv(s) && Known(s, f.task) && FrameOk(s, f) && f.pc == Settle
    requires t' == s.tasks[f.task].(join := FINISHED, done := true)
    requires s'.tasks == s.tasks[f.task := t'] && |s'.ws| == |s.ws| && s'.ks == s.ks
    ensures Grows(s, s') && AllTasksOk(s') && WakersOk(s')
  {
    hide OwnersOk, JoinsOk, StackOk;
    forall x: nat | x < |s'.tasks| ensures TaskOk(s'.tasks[x]) { assert TaskOk(s.tasks[x]); }
  }

  lemma SettleFrame(s: State, s': State, f: Frame, f': Frame, polling: Option<nat>)
    requires JoinsOk(s) && Grows(s, s') && FrameOk(s, f) && PollingOk(s, f, polling) && f.pc == Settle && Known(s', f.task)
    requires var t := s.tasks[f.task];
             && s'.tasks[f.task] == t.(join := FINISHED, done := true)
             && f' == f.(pc := if t.join.AsyncJoiner? then Claim(t.join.joiner) else Restore(false))
    ensures FrameOk(s', f') && PollingOk(s', f', polling)
  {
  }

  /** Whoever was registered is now the business of the settling loop. */
  lemma SettleJoins(s: State, s': State, w: nat, f': Frame, t': Task)
    requires Inv(s) && HasTop(s, w) && TopOf(s.ws[w]).pc == Settle && Known(s, TopOf(s.ws[w]).task)
    requires OwnStep(s, s', w, f', s.ws[w].polling, t')
    requires var t := s.tasks[TopOf(s.ws[w]).task];
             && t' == t.(join := FINISHED, done := true)
             && f'.pc == (if t.join.AsyncJoiner? then Claim(t.join.joiner) else Restore(false))
    ensures JoinsOk(s')
  {
    hide OwnersOk, StackOk, TaskOk;
    var c0 := TopOf(s.ws[w]).task;
    forall p: nat, c: nat | Known(s', p) && c in s'.tasks[p].waits ensures WaitOk(s', p, c) {
      assert WaitOk(s, p, c);
      if Settling(s, c, p) { SettlingStays(s, s', w, f', c, p); }
      if c == c0 && s.tasks[c].join == AsyncJoiner(p) {
        assert s'.ws[w].frames[|s.ws[w].frames| - 1] == f' && Settles(f', c, p);
      }
    }
  }

  // ---------------------------------------------------------------------------
  // Preservation, leaving a poll loop and queueing
  // ---------------------------------------------------------------------------

  /** A step that changes neither tasks nor wakers. */
  ghost predicate TasksSame(s: State, s': State) {
    s'.tasks == s.tasks && s'.ks == s.ks && |s'.ws| == |s.ws|
  }

  lemma SameTasksOthers(s: State, s': State, w: nat)
    requires Inv(s) && HasTop(s, w) && TasksSame(s, s')
    ensures OthersOk(s, s', w) && Grows(s, s') && AllTasksOk(s') && WakersOk(s')
  {
    hide OwnersOk, JoinsOk;
    OthersStay(s, s', w);
  }

  /** The queue and the top loop of `w` exchanged tokens. */
  lemma QueueOwners(s: State, s': State)
    requires OwnersOk(s) && TasksSame(s, s')
    requires s'.queue + Bag(s'.ws, WorkerTokens) == s.queue + Bag(s.ws, WorkerTokens)
    ensures OwnersOk(s')
  {
    hide Bag;
    assert Tokens(s') == Tokens(s);
  }

  lemma LeaveKeeps(s: State, s': State, w: nat, queue: multiset<nat>)
    requires Inv(s) && HasTop(s, w) && TasksSame(s, s') && s'.queue == queue
    requires TopOf(s.ws[w]).pc == Restore(false) || TopOf(s.ws[w]).pc == Requeue
    requires s'.ws == s.ws[w := Worker(s.ws[w].frames[..|s.ws[w].frames| - 1], TopOf(s.ws[w]).prev)]
    requires queue == s.queue + FrameTokens(TopOf(s.ws[w]))
    ensures Inv(s')
  {
    hide OwnersOk, JoinsOk, Bag, FrameTokens, FrameOk, TaskOk, StackOk;
    var f := TopOf(s.ws[w]);
    PopTokens(s.ws, w, s'.ws[w]);
    assert s'.queue + Bag(s'.ws, WorkerTokens) == s.queue + (Bag(s'.ws, WorkerTokens) + FrameTokens(f));
    QueueOwners(s, s');
    forall c: nat, p: nat | Known(s, p) && Settling(s, c, p) ensures Settling(s', c, p) {
      SettlingPops(s, s', w, c, p);
    }
    SameTasksOthers(s, s', w);
    JoinsStay(s, s');
    AssemblePop(s, s', w);
  }

  lemma SettlingPops(s: State, s': State, w: nat, c: nat, p: nat)
    requires HasTop(s, w) && |s'.ws| == |s.ws|
    requires s'.ws == s.ws[w := Worker(s.ws[w].frames[..|s.ws[w].frames| - 1], TopOf(s.ws[w]).prev)]
    requires Settling(s, c, p) && !Settles(TopOf(s.ws[w]), c, p)
    ensures Settling(s', c, p)
  {
    var v, i :| 0 <= v < |s.ws| && 0 <= i < |s.ws[v].frames| && Settles(s.ws[v].frames[i], c, p);
    assert s'.ws[v].frames[i] == s.ws[v].frames[i];
  }

  lemma RestoreKeeps(s: State, w: nat, fails: bool)
    requires Inv(s) && Enabled(s, Move(w, fails)) && TopOf(s.ws[w]).pc.Restore?
    ensures Inv(StepMove(s, w, fails))
  {
    hide OwnersOk, JoinsOk, Bag, Settling;
    var f := TopOf(s.ws[w]);
    var s' := StepMove(s, w, fails);
    if f.pc.requeue {
      TopOk(s, w);
      SwapTop(s, s', w, f.(pc := Requeue), f.prev);
    } else {
      LeaveKeeps(s, s', w, s.queue);
    }
  }

  lemma RequeueKeeps(s: State, w: nat, fails: bool)
    requires Inv(s) && Enabled(s, Move(w, fails)) && TopOf(s.ws[w]).pc == Requeue
    ensures Inv(StepMove(s, w, fails))
  {
    hide OwnersOk, JoinsOk, Bag, Settling, FrameOk;
    TopOk(s, w);
    var s' := StepMove(s, w, fails);
    assert s.ws[w].polling == TopOf(s.ws[w]).prev;
    LeaveKeeps(s, s', w, s'.queue);
  }

  /** The top loop became `f'` and the queue took or gave the difference. */
  lemma SwapTop(s: State, s': State, w: nat, f': Frame, polling: Option<nat>)
    requires Inv(s) && HasTop(s, w) && TasksSame(s, s')
    requires var k := s.ws[w]; s'.ws == s.ws[w := Worker(k.frames[..|k.frames| - 1] + [f'], polling)]
    requires var f := TopOf(s.ws[w]);
             && f'.task == f.task && f'.prev == f.prev
             && s'.queue + FrameTokens(f') == s.queue + FrameTokens(f)
             && (forall c: nat, p: nat :: !Settles(f, c, p))
    requires FrameOk(s, f') && PollingOk(s, f', polling)
    ensures Inv(s')
  {
    hide OwnersOk, JoinsOk, FrameOk, PollingOk, FrameTokens, Bag, StackOk, Settles, TaskOk;
    TopTokens(s.ws, w, s'.ws[w], f');
    var f := TopOf(s.ws[w]);
    Exchange(s'.queue, s.queue, Bag(s'.ws, WorkerTokens), Bag(s.ws, WorkerTokens), FrameTokens(f), FrameTokens(f'));
    QueueOwners(s, s');
    forall c: nat, p: nat | Known(s, p) && Settling(s, c, p) ensures Settling(s', c, p) {
      SettlingStays(s, s', w, f', c, p);
    }
    SameTasksOthers(s, s', w);
    JoinsStay(s, s');
    SameTasks(s, s', f', polling);
    AssembleTop(s, s', w, f');
  }

  lemma Exchange(q': multiset<nat>, q: multiset<nat>, b': multiset<nat>, b: multiset<nat>, p: multiset<nat>, p': multiset<nat>)
    requires q' + p' == q + p && b' + p == b + p'
    ensures q' + b' == q + b
  {
    forall t: nat ensures (q' + b')[t] == (q + b)[t] {
      assert (q' + p')[t] == (q + p)[t] && (b' + p)[t] == (b + p')[t];
    }
  }

  lemma PutBackKeeps(s: State, w: nat, fails: bool)
    requires Inv(s) && Enabled(s, Move(w, fails)) && TopOf(s.ws[w]).pc.PutBack?
    ensures Inv(StepMove(s, w, fails))
  {
    hide OwnersOk, JoinsOk, Bag, Settling;
    TopOk(s, w);
    var f := TopOf(s.ws[w]);
    SwapTop(s, StepMove(s, w, fails), w, f.(pc := Register(f.pc.c)), s.ws[w].polling);
  }

  // ---------------------------------------------------------------------------
  // Preservation, starting poll loops and tasks
  // ---------------------------------------------------------------------------

  lemma SettlingPushes(s: State, s': State, w: nat, f: Frame, c: nat, p: nat)
    requires w < |s.ws| && s'.ws == s.ws[w := s.ws[w].(frames := s.ws[w].frames + [f])]
    requires Settling(s, c, p)
    ensures Settling(s', c, p)
  {
    var v, i :| 0 <= v < |s.ws| && 0 <= i < |s.ws[v].frames| && Settles(s.ws[v].frames[i], c, p);
    assert s'.ws[v].frames[i] == s.ws[v].frames[i];
  }

  /** A worker with nothing on its stack, or one that is awaiting, starts a poll loop. */
  lemma PushKeeps(s: State, w: nat, t: nat)
    requires Inv(s) && w < |s.ws| && t in s.queue
    requires s.ws[w].frames == [] || (TopOf(s.ws[w]).pc.Register? && Known(s, t) && s.tasks[t].kind == Spawned)
    ensures Inv(PushLoop(s.(queue := s.queue - multiset{t}), w, t))
  {
    hide OwnersOk, JoinsOk, Bag, TaskOk, Settles;
    var s' := PushLoop(s.(queue := s.queue - multiset{t}), w, t);
    var f := Frame(t, s.ws[w].polling, Start);
    QueuedKnown(s, t);
    PushTokens(s.ws, w, s'.ws[w], f);
    PushCount(s, s', w, t);
    forall c: nat, p: nat | Known(s, p) && Settling(s, c, p) ensures Settling(s', c, p) {
      SettlingPushes(s, s', w, f, c, p);
    }
    JoinsStay(s, s');
    PushStacks(s, s', w, f);
  }

  lemma QueuedKnown(s: State, t: nat)
    requires OwnersOk(s) && t in s.queue
    ensures Known(s, t) && s.tasks[t].wake != PARKED && !s.tasks[t].done && Tokens(s)[t] == 1
  {
    hide Bag;
    assert t in Tokens(s);
  }

  lemma PushCount(s: State, s': State, w: nat, t: nat)
    requires OwnersOk(s) && TasksSame(s, s') && t in s.queue && s'.queue == s.queue - multiset{t}
    requires Bag(s'.ws, WorkerTokens) == Bag(s.ws, WorkerTokens) + multiset{t}
    ensures OwnersOk(s')
  {
    hide Bag, OwnersOk;
    assert s'.queue + multiset{t} == s.queue;
    QueueOwners(s, s');
  }

  lemma SameTasksStack(s: State, s': State, k: Worker)
    requires s'.tasks == s.tasks && StackOk(s, k)
    ensures StackOk(s', k)
  {
    hide FrameOk, PollingOk;
    forall i | 0 <= i < |k.frames| ensures FrameOk(s', k.frames[i]) {
      SameTasks(s, s', k.frames[i], k.polling);
    }
    forall i | 0 < i < |k.frames| ensures PollingOk(s', k.frames[i - 1], k.frames[i].prev) {
      SameTasks(s, s', k.frames[i - 1], k.frames[i].prev);
    }
    if k.frames != [] { SameTasks(s, s', TopOf(k), k.polling); }
  }

  lemma PushStacks(s: State, s': State, w: nat, f: Frame)
    requires Inv(s) && w < |s.ws| && (s.ws[w].frames == [] || TopOf(s.ws[w]).pc.Register?)
    requires TasksSame(s, s') && s'.ws == s.ws[w := s.ws[w].(frames := s.ws[w].frames + [f])]
    requires f.pc == Start && Known(s, f.task) && f.prev == s.ws[w].polling
    requires OwnersOk(s') && JoinsOk(s')
    requires s.tasks[f.task].kind == BlockOn ==> s.ws[w].frames == []
    ensures Inv(s')
  {
    hide OwnersOk, JoinsOk, StackOk;
    forall v | 0 <= v < |s'.ws| ensures StackOk(s', s'.ws[v]) {
      SameTasksStack(s, s', s.ws[v]);
      if v == w { PushedStack(s', s.ws[w], f); }
    }
  }

  lemma PushedStack(s: State, k: Worker, f: Frame)
    requires StackOk(s, k) && (k.frames == [] || TopOf(k).pc.Register?)
    requires f.pc == Start && Known(s, f.task) && f.prev == k.polling
    requires s.tasks[f.task].kind == BlockOn ==> k.frames == []
    ensures StackOk(s, k.(frames := k.frames + [f]))
  {
    var k' := k.(frames := k.frames + [f]);
    assert forall i :: 0 <= i < |k.frames| ==> k'.frames[i] == k.frames[i];
    if k.frames != [] {
      assert FrameOk(s, TopOf(k)) && PollingOk(s, TopOf(k), k.polling);
    }
  }

  lemma PopKeeps(s: State, w: nat, x: Option<nat>)
    requires Inv(s) && Enabled(s, Pop(w, x))
    ensures Inv(Apply(s, Pop(w, x)))
  {
    hide Inv;
    if x.None? {
      PopNothing(s, w);
    } else if x.value == TopOf(s.ws[w]).pc.c {
      PopChild(s, w);
    } else {
      PopOther(s, w, x.value);
    }
  }

  lemma PopNothing(s: State, w: nat)
    requires Inv(s) && HasTop(s, w) && TopOf(s.ws[w]).pc.Reclaim?
    ensures Inv(SetPc(s, w, Register(TopOf(s.ws[w]).pc.c)))
  {
    hide OwnersOk, JoinsOk, Bag, StackOk, TaskOk, Settling;
    TopOk(s, w);
    QuietPc(s, w, Register(TopOf(s.ws[w]).pc.c));
  }

  /** The awaited child was still queued here: the await runs its poll loop in place. */
  lemma PopChild(s: State, w: nat)
    requires Inv(s) && HasTop(s, w) && TopOf(s.ws[w]).pc.Reclaim? && TopOf(s.ws[w]).pc.c in s.queue
    requires Known(s, TopOf(s.ws[w]).pc.c)
    ensures Inv(StepPop(s, w, Some(TopOf(s.ws[w]).pc.c)))
  {
    hide OwnersOk, JoinsOk, Bag, StackOk, TaskOk, Settling, PollingOk;
    TopOk(s, w);
    var c := TopOf(s.ws[w]).pc.c;
    var s1 := SetPc(s, w, Register(c));
    PopNothing(s, w);
    PushKeeps(s1, w, c);
    assert StepPop(s, w, Some(c)) == PushLoop(s1.(queue := s1.queue - multiset{c}), w, c);
  }

  lemma PopOther(s: State, w: nat, x: nat)
    requires Inv(s) && HasTop(s, w) && TopOf(s.ws[w]).pc.Reclaim? && x in s.queue && Known(s, x) && x != TopOf(s.ws[w]).pc.c
    ensures Inv(StepPop(s, w, Some(x)))
  {
    hide OwnersOk, JoinsOk, Bag, StackOk, TaskOk, Settling;
    TopOk(s, w);
    var f := TopOf(s.ws[w]);
    SwapTop(s, StepPop(s, w, Some(x)), w, f.(pc := PutBack(x, f.pc.c)), s.ws[w].polling);
  }

  /** The poll loops that a step which touched no worker did not disturb. */
  lemma AllStay(s: State, s': State)
    requires Inv(s) && Grows(s, s')
    requires forall v: nat, i: nat ::
               v < |s.ws| && i < |s.ws[v].frames| && Known(s, s.ws[v].frames[i].task) && Known(s', s.ws[v].frames[i].task)
               ==> WordKept(s, s', s.ws[v].frames[i])
    ensures forall v: nat, i: nat :: v < |s.ws| && i < |s.ws[v].frames| ==> FrameOk(s', s.ws[v].frames[i])
  {
    hide OwnersOk, JoinsOk, FrameOk, WordKept;
    forall v: nat, i: nat | v < |s.ws| && i < |s.ws[v].frames| ensures FrameOk(s', s.ws[v].frames[i]) {
      var g := s.ws[v].frames[i];
      assert StackOk(s, s.ws[v]);
      assert FrameOk(s, g);
      KnownFrame(s, g);
      FrameStays(s, s', g);
    }
  }

  /** A fresh task starts out in the queue, or in the hands of its creator. */
  lemma FreshOwners(s: State, s': State, t: Task)
    requires OwnersOk(s) && s'.tasks == s.tasks + [t] && !t.done && t.wake != PARKED
    requires Tokens(s') == Tokens(s) + multiset{|s.tasks|}
    ensures OwnersOk(s')
  {
    hide Tokens;
    assert |s.tasks| !in Tokens(s);
  }

  lemma FreshGrows(s: State, s': State, kind: Kind)
    requires Inv(s) && s'.tasks == s.tasks + [Fresh(kind)] && |s'.ws| == |s.ws| && s'.ks == s.ks
    ensures Grows(s, s') && AllTasksOk(s') && WakersOk(s')
    ensures forall v: nat, i: nat :: v < |s.ws| && i < |s.ws[v].frames| ==> FrameOk(s', s.ws[v].frames[i])
  {
    hide OwnersOk, JoinsOk, StackOk;
    AllStay(s, s');
  }

  lemma CreateKeeps(s: State)
    requires Inv(s)
    ensures Inv(s.(tasks := s.tasks + [Fresh(Spawned)], queue := s.queue + multiset{|s.tasks|}))
  {
    hide OwnersOk, JoinsOk, Bag, FrameOk, StackOk, TaskOk;
    var s' := s.(tasks := s.tasks + [Fresh(Spawned)], queue := s.queue + multiset{|s.tasks|});
    assert Tokens(s') == Tokens(s) + multiset{|s.tasks|};
    FreshOwners(s, s', Fresh(Spawned));
    FreshGrows(s, s', Spawned);
    assert forall c: nat, p: nat :: Settling(s, c, p) ==> Settling(s', c, p);
    JoinsStay(s, s');
    AssembleRest(s, s');
  }

  lemma EnterKeeps(s: State, w: nat)
    requires Inv(s) && Enabled(s, EnterBlockOn(w))
    ensures Inv(Apply(s, EnterBlockOn(w)))
  {
    hide OwnersOk, JoinsOk, Bag, FrameOk, TaskOk, StackOk, FrameTokens;
    var s' := Apply(s, EnterBlockOn(w));
    var f := Frame(|s.tasks|, s.ws[w].polling, Polling);
    assert s'.ws[w].frames == s.ws[w].frames + [f];
    PushTokens(s.ws, w, s'.ws[w], f);
    EnterTokens(s, s', f);
    FreshOwners(s, s', Fresh(BlockOn));
    FreshGrows(s, s', BlockOn);
    forall c: nat, p: nat | Known(s, p) && Settling(s, c, p) ensures Settling(s', c, p) {
      SettlingPushes(s, s', w, f, c, p);
    }
    JoinsStay(s, s');
    EnterStacks(s, s', w);
  }

  lemma EnterTokens(s: State, s': State, f: Frame)
    requires s'.queue == s.queue && s'.ks == s.ks && f.pc == Polling
    requires Bag(s'.ws, WorkerTokens) == Bag(s.ws, WorkerTokens) + FrameTokens(f)
    ensures Tokens(s') == Tokens(s) + multiset{f.task}
  {
    hide Bag;
  }

  lemma EnterStacks(s: State, s': State, w: nat)
    requires Inv(s) && Enabled(s, EnterBlockOn(w)) && s' == Apply(s, EnterBlockOn(w))
    requires Grows(s, s') && AllTasksOk(s') && WakersOk(s') && OwnersOk(s') && JoinsOk(s')
    requires forall v: nat, i: nat :: v < |s.ws| && i < |s.ws[v].frames| ==> FrameOk(s', s.ws[v].frames[i])
    ensures Inv(s')
  {
    hide OwnersOk, JoinsOk, FrameOk;
    forall v | 0 <= v < |s'.ws| ensures StackOk(s', s'.ws[v]) {
      var k := s.ws[v];
      assert StackOk(s, k);
      if v == w {
        EnterFrame(s', s'.ws[w].frames[0]);
      } else {
        if k.frames != [] { assert PollingOk(s, TopOf(k), k.polling); }
      }
    }
  }

  lemma EnterFrame(s: State, f: Frame)
    requires Known(s, f.task) && s.tasks[f.task] == Fresh(BlockOn) && f.pc == Polling
    ensures FrameOk(s, f)
  {
  }

  /** A `block_on` whose future is ready leaves; a late wake finds IDLE. */
  lemma EndingBlockOnKeeps(s: State, w: nat, fails: bool)
    requires Inv(s) && Enabled(s, Move(w, fails)) && TopOf(s.ws[w]).pc == Ending
    requires s.tasks[TopOf(s.ws[w]).task].kind == BlockOn
    ensures Inv(StepMove(s, w, fails))
  {
    hide OwnersOk, JoinsOk, Bag, FrameTokens, StackOk;
    TopOk(s, w);
    var f := TopOf(s.ws[w]);
    var t := s.tasks[f.task];
    var t' := t.(wake := IDLE, done := true);
    assert TaskOk(t);
    var s' := StepMove(s, w, fails);
    EndingTokens(f);
    PopTokens(s.ws, w, s'.ws[w]);
    FrameOwns(s, w, |s.ws[w].frames| - 1, f.task);
    EndOwners(s, s', w);
    assert Grows(s, s');
    OwnOthers(s, s', w);
    forall c: nat, p: nat | Known(s, p) && Settling(s, c, p) ensures Settling(s', c, p) {
      NotSettling(f, c, p);
      SettlingPops(s, s', w, c, p);
    }
    JoinsStay(s, s');
    AssemblePop(s, s', w);
  }

  lemma EndingTokens(f: Frame)
    requires f.pc == Ending
    ensures FrameTokens(f) == multiset{f.task}
  {
  }

  lemma EndOwners(s: State, s': State, w: nat)
    requires OwnersOk(s) && HasTop(s, w) && Known(s, TopOf(s.ws[w]).task) && FrameTokens(TopOf(s.ws[w])) == multiset{TopOf(s.ws[w]).task}
    requires var t := TopOf(s.ws[w]).task;
             && s'.tasks == s.tasks[t := s.tasks[t].(wake := IDLE, done := true)] && s'.ks == s.ks && s'.queue == s.queue
             && Tokens(s)[t] == 1
    requires Bag(s'.ws, WorkerTokens) + FrameTokens(TopOf(s.ws[w])) == Bag(s.ws, WorkerTokens)
    ensures OwnersOk(s')
  {
    hide Bag, FrameTokens;
    var t := TopOf(s.ws[w]).task;
    Counts(Bag(s'.ws, WorkerTokens), Bag(s.ws, WorkerTokens), FrameTokens(TopOf(s.ws[w])), multiset{});
    OwnersMove(s, s', t);
  }

  // ---------------------------------------------------------------------------
  // Preservation, join words
  // ---------------------------------------------------------------------------

  /** What replacing the join word of `c` by `j` does to the tasks (`s'.tasks`). */
  ghost predicate Rejoined(s: State, s': State, c: nat, j: Join) {
    && Known(s, c) && |s'.tasks| == |s.tasks| && s.tasks[c].join != FINISHED && j != FINISHED
    && s'.tasks[c].join == j
    && (forall t: nat :: t < |s.tasks| ==>
          && (t != c ==> s'.tasks[t].join == s.tasks[t].join)
          && s'.tasks[t].(join := s.tasks[t].join, waits := s.tasks[t].waits) == s.tasks[t])
    && (forall p: nat, x: nat :: Known(s, p) && x in s'.tasks[p].waits && x != c ==> x in s.tasks[p].waits)
    && (forall p: nat :: Known(s, p) && c in s'.tasks[p].waits ==>
          j == AsyncJoiner(p) || (c in s.tasks[p].waits && s.tasks[c].join != AsyncJoiner(p)))
    && (forall p: nat :: Known(s, p) && s.tasks[p].kind == BlockOn && s.tasks[p].waits == {} ==> s'.tasks[p].waits == {})
  }

  lemma RejoinedOk(s: State, s': State, c: nat, j: Join)
    requires Inv(s) && Rejoined(s, s', c, j) && |s'.ws| == |s.ws|
    requires forall x: nat, p: nat :: Settling(s, x, p) ==> Settling(s', x, p)
    requires j.AsyncJoiner? ==> Known(s, j.joiner) && s.tasks[j.joiner].kind == Spawned
    ensures Grows(s, s') && AllTasksOk(s') && JoinsOk(s')
  {
    hide OwnersOk, StackOk, Settling;
    forall t: nat | t < |s'.tasks| ensures TaskOk(s'.tasks[t]) {
      assert TaskOk(s.tasks[t]);
    }
    forall p: nat, x: nat | Known(s', p) && x in s'.tasks[p].waits ensures WaitOk(s', p, x) {
      if x != c || x in s.tasks[p].waits { assert WaitOk(s, p, x); }
    }
  }

  lemma Unhooks(s: State, c: nat)
    requires Known(s, c)
    ensures var s1 := Unhook(s, c);
            && s1 == s.(tasks := s1.tasks) && |s1.tasks| == |s.tasks|
            && (forall t: nat :: t < |s.tasks| ==>
                  && s1.tasks[t] == s.tasks[t].(waits := s1.tasks[t].waits)
                  && s1.tasks[t].waits <= s.tasks[t].waits
                  && (c in s1.tasks[t].waits ==> s.tasks[c].join != AsyncJoiner(t)))
  {
  }

  lemma UnhookRejoins(s: State, s': State, c: nat, detach: bool)
    requires Known(s, c) && s.tasks[c].join != FINISHED && s' == StepOverwrite(s, c, detach)
    ensures Rejoined(s, s', c, if detach then DETACHED else Foreign)
    ensures s'.ws == s.ws && s'.ks == s.ks && s'.queue == s.queue
  {
    hide Unhook;
    Unhooks(s, c);
  }

  lemma OverwriteKeeps(s: State, c: nat, detach: bool)
    requires Inv(s) && Known(s, c)
    ensures Inv(StepOverwrite(s, c, detach))
  {
    hide OwnersOk, JoinsOk, StackOk, FrameOk, TaskOk, Bag, Rejoined, StepOverwrite;
    var s' := StepOverwrite(s, c, detach);
    if s.tasks[c].join == FINISHED {
      OverwriteNothing(s, c, detach);
    } else {
      UnhookRejoins(s, s', c, detach);
      assert forall x: nat, p: nat :: Settling(s, x, p) ==> Settling(s', x, p);
      RejoinedOk(s, s', c, if detach then DETACHED else Foreign);
      RejoinedWords(s, s', c, if detach then DETACHED else Foreign);
      assert Tokens(s') == Tokens(s);
      OwnersSame(s, s');
      AllStay(s, s');
      AssembleRest(s, s');
    }
  }

  lemma OverwriteNothing(s: State, c: nat, detach: bool)
    requires Known(s, c) && s.tasks[c].join == FINISHED
    ensures StepOverwrite(s, c, detach) == s
  {
  }

  lemma RejoinedWords(s: State, s': State, c: nat, j: Join)
    requires Rejoined(s, s', c, j)
    ensures |s'.tasks| == |s.tasks|
    ensures forall t: nat :: t < |s.tasks| ==>
              s'.tasks[t].wake == s.tasks[t].wake && s'.tasks[t].woken == s.tasks[t].woken
              && s'.tasks[t].done == s.tasks[t].done && s'.tasks[t].kind == s.tasks[t].kind
  {
    forall t: nat | t < |s.tasks|
      ensures s'.tasks[t].wake == s.tasks[t].wake && s'.tasks[t].woken == s.tasks[t].woken
              && s'.tasks[t].done == s.tasks[t].done && s'.tasks[t].kind == s.tasks[t].kind
    {
      assert s'.tasks[t].(join := s.tasks[t].join, waits := s.tasks[t].waits) == s.tasks[t];
    }
  }

  lemma RegisterRejoins(s: State, s': State, w: nat, c: nat, me: nat)
    requires HasTop(s, w) && Known(s, c) && s.tasks[c].join != FINISHED && s' == StepRegister(s, w, c)
    requires s.ws[w].polling == Some(me) && Known(s, me) && s.tasks[me].kind == Spawned
    ensures Rejoined(s, s', c, AsyncJoiner(me)) && s'.ks == s.ks && s'.queue == s.queue
    ensures s'.ws == SetPc(s, w, Polling).ws
  {
    hide Unhook;
    Unhooks(s, c);
    var s1 := Unhook(s, c);
    var s2 := SetTask(s1, c, s1.tasks[c].(join := AsyncJoiner(me)));
    assert s'.tasks == s2.tasks[me := s2.tasks[me].(waits := s2.tasks[me].waits + {c})];
  }

  lemma RegisterBoxed(s: State, s': State, w: nat, c: nat)
    requires HasTop(s, w) && Known(s, c) && s.tasks[c].join != FINISHED && s' == StepRegister(s, w, c)
    requires s.ws[w].polling == None
    ensures Rejoined(s, s', c, Foreign) && s'.ks == s.ks && s'.queue == s.queue
    ensures s'.ws == SetPc(s, w, Polling).ws
  {
    hide StepOverwrite, Rejoined;
    var s1 := StepOverwrite(s, c, false);
    UnhookRejoins(s, s1, c, false);
    RejoinedTasks(s, s1, s', c, Foreign);
  }

  lemma RejoinedTasks(s: State, s1: State, s': State, c: nat, j: Join)
    requires Rejoined(s, s1, c, j) && s'.tasks == s1.tasks
    ensures Rejoined(s, s', c, j)
  {
  }

  /** `polling_async` is the very task whose poll is awaiting, so it is the joiner registered; a
      `block_on` that awaits has none and registers a boxed waker. */
  lemma RegisterCasKeeps(s: State, w: nat, c: nat)
    requires Inv(s) && HasTop(s, w) && Known(s, c) && TopOf(s.ws[w]).pc == RegisterCas(c, s.tasks[c].join)
    ensures Inv(StepRegister(s, w, c))
  {
    hide OwnersOk, JoinsOk, StackOk, FrameTokens, TaskOk, Bag, Rejoined, StepRegister, SetPc;
    TopOk(s, w);
    var s' := StepRegister(s, w, c);
    var f := TopOf(s.ws[w]);
    var f' := f.(pc := Polling);
    var j := if s.tasks[f.task].kind == Spawned then AsyncJoiner(f.task) else Foreign;
    if s.tasks[f.task].kind == Spawned {
      RegisterRejoins(s, s', w, c, f.task);
    } else {
      RegisterBoxed(s, s', w, c);
    }
    RejoinedWords(s, s', c, j);
    RegisterMoves(s, s', w, f, f');
    RejoinedOk(s, s', c, j);
    RegisterAssembles(s, s', w, f, f');
  }

  lemma RegisterMoves(s: State, s': State, w: nat, f: Frame, f': Frame)
    requires OwnersOk(s) && HasTop(s, w) && s'.ws == SetPc(s, w, Polling).ws && s'.ks == s.ks && s'.queue == s.queue
    requires f == TopOf(s.ws[w]) && f.pc.RegisterCas? && f' == f.(pc := Polling) && |s'.tasks| == |s.tasks|
    requires forall t: nat :: t < |s.tasks| ==> s'.tasks[t].wake == s.tasks[t].wake && s'.tasks[t].done == s.tasks[t].done
    ensures OwnersOk(s') && |s'.ws| == |s.ws|
    ensures forall x: nat, p: nat :: Settling(s, x, p) ==> Settling(s', x, p)
  {
    hide Bag, OwnersOk, Settling;
    TopTokens(s.ws, w, s'.ws[w], f');
    CancelAll(Bag(s'.ws, WorkerTokens), Bag(s.ws, WorkerTokens), FrameTokens(f));
    OwnersSame(s, s');
    forall x: nat, p: nat | Settling(s, x, p) ensures Settling(s', x, p) {
      SettlingStays(s, s', w, f', x, p);
    }
  }

  lemma RegisterAssembles(s: State, s': State, w: nat, f: Frame, f': Frame)
    requires Inv(s) && HasTop(s, w) && s'.ws == SetPc(s, w, Polling).ws && s'.ks == s.ks && |s'.tasks| == |s.tasks|
    requires f == TopOf(s.ws[w]) && f.pc.RegisterCas? && f' == f.(pc := Polling)
    requires forall t: nat :: t < |s.tasks| ==>
               s'.tasks[t].wake == s.tasks[t].wake && s'.tasks[t].woken == s.tasks[t].woken && s'.tasks[t].kind == s.tasks[t].kind
    requires Grows(s, s') && OwnersOk(s') && AllTasksOk(s') && JoinsOk(s')
    ensures Inv(s')
  {
    hide OwnersOk, JoinsOk, TaskOk, StackOk;
    TopOk(s, w);
    OthersStay(s, s', w);
    AssembleTop(s, s', w, f');
  }

  // ---------------------------------------------------------------------------
  // Preservation, waking
  // ---------------------------------------------------------------------------

  /** Whoever wakes `p`, no poll loop needs to know. */
  lemma WokenFits(s: State, s': State, p: nat)
    requires Inv(s) && Known(s, p) && s'.tasks == s.tasks[p := Woken(s.tasks[p])] && |s'.ws| == |s.ws|
    ensures Grows(s, s') && AllTasksOk(s')
    ensures forall f: Frame :: Known(s, f.task) && Known(s', f.task) ==> WordKept(s, s', f)
  {
    hide OwnersOk, JoinsOk, StackOk;
    assert TaskOk(s.tasks[p]);
    WokenTask(s.tasks[p]);
    forall t: nat | t < |s'.tasks| ensures TaskOk(s'.tasks[t]) {
      assert TaskOk(s.tasks[t]);
    }
  }

  lemma WokenTask(t: Task)
    requires TaskOk(t)
    ensures TaskOk(Woken(t)) && Woken(t) == t.(wake := Woken(t).wake, woken := true)
  {
  }

  /** A finished child's loop woke the joiner `p` without taking it over. */
  lemma ClaimMissKeeps(s: State, w: nat, p: nat)
    requires Inv(s) && HasTop(s, w) && Known(s, p) && s.tasks[p].wake != PARKED
    requires var pc := TopOf(s.ws[w]).pc; pc == Claim(p) || (pc.ClaimCas? && pc.p == p)
    ensures Inv(SetPc(SetTask(s, p, Woken(s.tasks[p])), w, Restore(false)))
  {
    hide OwnersOk, JoinsOk, FrameOk, PollingOk, TaskOk, StackOk, Bag, Woken, WordKept;
    var s' := SetPc(SetTask(s, p, Woken(s.tasks[p])), w, Restore(false));
    var f := TopOf(s.ws[w]);
    var f' := f.(pc := Restore(false));
    TopOk(s, w);
    WokenFits(s, s', p);
    TopTokens(s.ws, w, s'.ws[w], f');
    CancelAll(Bag(s'.ws, WorkerTokens), Bag(s.ws, WorkerTokens), FrameTokens(f));
    WokenKeepsParked(s.tasks[p]);
    OwnersSame(s, s');
    ClaimJoins(s, s', w, p, f');
    OthersStay(s, s', w);
    ClaimMissFrame(s, s', f, s.ws[w].polling);
    AssembleTop(s, s', w, f');
  }

  lemma WokenKeepsParked(t: Task)
    requires t.wake != PARKED
    ensures Woken(t).wake != PARKED && Woken(t).done == t.done && Woken(t).woken
  {
  }

  lemma ClaimMissFrame(s: State, s': State, f: Frame, polling: Option<nat>)
    requires FrameOk(s, f) && PollingOk(s, f, polling) && Grows(s, s') && (f.pc.Claim? || f.pc.ClaimCas?)
    ensures FrameOk(s', f.(pc := Restore(false))) && PollingOk(s', f.(pc := Restore(false)), polling)
  {
  }

  /** The settling loop's only business was `p`, which is woken now. */
  lemma ClaimJoins(s: State, s': State, w: nat, p: nat, f': Frame)
    requires Inv(s) && HasTop(s, w) && Known(s, p) && |s'.ws| == |s.ws| && Grows(s, s')
    requires s'.tasks == s.tasks[p := Woken(s.tasks[p])]
    requires var k := s.ws[w]; s'.ws == s.ws[w := Worker(k.frames[..|k.frames| - 1] + [f'], s'.ws[w].polling)]
    requires var pc := TopOf(s.ws[w]).pc; pc == Claim(p) || (pc.ClaimCas? && pc.p == p)
    ensures JoinsOk(s')
  {
    hide OwnersOk, JoinsOk, StackOk, TaskOk, Settling;
    forall c: nat, x: nat | Known(s, x) && Settling(s, c, x) ensures Settling(s', c, x) || s'.tasks[x].woken {
      if x != p { SettlingStays(s, s', w, f', c, x); }
    }
    JoinsStay(s, s');
  }

  lemma ClaimLoadKeeps(s: State, w: nat, p: nat)
    requires Inv(s) && HasTop(s, w) && Known(s, p)
    requires var pc := TopOf(s.ws[w]).pc; pc == Claim(p) || (pc.ClaimCas? && pc.p == p)
    ensures Inv(StepClaimLoad(s, w, p))
  {
    hide OwnersOk, JoinsOk, StackOk, TaskOk, Bag, Woken;
    var cur := s.tasks[p].wake;
    if cur == NOTIFIED || cur == IDLE {
      ClaimMissKeeps(s, w, p);
    } else {
      TopOk(s, w);
      QuietPc(s, w, ClaimCas(p, cur));
    }
  }

  /** Symmetric transfer: the loop that found the joiner parked goes on with it. */
  lemma TransferKeeps(s: State, w: nat, p: nat)
    requires Inv(s) && HasTop(s, w) && Known(s, p) && TopOf(s.ws[w]).pc == ClaimCas(p, PARKED) && s.tasks[p].wake == PARKED
    ensures Inv(SetTop(SetTask(s, p, Woken(s.tasks[p])), w, Frame(p, TopOf(s.ws[w]).prev, Start)))
  {
    hide OwnersOk, JoinsOk, FrameOk, PollingOk, TaskOk, StackOk, Bag, Woken, WordKept;
    var f := TopOf(s.ws[w]);
    var f' := Frame(p, f.prev, Start);
    var s' := SetTop(SetTask(s, p, Woken(s.tasks[p])), w, f');
    TopOk(s, w);
    WokenFits(s, s', p);
    TransferOwners(s, s', w, p);
    ClaimJoins(s, s', w, p, f');
    OthersStay(s, s', w);
    TransferFrame(s, s', f, s.ws[w].polling);
    AssembleTop(s, s', w, f');
  }

  lemma TransferOwners(s: State, s': State, w: nat, p: nat)
    requires OwnersOk(s) && HasTop(s, w) && Known(s, p) && TopOf(s.ws[w]).pc == ClaimCas(p, PARKED) && s.tasks[p].wake == PARKED
    requires s' == SetTop(SetTask(s, p, Woken(s.tasks[p])), w, Frame(p, TopOf(s.ws[w]).prev, Start))
    ensures OwnersOk(s')
  {
    hide Bag;
    var f' := Frame(p, TopOf(s.ws[w]).prev, Start);
    TopTokens(s.ws, w, s'.ws[w], f');
    Counts(Bag(s'.ws, WorkerTokens), Bag(s.ws, WorkerTokens), multiset{}, multiset{p});
    OwnersMove(s, s', p);
  }

  /** The task that symmetric transfer goes on with is a spawned future (it has a poll function). */
  lemma TransferFrame(s: State, s': State, f: Frame, polling: Option<nat>)
    requires FrameOk(s, f) && PollingOk(s, f, polling) && Grows(s, s') && f.pc.ClaimCas?
    ensures FrameOk(s', Frame(f.pc.p, f.prev, Start)) && PollingOk(s', Frame(f.pc.p, f.prev, Start), polling)
  {
  }

  /** `s'` is `s` after waking thread `k` moved on and woke `t`, if at all. */
  lemma WakerKeeps(s: State, s': State, k: nat, t: nat)
    requires Inv(s) && k < |s.ks| && Known(s, t)
    requires s'.ws == s.ws && |s'.ks| == |s.ks| && OwnersOk(s')
    requires s'.tasks == s.tasks || s'.tasks == s.tasks[t := Woken(s.tasks[t])]
    requires WakersOk(s')
    ensures Inv(s')
  {
    hide OwnersOk, JoinsOk, FrameOk, TaskOk, StackOk, Woken, WordKept;
    if s'.tasks == s.tasks {
      assert Grows(s, s') && AllTasksOk(s');
      forall f: Frame | Known(s, f.task) && Known(s', f.task) ensures WordKept(s, s', f) { SameWord(s, s', f); }
    } else {
      WokenFits(s, s', t);
      WokenTask(s.tasks[t]) by { assert TaskOk(s.tasks[t]); }
    }
    AllStay(s, s');
    assert forall c: nat, p: nat :: Settling(s, c, p) ==> Settling(s', c, p);
    JoinsStay(s, s');
    AssembleRest(s, s');
  }

  lemma SameWord(s: State, s': State, f: Frame)
    requires s'.tasks == s.tasks && Known(s, f.task)
    ensures WordKept(s, s', f)
  {
  }

  lemma WakeLoadKeeps(s: State, k: nat, t: nat)
    requires Inv(s) && k < |s.ks| && Known(s, t) && !s.ks[k].Holding?
    ensures Inv(StepLoad(s, k, t))
  {
    hide OwnersOk, JoinsOk, StackOk, TaskOk, Bag;
    var s' := StepLoad(s, k, t);
    BagUpdate(s.ks, k, s'.ks[k], WakerTokens);
    CancelAll(Bag(s'.ks, WakerTokens), Bag(s.ks, WakerTokens), WakerTokens(s.ks[k]));
    OwnersSame(s, s');
    WakerKeeps(s, s', k, t);
  }

  lemma WakeCasKeeps(s: State, k: nat, fails: bool)
    requires Inv(s) && Enabled(s, WakeCas(k, fails))
    ensures Inv(StepWake(s, k, fails))
  {
    hide OwnersOk, JoinsOk, StackOk, TaskOk, Bag;
    var t, cur := s.ks[k].t, s.ks[k].cur;
    if fails || s.tasks[t].wake != cur {
      WakeLoadKeeps(s, k, t);
    } else {
      var s' := StepWake(s, k, fails);
      BagUpdate(s.ks, k, s'.ks[k], WakerTokens);
      WakeCasOwners(s, s', k, t);
      WakerKeeps(s, s', k, t);
    }
  }

  lemma WakeCasOwners(s: State, s': State, k: nat, t: nat)
    requires OwnersOk(s) && k < |s.ks| && Known(s, t) && s.ks[k] == Loaded(t, s.tasks[t].wake)
    requires s'.ws == s.ws && s'.queue == s.queue && s'.tasks == s.tasks[t := Woken(s.tasks[t])]
    requires s'.ks == s.ks[k := if s.tasks[t].wake == PARKED then Holding(t) else Quiet]
    requires Bag(s'.ks, WakerTokens) + WakerTokens(s.ks[k]) == Bag(s.ks, WakerTokens) + WakerTokens(s'.ks[k])
    ensures OwnersOk(s')
  {
    hide Bag;
    Counts(Bag(s'.ks, WakerTokens), Bag(s.ks, WakerTokens), WakerTokens(s.ks[k]), WakerTokens(s'.ks[k]));
    OwnersMove(s, s', t);
  }

  lemma WakePushKeeps(s: State, k: nat)
    requires Inv(s) && Enabled(s, WakePush(k))
    ensures Inv(Apply(s, WakePush(k)))
  {
    hide OwnersOk, JoinsOk, StackOk, TaskOk, Bag;
    var s' := Apply(s, WakePush(k));
    var t := s.ks[k].t;
    BagUpdate(s.ks, k, s'.ks[k], WakerTokens);
    assert Tokens(s') == Tokens(s) by {
      Counts(Bag(s'.ks, WakerTokens), Bag(s.ks, WakerTokens), multiset{t}, multiset{});
    }
    OwnersSame(s, s');
    HeldKnown(s, k);
    WakerKeeps(s, s', k, t);
  }

  lemma HeldKnown(s: State, k: nat)
    requires OwnersOk(s) && k < |s.ks| && s.ks[k].Holding?
    ensures Known(s, s.ks[k].t) && Tokens(s)[s.ks[k].t] == 1
  {
    hide Bag;
    BagAt(s.ks, k, WakerTokens, s.ks[k].t);
    assert s.ks[k].t in Tokens(s);
  }

  // ---------------------------------------------------------------------------
  // Every run
  // ---------------------------------------------------------------------------

  lemma MoveKeeps(s: State, w: nat, fails: bool)
    requires Inv(s) && Enabled(s, Move(w, fails))
    ensures Inv(StepMove(s, w, fails))
  {
    hide Inv, OwnersOk, JoinsOk, StackOk, TaskOk, Bag, SetPc, SetTask, SetTop, StepPark, StepRegister, StepClaimLoad, Woken;
    var f := TopOf(s.ws[w]);
    var t := s.tasks[f.task];
    match f.pc
    case Start => StartKeeps(s, w, fails);
    case PutBack(_, _) => PutBackKeeps(s, w, fails);
    case Register(c) => RegisterKeeps(s, w, c);
    case RegisterCas(c, cur) =>
      if fails || s.tasks[c].join != cur { RegisterKeeps(s, w, c); } else { RegisterCasKeeps(s, w, c); }
    case Taking(_) => TakingKeeps(s, w);
    case Parking => ParkingLoadKeeps(s, w);
    case ParkingCas(cur) => if fails || t.wake != cur { ParkingLoadKeeps(s, w); } else { ParkKeeps(s, w, cur); }
    case Restore(_) => RestoreKeeps(s, w, fails);
    case Requeue => RequeueKeeps(s, w, fails);
    case Ending => if t.kind == Spawned { EndingSpawnedKeeps(s, w, fails); } else { EndingBlockOnKeeps(s, w, fails); }
    case Settle => SettleKeeps(s, w, fails);
    case Claim(p) => ClaimLoadKeeps(s, w, p);
    case ClaimCas(p, cur) => ClaimCasKeeps(s, w, p, cur, fails);
    case Polling =>
    case Reclaim(_) =>
  }

  lemma ClaimCasKeeps(s: State, w: nat, p: nat, cur: Wake, fails: bool)
    requires Inv(s) && Enabled(s, Move(w, fails)) && TopOf(s.ws[w]).pc == ClaimCas(p, cur)
    ensures Inv(StepMove(s, w, fails))
  {
    hide OwnersOk, JoinsOk, StackOk, TaskOk, Bag, SetPc, SetTask, SetTop, StepClaimLoad, Woken;
    if fails || s.tasks[p].wake != cur {
      ClaimLoadKeeps(s, w, p);
    } else if cur == PARKED {
      TransferKeeps(s, w, p);
    } else {
      ClaimMissKeeps(s, w, p);
    }
  }

  lemma StepKeeps(s: State, a: Action)
    requires Inv(s) && Enabled(s, a)
    ensures Inv(Apply(s, a))
  {
    hide Inv, StepPop, StepMove, StepLoad, StepWake, StepOverwrite, PushLoop;
    match a
    case Create => CreateKeeps(s);
    case EnterBlockOn(w) => EnterKeeps(s, w);
    case Dispatch(w, t) => PushKeeps(s, w, t);
    case UserSpawn(w) => CreateKeeps(s);
    case UserAwait(_, _) => UserKeeps(s, a);
    case UserReturn(_, _) => UserKeeps(s, a);
    case Pop(w, x) => PopKeeps(s, w, x);
    case Move(w, fails) => MoveKeeps(s, w, fails);
    case WakeBegin(k, t) => WakeLoadKeeps(s, k, t);
    case WakeCas(k, fails) => WakeCasKeeps(s, k, fails);
    case WakePush(k) => WakePushKeeps(s, k);
    case Overwrite(c, detach) => OverwriteKeeps(s, c, detach);
  }

  lemma InitKeeps(s: State)
    requires Init(s)
    ensures Inv(s)
  {
    BagEmpty(s.ws, WorkerTokens);
    BagEmpty(s.ks, WakerTokens);
  }

  /** A run: the states passed through and the steps between them. */
  ghost predicate IsRun(run: seq<State>, acts: seq<Action>) {
    && |run| == |acts| + 1 && Init(run[0])
    && forall i :: 0 <= i < |acts| ==> Enabled(run[i], acts[i]) && run[i + 1] == Apply(run[i], acts[i])
  }

  lemma RunLength(run: seq<State>, acts: seq<Action>)
    requires IsRun(run, acts)
    ensures |run| == |acts| + 1
  {
  }

  lemma StepOf(run: seq<State>, acts: seq<Action>, i: nat)
    requires IsRun(run, acts) && i < |acts|
    ensures |run| == |acts| + 1 && Enabled(run[i], acts[i]) && run[i + 1] == Apply(run[i], acts[i])
  {
  }

  lemma {:induction false} RunKeeps(run: seq<State>, acts: seq<Action>, n: nat)
    requires IsRun(run, acts) && n < |run|
    ensures Inv(run[n])
  {
    hide Inv, Init;
    if n == 0 {
      InitKeeps(run[0]);
    } else {
      RunKeeps(run, acts, n - 1);
      StepOf(run, acts, n - 1);
      var a := acts[n - 1];
      StepKeeps(run[n - 1], a);
    }
  }

  // ---------------------------------------------------------------------------
  // What every run satisfies
  // ---------------------------------------------------------------------------

  /** A poll loop that may touch the task: from the moment it took it over until it parked it,
      pushed it or finished it. */
  predicate Drives(f: Frame, t: nat) {
    && f.task == t
    && (InPoll(f) || f.pc == Start || f.pc == Restore(true) || f.pc == Requeue || f.pc == Settle)
  }

  lemma DrivesOwns(f: Frame, t: nat)
    requires Drives(f, t)
    ensures t in FrameTokens(f)
  {
  }

  /** At most one poll loop drives a task, the task is queued at most once, and neither while
      the other: queued, driven, held by a waker and parked exclude one another. */
  lemma OneOwner(run: seq<State>, acts: seq<Action>, n: nat, t: nat)
    requires IsRun(run, acts) && n < |run| && Known(run[n], t)
    ensures var s := run[n];
            && (forall w: nat, i: nat, v: nat, j: nat ::
                  (w < |s.ws| && i < |s.ws[w].frames| && v < |s.ws| && j < |s.ws[v].frames|
                   && Drives(s.ws[w].frames[i], t) && Drives(s.ws[v].frames[j], t)) ==> w == v && i == j)
            && s.queue[t] <= 1
            && (forall w: nat, i: nat :: w < |s.ws| && i < |s.ws[w].frames| && Drives(s.ws[w].frames[i], t) ==>
                  t !in s.queue && s.tasks[t].wake != PARKED && !s.tasks[t].done)
            && (s.tasks[t].wake == PARKED || s.tasks[t].done ==> t !in s.queue)
            && (forall k :: 0 <= k < |s.ks| && s.ks[k] == Holding(t) ==>
                  t !in s.queue && s.tasks[t].wake != PARKED && !s.tasks[t].done)
  {
    hide IsRun, Bag, Drives, FrameTokens, TaskOk, StackOk, JoinsOk;
    var s := run[n];
    RunKeeps(run, acts, n);
    forall w: nat, i: nat, v: nat, j: nat |
      w < |s.ws| && i < |s.ws[w].frames| && v < |s.ws| && j < |s.ws[v].frames|
      && Drives(s.ws[w].frames[i], t) && Drives(s.ws[v].frames[j], t)
      ensures w == v && i == j
    {
      DrivesOwns(s.ws[w].frames[i], t);
      DrivesOwns(s.ws[v].frames[j], t);
      FramesOwnApart(s, w, i, v, j, t);
    }
    forall w: nat, i: nat | w < |s.ws| && i < |s.ws[w].frames| && Drives(s.ws[w].frames[i], t)
      ensures t !in s.queue && s.tasks[t].wake != PARKED && !s.tasks[t].done
    {
      DrivesOwns(s.ws[w].frames[i], t);
      FrameOwns(s, w, i, t);
      BagAt(s.ws[w].frames, i, FrameTokens, t);
      BagAt(s.ws, w, WorkerTokens, t);
    }
    forall k | 0 <= k < |s.ks| && s.ks[k] == Holding(t)
      ensures t !in s.queue && s.tasks[t].wake != PARKED && !s.tasks[t].done
    {
      HeldKnown(s, k);
      BagAt(s.ks, k, WakerTokens, t);
    }
  }

  /** Somewhere a poll of `t` is due: it is queued, a waker is about to queue it, a loop is about
      to start or requeue it, or its current poll will see NOTIFIED before it can park. */
  ghost predicate PollDue(s: State, t: nat)
    requires Known(s, t)
  {
    || t in s.queue
    || (exists k :: 0 <= k < |s.ks| && s.ks[k] == Holding(t))
    || (exists w, i :: 0 <= w < |s.ws| && 0 <= i < |s.ws[w].frames| && Returns(s.ws[w].frames[i], t, s.tasks[t].wake))
  }

  /** This loop brings the task to its next poll, or to its end. */
  predicate Returns(f: Frame, t: nat, wake: Wake) {
    || (f.pc.PutBack? && f.pc.x == t)
    || (f.task == t && (f.pc == Start || f.pc == Restore(true) || f.pc == Requeue || f.pc == Settle || (InPoll(f) && wake == NOTIFIED)))
  }

  /** A wake that was issued after the last poll began leads to another poll (or finds the task
      finished): the task is not parked, and the next poll is on its way. */
  lemma NoWakeIsLost(run: seq<State>, acts: seq<Action>, n: nat, t: nat)
    requires IsRun(run, acts) && n < |run| && Known(run[n], t)
    requires run[n].tasks[t].woken && !run[n].tasks[t].done
    ensures run[n].tasks[t].wake != PARKED && PollDue(run[n], t)
  {
    hide IsRun, Bag, JoinsOk, Returns;
    var s := run[n];
    RunKeeps(run, acts, n);
    assert TaskOk(s.tasks[t]);
    assert Tokens(s)[t] == 1;
    if t in Bag(s.ws, WorkerTokens) {
      var w := BagWitness(s.ws, WorkerTokens, t);
      var i := BagWitness(s.ws[w].frames, FrameTokens, t);
      assert StackOk(s, s.ws[w]);
      OwnerReturns(s, s.ws[w].frames[i], t);
      assert 0 <= w < |s.ws| && 0 <= i < |s.ws[w].frames| && Returns(s.ws[w].frames[i], t, s.tasks[t].wake);
    } else if t in Bag(s.ks, WakerTokens) {
      var k := BagWitness(s.ks, WakerTokens, t);
      assert s.ks[k] == Holding(t);
    }
  }

  lemma OwnerReturns(s: State, f: Frame, t: nat)
    requires FrameOk(s, f) && t in FrameTokens(f) && Known(s, t) && s.tasks[t].woken
    ensures Returns(f, t, s.tasks[t].wake)
  {
  }

  /** A parent that registered with child `c`, in whichever poll, and whose entry nobody replaced is
      never left parked once `c` has finished: it was woken, so its next poll is due, or the loop
      that finished `c` is about to wake it.  (Once a later poll has begun with `c` finished, that
      poll has consumed the wake.) */
  lemma FinishedChildRevivesParent(run: seq<State>, acts: seq<Action>, n: nat, p: nat, c: nat)
    requires IsRun(run, acts) && n < |run| && Known(run[n], p) && c in run[n].tasks[p].waits
    ensures Known(run[n], c)
    ensures run[n].tasks[c].join == FINISHED && !run[n].tasks[p].done ==>
              || (run[n].tasks[p].wake != PARKED && PollDue(run[n], p))
              || Settling(run[n], c, p)
    ensures run[n].tasks[c].join != FINISHED && !run[n].tasks[p].woken && !run[n].tasks[p].done ==>
              run[n].tasks[c].join == AsyncJoiner(p)
  {
    hide IsRun, OwnersOk, StackOk, PollDue;
    var s := run[n];
    RunKeeps(run, acts, n);
    assert WaitOk(s, p, c);
    if s.tasks[c].join == FINISHED && !s.tasks[p].done && s.tasks[p].woken {
      NoWakeIsLost(run, acts, n, p);
    }
    if s.tasks[c].join != FINISHED && Settling(s, c, p) {
      SettlingFinished(s, c, p);
    }
  }

  lemma FrameAt(s: State, k: Worker, i: nat)
    requires StackOk(s, k) && i < |k.frames|
    ensures FrameOk(s, k.frames[i])
  {
  }

  lemma SettlingFinished(s: State, c: nat, p: nat)
    requires Inv(s) && Settling(s, c, p)
    ensures Known(s, c) && s.tasks[c].join == FINISHED
  {
    hide OwnersOk, JoinsOk;
    var w, i :| 0 <= w < |s.ws| && 0 <= i < |s.ws[w].frames| && Settles(s.ws[w].frames[i], c, p);
    assert StackOk(s, s.ws[w]);
    FrameAt(s, s.ws[w], i);
    hide StackOk;
    assert TaskOk(s.tasks[c]);
  }

  /** While a spawned future is being polled, `polling_async` of that worker names exactly it,
      even when loops are nested or continue each other; so the joiner that awaiting registers is
      the awaiting task.  A loop below another one is waiting inside an await. */
  lemma PollingNamesInnermostTask(run: seq<State>, acts: seq<Action>, n: nat, w: nat)
    requires IsRun(run, acts) && n < |run| && HasTop(run[n], w) && InPoll(TopOf(run[n].ws[w]))
    ensures var s := run[n];
            var f := TopOf(s.ws[w]);
            && Known(s, f.task)
            && s.ws[w].polling == (if s.tasks[f.task].kind == Spawned then Some(f.task) else None)
            && forall i :: 0 <= i < |s.ws[w].frames| - 1 ==> s.ws[w].frames[i].pc.Register?
  {
    hide IsRun, OwnersOk, JoinsOk;
    RunKeeps(run, acts, n);
    assert StackOk(run[n], run[n].ws[w]);
  }

  /** A task that symmetric transfer continues with is a spawned future, was parked, and is
      driven by nobody else; and no task exits twice. */
  lemma TransferIsExclusive(run: seq<State>, acts: seq<Action>, n: nat, w: nat, p: nat)
    requires IsRun(run, acts) && n < |run| && HasTop(run[n], w)
    ensures TopOf(run[n].ws[w]).pc == ClaimCas(p, PARKED) && Known(run[n], p) && run[n].tasks[p].wake == PARKED ==>
              && run[n].tasks[p].kind == Spawned && p !in run[n].queue
              && forall v: nat, j: nat :: v < |run[n].ws| && j < |run[n].ws[v].frames| ==> !Drives(run[n].ws[v].frames[j], p)
    ensures TopOf(run[n].ws[w]).pc == Settle ==>
              Known(run[n], TopOf(run[n].ws[w]).task) && run[n].tasks[TopOf(run[n].ws[w]).task].join != FINISHED
  {
    hide IsRun, OwnersOk, JoinsOk, StackOk, TaskOk;
    var s := run[n];
    RunKeeps(run, acts, n);
    TopOk(s, w);
    if TopOf(s.ws[w]).pc == ClaimCas(p, PARKED) && Known(s, p) && s.tasks[p].wake == PARKED {
      OneOwner(run, acts, n, p);
    }
    if TopOf(s.ws[w]).pc == Settle {
      SettleFindsUnfinished(s, w);
    }
  }

  /** No poll loop and no waking thread is ever stuck: each can take its next step. */
  lemma LoopsNeverStuck(run: seq<State>, acts: seq<Action>, n: nat)
    requires IsRun(run, acts) && n < |run|
    ensures forall w: nat :: HasTop(run[n], w) ==>
              Enabled(run[n], UserReturn(w, true)) || Enabled(run[n], Pop(w, None)) || Enabled(run[n], Move(w, false))
    ensures forall k: nat :: k < |run[n].ks| && run[n].ks[k] != Quiet ==>
              Enabled(run[n], WakeCas(k, false)) || Enabled(run[n], WakePush(k))
  {
    hide IsRun, OwnersOk, JoinsOk;
    RunKeeps(run, acts, n);
    forall w: nat | HasTop(run[n], w)
      ensures Enabled(run[n], UserReturn(w, true)) || Enabled(run[n], Pop(w, None)) || Enabled(run[n], Move(w, false))
    {
      assert StackOk(run[n], run[n].ws[w]);
      assert FrameOk(run[n], TopOf(run[n].ws[w]));
    }
  }
}
