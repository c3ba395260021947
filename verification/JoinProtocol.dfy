/** The join word of one task (src/resumable/common/desc.rs): an exiting task, stackful
    (src/resumable/stackful/thread.rs) or polled (src/resumable/stackless/thread.rs), against
    its one handle, which is joined, polled any number of times, or dropped at any moment.

    One step is one load, store, swap or compare-and-swap on the join word, one use of the
    result slot, or one release of the descriptor or of a boxed waker.  A compare-and-swap may
    fail for no visible reason. */
module JoinProtocol {
  import opened Basics

  datatype Flavour = Stackful | Stackless

  /** A decoded join word.  `SyncJoiner` is the task suspended in `join`, `AsyncWaker(b)` the boxed
      waker `b`, `AsyncJoiner` a polling task of the same system. */
  datatype Word = Running | Finished | Detached | SyncJoiner | AsyncWaker(b: nat) | AsyncJoiner

  /** Where the exiting task (or the callback it leaves behind) stands. */
  datatype Exit =
    | Working          // the closure or future has not finished
    | LookJoiner       // stackful: about to load the word for a parked joiner
    | LookAbandoned    // stackful: about to load it again for a dropped handle
    | WriteHandoff     // found the joiner: about to write the result
    | Commit           // switched to the joiner: about to store FINISHED
    | Switched         // ... and about to let the joiner go on
    | DropValue        // no handle: about to drop the value ...
    | FreeEarly        // ... and to free the descriptor
    | WriteResult
    | Settle           // about to swap FINISHED into the word
    | Resume           // found a sync joiner: about to push it
    | WakeBox(b: nat)  // found a boxed waker: about to wake it, which consumes the box
    | WakeJoiner       // found an async joiner: about to try a wake
    | DropResult       // found DETACHED: about to drop the result in place ...
    | FreeLate         // ... and to free the descriptor
    | Exited

  /** Where the owner of the handle stands. */
  datatype Handle =
    | Idle                          // between operations
    | JoinLook                      // `join`: about to load the word
    | JoinLoad                      // suspended: about to load it again to register
    | JoinCas(seen: Word)
    | Parked
    | BoxLoad                       // `poll` with a foreign waker
    | BoxCas(b: nat, seen: Word)
    | JoinerLoad                    // `poll` from a task of this system
    | JoinerCas(seen: Word)
    | DropLoad
    | DropCas(seen: Word)
    | TakeResult                    // saw FINISHED: about to read the result
    | DiscardResult                 // dropping the handle saw FINISHED: about to drop the result
    | Free                          // about to free the descriptor
    | Gone

  /** A boxed waker: how often it was woken, how often its box was freed. */
  datatype Box = Box(woken: nat, freed: nat)

  /** `made` is the value the task computed, `slot` what its result slot holds, `got` what the
      handle returned.  `consumed`, `freed`, `resumed` and `called` count uses of the result,
      releases of the descriptor, and times the sync joiner was made runnable and a registered
      async joiner was taken up.  `detached` remembers that
      the handle was dropped before FINISHED (or never existed); `trash` holds boxes somebody
      took out of the word and is about to free. */
  datatype State = State(flavour: Flavour, word: Word, exit: Exit, handle: Handle,
                         made: Option<nat>, slot: Option<nat>, got: Option<nat>,
                         consumed: nat, freed: nat, resumed: nat, called: nat,
                         boxes: seq<Box>, trash: set<nat>, detached: bool)

  /** `alloc_with(has_handle)`. */
  predicate Init(s: State) {
    && s.exit == Working && s.made == None && s.slot == None && s.got == None
    && s.consumed == 0 && s.freed == 0 && s.resumed == 0 && s.called == 0 && s.boxes == [] && s.trash == {}
    && s.word == (if s.detached then Detached else Running)
    && s.handle == (if s.detached then Gone else Idle)
  }

  // ---------------------------------------------------------------------------
  // Steps
  // ---------------------------------------------------------------------------

  datatype Action =
    | Compute(v: nat)        // the closure returns (or panics with) `v`
    | ExitMove
    | Begin(op: Handle)      // the owner of the handle starts an operation
    | HandleMove(fails: bool)
    | EmptyTrash(b: nat)

  predicate Enabled(s: State, a: Action) {
    match a
    case Compute(_) => s.exit == Working
    case ExitMove => s.exit != Working && s.exit != Exited
    case Begin(op) => s.handle == Idle && (op == JoinLook || op == BoxLoad || op == JoinerLoad || op == DropLoad)
    case HandleMove(_) => s.handle != Idle && s.handle != Parked && s.handle != Gone
    case EmptyTrash(b) => b in s.trash && b < |s.boxes|
  }

  function Apply(s: State, a: Action): State {
    match a
    case Compute(v) =>
      s.(made := Some(v), exit := if s.flavour == Stackful then LookJoiner else WriteResult)
    case ExitMove => StepExit(s)
    case Begin(op) => s.(handle := op)
    case HandleMove(fails) => StepHandle(s, fails)
    case EmptyTrash(b) => FreeBox(s, b, 0).(trash := s.trash - {b})
  }

  function FreeBox(s: State, b: nat, wakes: nat): State {
    if b < |s.boxes| then s.(boxes := s.boxes[b := Box(s.boxes[b].woken + wakes, s.boxes[b].freed + 1)]) else s
  }

  function StepExit(s: State): State {
    match s.exit
    case LookJoiner => s.(exit := if s.word == SyncJoiner then WriteHandoff else LookAbandoned)
    case WriteHandoff => s.(slot := s.made, exit := Commit)
    case Commit => s.(word := Finished, exit := Switched)
    case Switched => s.(resumed := s.resumed + 1, handle := TakeResult, exit := Exited)
    case LookAbandoned => s.(exit := if s.word == Detached then DropValue else WriteResult)
    case DropValue => s.(consumed := s.consumed + 1, exit := FreeEarly)
    case FreeEarly => s.(freed := s.freed + 1, exit := Exited)
    case WriteResult => s.(slot := s.made, exit := Settle)
    case Settle => s.(word := Finished, exit := match s.word
                                               case Running => Exited
                                               case SyncJoiner => Resume
                                               case AsyncWaker(b) => WakeBox(b)
                                               case AsyncJoiner => WakeJoiner
                                               case Detached => DropResult
                                               case Finished => Exited)  // unreachable!("double task exit")
    case Resume => s.(resumed := s.resumed + 1, handle := TakeResult, exit := Exited)
    case WakeBox(b) => FreeBox(s, b, 1).(exit := Exited)
    case WakeJoiner => s.(called := s.called + 1, exit := Exited)
    case DropResult => s.(consumed := s.consumed + 1, slot := None, exit := FreeLate)
    case FreeLate => s.(freed := s.freed + 1, exit := Exited)
    case Working => s
    case Exited => s
  }

  /** After a successful compare-and-swap: a boxed waker found in the old word is freed. */
  function Replace(s: State, word: Word, handle: Handle): State {
    s.(word := word, handle := handle, trash := if s.word.AsyncWaker? then s.trash + {s.word.b} else s.trash)
  }

  function StepHandle(s: State, fails: bool): State {
    match s.handle
    case JoinLook => s.(handle := if s.word == Finished then TakeResult else JoinLoad)
    case JoinLoad => s.(handle := if s.word == Finished then TakeResult else JoinCas(s.word))
    case JoinCas(seen) =>
      if fails || s.word != seen then s.(handle := if s.word == Finished then TakeResult else JoinCas(s.word))
      else Replace(s, SyncJoiner, Parked)
    case BoxLoad =>
      if s.word == Finished then s.(handle := TakeResult)
      else s.(boxes := s.boxes + [Box(0, 0)], handle := BoxCas(|s.boxes|, s.word))
    case BoxCas(b, seen) =>
      if fails || s.word != seen then
        if s.word == Finished then s.(handle := TakeResult, trash := s.trash + {b}) else s.(handle := BoxCas(b, s.word))
      else Replace(s, AsyncWaker(b), Idle)
    case JoinerLoad => s.(handle := if s.word == Finished then TakeResult else JoinerCas(s.word))
    case JoinerCas(seen) =>
      if fails || s.word != seen then s.(handle := if s.word == Finished then TakeResult else JoinerCas(s.word))
      else Replace(s, AsyncJoiner, Idle)
    case DropLoad => s.(handle := if s.word == Finished then DiscardResult else DropCas(s.word))
    case DropCas(seen) =>
      if fails || s.word != seen then s.(handle := if s.word == Finished then DiscardResult else DropCas(s.word))
      else Replace(s, Detached, Gone).(detached := true)
    case TakeResult => s.(got := s.slot, slot := None, consumed := s.consumed + 1, handle := Free)
    case DiscardResult => s.(slot := None, consumed := s.consumed + 1, handle := Free)
    case Free => s.(freed := s.freed + 1, handle := Gone)
    case Idle => s
    case Parked => s
    case Gone => s
  }

  // ---------------------------------------------------------------------------
  // Inductive invariant
  // ---------------------------------------------------------------------------

  /** FINISHED is not published yet. */
  predicate Before(e: Exit) {
    match e
    case Working => true
    case LookJoiner => true
    case LookAbandoned => true
    case WriteHandoff => true
    case Commit => true
    case DropValue => true
    case FreeEarly => true
    case WriteResult => true
    case Settle => true
    case _ => false
  }

  predicate Written(e: Exit) { e == Commit || e == Settle || !Before(e) }

  predicate SeenOk(h: Handle) {
    && (h.JoinCas? ==> h.seen != Finished && h.seen != SyncJoiner)
    && (h.BoxCas? ==> h.seen != Finished && h.seen != SyncJoiner)
    && (h.JoinerCas? ==> h.seen != Finished && h.seen != SyncJoiner)
    && (h.DropCas? ==> h.seen != Finished && h.seen != SyncJoiner)
  }

  /** The handle saw FINISHED. */
  predicate SawFinished(h: Handle) { h == TakeResult || h == DiscardResult || h == Free || h == Gone }

  predicate WordOk(s: State) {
    && (Before(s.exit) ==> s.word != Finished)
    && (!Before(s.exit) ==> s.word == Finished || (s.word == Detached && s.exit == Exited))
    && (s.word == Detached ==> s.detached)
    && (s.detached ==> s.handle == Gone)
    && (s.detached && Before(s.exit) ==> s.word == Detached)
    && (s.detached && !Before(s.exit) ==> s.exit == DropResult || s.exit == FreeLate || s.exit == Exited)
    && (s.exit == DropValue || s.exit == FreeEarly || s.exit == DropResult || s.exit == FreeLate ==> s.detached)
    && (s.exit == WriteHandoff || s.exit == Commit ==> s.word == SyncJoiner)
    && (s.handle == Parked <==> s.word == SyncJoiner || s.exit == Switched || s.exit == Resume)
    && (!s.detached && SawFinished(s.handle) ==> s.word == Finished)
    && SeenOk(s.handle)
  }

  predicate ResultOk(s: State) {
    && (s.exit == Working <==> s.made == None)
    && s.consumed == One((s.detached && (s.exit == FreeEarly || s.exit == FreeLate || s.exit == Exited))
                         || (!s.detached && (s.handle == Free || s.handle == Gone)))
    && s.freed == One((s.detached && s.exit == Exited) || (!s.detached && s.handle == Gone))
    && (Written(s.exit) && s.consumed == 0 ==> s.slot == s.made)
    && (s.got.Some? ==> s.got == s.made)
    && s.resumed <= 1
    && (s.consumed == 1 || !Written(s.exit) ==> s.slot == None)
    && s.called <= 1 && (s.called == 1 ==> s.exit == Exited)
    && (s.resumed == 1 ==> s.handle == TakeResult || s.handle == Free || s.handle == Gone)
    && (s.resumed == 1 ==> !s.detached && s.word == Finished && (s.handle != TakeResult ==> s.got.Some?))
  }

  /** How many parties hold box `b`. */
  function Holders(s: State, b: nat): nat {
    One(s.word == AsyncWaker(b)) + One(s.exit == WakeBox(b)) + One(s.handle.BoxCas? && s.handle.b == b) + One(b in s.trash)
  }

  predicate BoxOk(s: State, b: nat) {
    if b < |s.boxes| then s.boxes[b].freed + Holders(s, b) == 1 && s.boxes[b].woken <= s.boxes[b].freed
    else Holders(s, b) == 0
  }

  ghost predicate BoxesOk(s: State) { forall b: nat :: BoxOk(s, b) }

  ghost predicate Inv(s: State) { WordOk(s) && ResultOk(s) && BoxesOk(s) }

  lemma InitKeeps(s: State)
    requires Init(s)
    ensures Inv(s)
  {
  }

  lemma ExitKeepsWord(s: State)
    requires WordOk(s) && Enabled(s, ExitMove)
    ensures WordOk(StepExit(s))
  {
  }

  lemma ExitKeepsResult(s: State)
    requires WordOk(s) && ResultOk(s) && Enabled(s, ExitMove)
    ensures ResultOk(StepExit(s))
  {
    hide ResultOk, StepExit;
    if Before(s.exit) { EarlyKeepsResult(s); } else { LateKeepsResult(s); }
  }

  lemma EarlyKeepsResult(s: State)
    requires WordOk(s) && ResultOk(s) && Enabled(s, ExitMove) && Before(s.exit)
    ensures ResultOk(StepExit(s))
  {
  }

  lemma LateKeepsResult(s: State)
    requires WordOk(s) && ResultOk(s) && Enabled(s, ExitMove) && !Before(s.exit)
    ensures ResultOk(StepExit(s))
  {
  }

  lemma HandleKeepsWord(s: State, fails: bool)
    requires WordOk(s) && Enabled(s, HandleMove(fails))
    ensures WordOk(StepHandle(s, fails))
  {
  }

  lemma HandleKeepsResult(s: State, fails: bool)
    requires WordOk(s) && ResultOk(s) && Enabled(s, HandleMove(fails))
    ensures ResultOk(StepHandle(s, fails))
  {
    hide ResultOk, StepHandle;
    if SawFinished(s.handle) {
      TakerKeepsResult(s, fails);
    } else if s.handle.BoxLoad? || s.handle.BoxCas? {
      BoxPollKeepsResult(s, fails);
    } else {
      WaiterKeepsResult(s, fails);
    }
  }

  lemma TakerKeepsResult(s: State, fails: bool)
    requires WordOk(s) && ResultOk(s) && Enabled(s, HandleMove(fails)) && SawFinished(s.handle)
    ensures ResultOk(StepHandle(s, fails))
  {
  }

  lemma BoxPollKeepsResult(s: State, fails: bool)
    requires WordOk(s) && ResultOk(s) && (s.handle.BoxLoad? || s.handle.BoxCas?)
    ensures ResultOk(StepHandle(s, fails))
  {
  }

  lemma WaiterKeepsResult(s: State, fails: bool)
    requires WordOk(s) && ResultOk(s) && Enabled(s, HandleMove(fails)) && !SawFinished(s.handle)
    requires !s.handle.BoxLoad? && !s.handle.BoxCas?
    ensures ResultOk(StepHandle(s, fails))
  {
    WaiterLeavesResult(s, fails);
    hide StepHandle;
  }

  lemma WaiterLeavesResult(s: State, fails: bool)
    requires SeenOk(s.handle) && !s.detached
    requires Enabled(s, HandleMove(fails)) && !SawFinished(s.handle) && !s.handle.BoxLoad? && !s.handle.BoxCas?
    ensures var s' := StepHandle(s, fails);
            && s'.exit == s.exit && s'.made == s.made && s'.slot == s.slot && s'.got == s.got
            && s'.consumed == s.consumed && s'.freed == s.freed && s'.resumed == s.resumed && s'.called == s.called
            && (s'.handle == Gone <==> s'.detached) && s'.handle != Free
            && (s'.detached ==> s.word != Finished) && (s.word == Finished ==> s'.word == Finished)
  {
  }

  lemma ExitKeepsBox(s: State, b: nat)
    requires WordOk(s) && BoxesOk(s) && Enabled(s, ExitMove)
    ensures BoxOk(StepExit(s), b)
  {
    hide BoxesOk;
    OneBox(s, b);
    if s.exit.WakeBox? { OneBox(s, s.exit.b); }
  }

  lemma HandleKeepsBox(s: State, fails: bool, b: nat)
    requires BoxesOk(s) && Enabled(s, HandleMove(fails))
    ensures BoxOk(StepHandle(s, fails), b)
  {
    hide BoxesOk, StepHandle, BoxOk;
    OneBox(s, b);
    if s.word.AsyncWaker? { OneBox(s, s.word.b); }
    if s.handle.BoxLoad? || s.handle.BoxCas? {
      BoxPollKeepsBox(s, fails, b);
    } else if SawFinished(s.handle) {
      TakerKeepsBox(s, fails, b);
    } else {
      OtherKeepsBox(s, fails, b);
    }
  }

  lemma TakerKeepsBox(s: State, fails: bool, b: nat)
    requires BoxOk(s, b) && Enabled(s, HandleMove(fails)) && SawFinished(s.handle)
    ensures BoxOk(StepHandle(s, fails), b)
  {
  }

  lemma OtherKeepsBox(s: State, fails: bool, b: nat)
    requires BoxOk(s, b) && (s.word.AsyncWaker? ==> BoxOk(s, s.word.b))
    requires Enabled(s, HandleMove(fails)) && !s.handle.BoxLoad? && !s.handle.BoxCas? && !SawFinished(s.handle)
    ensures BoxOk(StepHandle(s, fails), b)
  {
  }

  lemma BoxPollKeepsBox(s: State, fails: bool, b: nat)
    requires BoxOk(s, b) && (s.word.AsyncWaker? ==> BoxOk(s, s.word.b))
    requires s.handle.BoxLoad? || s.handle.BoxCas?
    ensures BoxOk(StepHandle(s, fails), b)
  {
  }

  lemma OneBox(s: State, b: nat)
    requires BoxesOk(s)
    ensures BoxOk(s, b)
  {
  }

  lemma StepKeeps(s: State, a: Action)
    requires Inv(s) && Enabled(s, a)
    ensures Inv(Apply(s, a))
  {
    match a
    case ExitMove =>
      hide WordOk, ResultOk, BoxOk, StepExit;
      ExitKeepsWord(s);
      ExitKeepsResult(s);
      forall b: nat ensures BoxOk(StepExit(s), b) { ExitKeepsBox(s, b); }
    case HandleMove(fails) =>
      hide WordOk, ResultOk, BoxOk, StepHandle;
      HandleKeepsWord(s, fails);
      HandleKeepsResult(s, fails);
      forall b: nat ensures BoxOk(StepHandle(s, fails), b) { HandleKeepsBox(s, fails, b); }
    case _ => RestKeeps(s, a);
  }

  lemma RestKeeps(s: State, a: Action)
    requires Inv(s) && Enabled(s, a) && !a.ExitMove? && !a.HandleMove?
    ensures Inv(Apply(s, a))
  {
    hide BoxOk, WordOk, ResultOk;
    var s' := Apply(s, a);
    RestKeepsRest(s, a);
    forall b: nat ensures BoxOk(s', b) {
      OneBox(s, b);
      if a.EmptyTrash? { OneBox(s, a.b); }
      RestKeepsBox(s, a, b);
    }
  }

  lemma RestKeepsRest(s: State, a: Action)
    requires WordOk(s) && ResultOk(s) && Enabled(s, a) && !a.ExitMove? && !a.HandleMove?
    ensures WordOk(Apply(s, a)) && ResultOk(Apply(s, a))
  {
  }

  lemma RestKeepsBox(s: State, a: Action, b: nat)
    requires BoxOk(s, b) && Enabled(s, a) && !a.ExitMove? && !a.HandleMove? && (a.EmptyTrash? ==> BoxOk(s, a.b))
    ensures BoxOk(Apply(s, a), b)
  {
  }

  /** A run: the states passed through and the steps between them. */
  ghost predicate IsRun(run: seq<State>, acts: seq<Action>) {
    && |run| == |acts| + 1 && Init(run[0])
    && forall i :: 0 <= i < |acts| ==> Enabled(run[i], acts[i]) && run[i + 1] == Apply(run[i], acts[i])
  }

  lemma RunLength(run: seq<State>, acts: seq<Action>)
    requires IsRun(run, acts)
    ensures |run| == |acts| + 1
  {
  }

  lemma StepOf(run: seq<State>, acts: seq<Action>, i: nat)
    requires IsRun(run, acts) && i < |acts|
    ensures |run| == |acts| + 1 && Enabled(run[i], acts[i]) && run[i + 1] == Apply(run[i], acts[i])
  {
  }

  lemma {:induction false} RunKeeps(run: seq<State>, acts: seq<Action>, n: nat)
    requires IsRun(run, acts) && n < |run|
    ensures Inv(run[n])
  {
    hide WordOk, ResultOk, BoxesOk, Init, Apply;
    if n == 0 {
      InitKeeps(run[0]);
    } else {
      RunKeeps(run, acts, n - 1);
      StepOf(run, acts, n - 1);
      var a := acts[n - 1];
      StepKeeps(run[n - 1], a);
    }
  }

  // ---------------------------------------------------------------------------
  // What every run satisfies
  // ---------------------------------------------------------------------------

  /** Nobody uses the result twice, frees the descriptor twice, frees or wakes a box twice, or
      resumes the sync joiner twice; and what the handle returns is what the task computed. */
  lemma NothingTwice(run: seq<State>, acts: seq<Action>, n: nat)
    requires IsRun(run, acts) && n < |run|
    ensures run[n].consumed <= 1 && run[n].freed <= 1 && run[n].resumed <= 1
    ensures run[n].freed <= run[n].consumed && (run[n].consumed == 1 ==> run[n].slot == None)
    ensures forall b: nat :: b < |run[n].boxes| ==> run[n].boxes[b].woken <= run[n].boxes[b].freed <= 1
    ensures run[n].got.Some? ==> run[n].got == run[n].made
  {
    hide WordOk;
    RunKeeps(run, acts, n);
    forall b: nat | b < |run[n].boxes| ensures run[n].boxes[b].woken <= run[n].boxes[b].freed <= 1 {
      OneBox(run[n], b);
    }
  }

  predicate Final(s: State) { s.exit == Exited && s.handle == Gone && s.trash == {} }

  /** When both sides are through, everything was disposed of exactly once. */
  lemma NothingLeaks(run: seq<State>, acts: seq<Action>, n: nat)
    requires IsRun(run, acts) && n < |run| && Final(run[n])
    ensures run[n].consumed == 1 && run[n].freed == 1
    ensures forall b: nat :: b < |run[n].boxes| ==> run[n].boxes[b].freed == 1
    ensures run[n].resumed == 1 ==> run[n].got == run[n].made && run[n].got.Some?
  {
    RunKeeps(run, acts, n);
    forall b: nat | b < |run[n].boxes| ensures run[n].boxes[b].freed == 1 {
      OneBox(run[n], b);
    }
  }

  /** Nobody waits for ever: as long as the handle or the exiting task is not through, one of
      them can move (an idle handle can begin, and then finish, any operation). */
  lemma NeverStuck(run: seq<State>, acts: seq<Action>, n: nat)
    requires IsRun(run, acts) && n < |run| && !Final(run[n])
    ensures || (exists v :: Enabled(run[n], Compute(v)))
            || Enabled(run[n], ExitMove)
            || Enabled(run[n], HandleMove(false))
            || Enabled(run[n], Begin(DropLoad))
            || (exists b :: Enabled(run[n], EmptyTrash(b)))
    ensures run[n].handle == Parked ==> run[n].exit != Exited
  {
    var s := run[n];
    RunKeeps(run, acts, n);
    if s.exit == Working { assert Enabled(s, Compute(0)); }
    if s.trash != {} {
      var b :| b in s.trash;
      OneBox(s, b);
      assert Enabled(s, EmptyTrash(b));
    }
  }

  /** The steps of the exit path that touch the descriptor or the result slot. */
  predicate ExitTouches(e: Exit) {
    match e
    case Working => true
    case Switched => false
    case Resume => false
    case WakeBox(_) => false
    case WakeJoiner => false
    case Exited => false
    case _ => true
  }

  /** The steps of the handle that touch the descriptor or the result slot. */
  predicate HandleTouches(h: Handle) { h != Idle && h != Parked && h != Gone }

  /** No use after free; and once FINISHED is published the exit path keeps its hands off the
      descriptor, unless the handle had been dropped before, which made the exit path its
      owner. */
  lemma NoUseAfterFree(run: seq<State>, acts: seq<Action>, n: nat)
    requires IsRun(run, acts) && n < |run|
    ensures ExitTouches(run[n].exit) || HandleTouches(run[n].handle) ==> run[n].freed == 0
    ensures ExitTouches(run[n].exit) && run[n].word == Finished ==>
              run[n].detached && run[n].handle == Gone && (run[n].exit == DropResult || run[n].exit == FreeLate)
    ensures run[n].handle == TakeResult || run[n].handle == DiscardResult ==>
              run[n].word == Finished && run[n].slot == run[n].made && run[n].made.Some?
    ensures run[n].exit == Settle ==> run[n].word != Finished
  {
    hide BoxesOk;
    RunKeeps(run, acts, n);
  }

  /** A parked joiner is resumed exactly once, with FINISHED visible: it stays parked until the
      step that resumes it, the word is FINISHED at that step, and afterwards nothing can
      resume it again. */
  lemma JoinerResumedOnce(run: seq<State>, acts: seq<Action>, n: nat, a: Action)
    requires IsRun(run, acts) && n < |run| && run[n].handle == Parked && Enabled(run[n], a)
    ensures var s, s' := run[n], Apply(run[n], a);
            && s.resumed == 0
            && ((s'.handle == Parked && s'.resumed == 0)
                || (s'.handle == TakeResult && s'.resumed == 1 && s'.word == Finished && s'.slot == s'.made))
  {
    hide BoxesOk;
    RunKeeps(run, acts, n);
  }

  /** The two states the stackful exit path reads with a plain load are stable: a parked joiner
      stays parked until it is resumed, and a dropped handle stays dropped. */
  lemma LoadsAreStable(run: seq<State>, acts: seq<Action>, n: nat, a: Action)
    requires IsRun(run, acts) && n < |run| && Enabled(run[n], a) && a != ExitMove
    ensures run[n].word == SyncJoiner || run[n].word == Detached ==> Apply(run[n], a).word == run[n].word
  {
    hide BoxesOk;
    RunKeeps(run, acts, n);
  }

  // ---------------------------------------------------------------------------
  // Whoever waits is told
  // ---------------------------------------------------------------------------

  /** Step `m` publishes FINISHED over the registration `w`. */
  ghost predicate Publishes(run: seq<State>, m: nat, w: Word) {
    m + 1 < |run| && run[m].word == w && run[m + 1].word == Finished
  }

  /** The boxed waker `b` was woken, or is about to be. */
  predicate Answered(s: State, b: nat) {
    s.exit == WakeBox(b) || (b < |s.boxes| && s.boxes[b].woken > 0)
  }

  lemma AnswerStep(s: State, a: Action, b: nat)
    requires WordOk(s) && BoxOk(s, b) && Enabled(s, a)
    requires s.exit.WakeBox? ==> BoxOk(s, s.exit.b)
    ensures Answered(Apply(s, a), b) <==> Answered(s, b) || (s.word == AsyncWaker(b) && Apply(s, a).word == Finished)
  {
    hide StepHandle, StepExit;
    match a
    case HandleMove(fails) => AnswerHandle(s, fails, b);
    case ExitMove => AnswerExit(s, b);
    case _ =>
  }

  lemma AnswerHandle(s: State, fails: bool, b: nat)
    requires BoxOk(s, b) && Enabled(s, HandleMove(fails))
    ensures Answered(StepHandle(s, fails), b) <==> Answered(s, b)
    ensures StepHandle(s, fails).word == Finished ==> s.word == Finished
  {
  }

  lemma AnswerExit(s: State, b: nat)
    requires WordOk(s) && BoxOk(s, b) && Enabled(s, ExitMove) && (s.exit.WakeBox? ==> BoxOk(s, s.exit.b))
    ensures Answered(StepExit(s), b) <==> Answered(s, b) || (s.word == AsyncWaker(b) && StepExit(s).word == Finished)
  {
  }

  lemma {:induction false} AnsweredExactly(run: seq<State>, acts: seq<Action>, n: nat, b: nat)
    requires IsRun(run, acts) && n < |run|
    ensures Answered(run[n], b) <==> exists m: nat :: m < n && Publishes(run, m, AsyncWaker(b))
  {
    hide IsRun, Enabled, Apply, Answered, WordOk, ResultOk, BoxOk;
    RunLength(run, acts);
    if n == 0 {
      NotAnsweredYet(run, acts, b);
    } else {
      AnsweredExactly(run, acts, n - 1, b);
      StepOf(run, acts, n - 1);
      RunKeeps(run, acts, n - 1);
      OneBox(run[n - 1], b);
      if run[n - 1].exit.WakeBox? { OneBox(run[n - 1], run[n - 1].exit.b); }
      AnswerStep(run[n - 1], acts[n - 1], b);
      if m: nat :| m < n && Publishes(run, m, AsyncWaker(b)) {
        assert m < n - 1 || m == n - 1;
      }
      if Answered(run[n], b) && !Answered(run[n - 1], b) {
        assert Publishes(run, n - 1, AsyncWaker(b));
      }
    }
  }

  lemma NotAnsweredYet(run: seq<State>, acts: seq<Action>, b: nat)
    requires IsRun(run, acts)
    ensures |run| > 0 && !Answered(run[0], b)
  {
  }

  /** Once the exit path is through, a boxed waker was woken, once, exactly if it was the one
      registered when FINISHED was published; one that was replaced or given up before never
      was. */
  lemma BoxWokenExactly(run: seq<State>, acts: seq<Action>, n: nat, b: nat)
    requires IsRun(run, acts) && n < |run| && run[n].exit == Exited && b < |run[n].boxes|
    ensures run[n].boxes[b].woken
            == if exists m: nat :: m < n && Publishes(run, m, AsyncWaker(b)) then 1 else 0
  {
    hide IsRun, WordOk, ResultOk;
    AnsweredExactly(run, acts, n, b);
    RunKeeps(run, acts, n);
    OneBox(run[n], b);
  }

  lemma CallStep(s: State, a: Action)
    requires WordOk(s) && ResultOk(s) && Enabled(s, a)
    ensures var s' := Apply(s, a);
            (s'.exit == WakeJoiner || s'.called > 0)
            <==> (s.exit == WakeJoiner || s.called > 0) || (s.word == AsyncJoiner && s'.word == Finished)
  {
    hide StepHandle;
    if a.HandleMove? { AnswerWord(s, a.fails); }
  }

  lemma AnswerWord(s: State, fails: bool)
    requires Enabled(s, HandleMove(fails))
    ensures var s' := StepHandle(s, fails); s'.exit == s.exit && s'.called == s.called && (s'.word == Finished ==> s.word == Finished)
  {
  }

  lemma {:induction false} CalledExactly(run: seq<State>, acts: seq<Action>, n: nat)
    requires IsRun(run, acts) && n < |run|
    ensures run[n].exit == WakeJoiner || run[n].called > 0 <==> exists m: nat :: m < n && Publishes(run, m, AsyncJoiner)
  {
    hide IsRun, Enabled, Apply, WordOk, ResultOk, BoxesOk;
    RunLength(run, acts);
    if n == 0 {
      NotCalledYet(run, acts);
    } else {
      CalledExactly(run, acts, n - 1);
      StepOf(run, acts, n - 1);
      RunKeeps(run, acts, n - 1);
      CallStep(run[n - 1], acts[n - 1]);
      if m: nat :| m < n && Publishes(run, m, AsyncJoiner) {
        assert m < n - 1 || m == n - 1;
      }
      if (run[n].exit == WakeJoiner || run[n].called > 0) && !(run[n - 1].exit == WakeJoiner || run[n - 1].called > 0) {
        assert Publishes(run, n - 1, AsyncJoiner);
      }
    }
  }

  lemma NotCalledYet(run: seq<State>, acts: seq<Action>)
    requires IsRun(run, acts)
    ensures |run| > 0 && run[0].exit != WakeJoiner && run[0].called == 0
  {
  }

  /** Likewise for a joiner that is a task of the system: it is taken up, once, exactly if it was
      registered when FINISHED was published. */
  lemma JoinerCalledExactly(run: seq<State>, acts: seq<Action>, n: nat)
    requires IsRun(run, acts) && n < |run| && run[n].exit == Exited
    ensures run[n].called == if exists m: nat :: m < n && Publishes(run, m, AsyncJoiner) then 1 else 0
  {
    hide IsRun, WordOk, BoxesOk;
    CalledExactly(run, acts, n);
    RunKeeps(run, acts, n);
  }

  /** Nothing but FINISHED replaced the registration `w` between states `i` and `n`. */
  ghost predicate Unreplaced(run: seq<State>, i: nat, n: nat, w: Word)
    requires n < |run|
  {
    forall j :: i <= j < n && run[j].word == w ==> run[j + 1].word == w || run[j + 1].word == Finished
  }

  lemma {:induction false} EndsPublished(run: seq<State>, acts: seq<Action>, i: nat, n: nat, w: Word)
    requires IsRun(run, acts) && i <= n < |run| && run[i].word == w && Unreplaced(run, i, n, w)
    ensures run[n].word == w || exists m: nat :: m < n && Publishes(run, m, w)
  {
    hide IsRun, Inv;
    if i < n {
      EndsPublished(run, acts, i, n - 1, w);
      if run[n - 1].word == w {
        assert run[n - 1 + 1].word == w || Publishes(run, n - 1, w);
      }
    }
  }

  /** A poll that answers Pending (step `i`) has registered the waker it was given: a foreign one,
      in the box it made, or the polling task itself.  If nobody replaces it, it has been woken
      (taken up) exactly once when the exit path is through. */
  lemma PendingPollIsAnswered(run: seq<State>, acts: seq<Action>, i: nat, n: nat)
    requires IsRun(run, acts) && i < n < |run| && run[i + 1].handle == Idle && acts[i].HandleMove?
    ensures run[i].handle.BoxCas? || run[i].handle.JoinerCas?
    ensures var w := if run[i].handle.BoxCas? then AsyncWaker(run[i].handle.b) else AsyncJoiner;
            && run[i + 1].word == w
            && (run[n].exit == Exited && Unreplaced(run, i + 1, n, w) ==>
                  if run[i].handle.BoxCas? then run[i].handle.b < |run[n].boxes| && run[n].boxes[run[i].handle.b].woken == 1
                  else run[n].called == 1)
  {
    hide IsRun, ResultOk, BoxesOk, Apply, Enabled, StepHandle;
    RunLength(run, acts);
    StepOf(run, acts, i);
    RegistersBeforePending(run[i], acts[i]);
    var w := if run[i].handle.BoxCas? then AsyncWaker(run[i].handle.b) else AsyncJoiner;
    RunKeeps(run, acts, n);
    if run[n].exit == Exited && Unreplaced(run, i + 1, n, w) {
      EndsPublished(run, acts, i + 1, n, w);
      assert run[n].word != w;
      if w.AsyncWaker? {
        AnsweredExactly(run, acts, n, w.b);
        BoxWokenExactly(run, acts, n, w.b);
      } else {
        JoinerCalledExactly(run, acts, n);
      }
    }
  }

  lemma RegistersBeforePending(s: State, a: Action)
    requires Enabled(s, a) && a.HandleMove? && Apply(s, a).handle == Idle
    ensures s.handle.BoxCas? || s.handle.JoinerCas?
    ensures Apply(s, a).word == if s.handle.BoxCas? then AsyncWaker(s.handle.b) else AsyncJoiner
  {
  }

  /** The value the task computed, and once the handle has taken it what it got, stay. */
  lemma {:induction false} ValueStays(run: seq<State>, acts: seq<Action>, i: nat, n: nat)
    requires IsRun(run, acts) && i <= n < |run|
    ensures run[i].made.Some? ==> run[n].made == run[i].made
    ensures run[i].handle == Free || run[i].handle == Gone ==>
              (run[n].handle == Free || run[n].handle == Gone) && run[n].got == run[i].got
  {
    hide IsRun, Enabled, Apply, WordOk, ResultOk, BoxesOk;
    RunLength(run, acts);
    if i < n {
      ValueStays(run, acts, i, n - 1);
      StepOf(run, acts, n - 1);
      RunKeeps(run, acts, n - 1);
      ValueStep(run[n - 1], acts[n - 1]);
    }
  }

  lemma ValueStep(s: State, a: Action)
    requires WordOk(s) && ResultOk(s) && Enabled(s, a)
    ensures var s' := Apply(s, a);
            && (s.made.Some? ==> s'.made == s.made)
            && (s.handle == Free || s.handle == Gone ==> (s'.handle == Free || s'.handle == Gone) && s'.got == s.got)
  {
    hide StepHandle;
    if a.HandleMove? { ValueHandle(s, a.fails); }
  }

  lemma ValueHandle(s: State, fails: bool)
    requires Enabled(s, HandleMove(fails))
    ensures var s' := StepHandle(s, fails);
            && s'.made == s.made
            && (s.handle == Free ==> s'.handle == Gone && s'.got == s.got)
  {
  }

  /** Whatever the closure or future returned (step `j`) is what a join or an await of the handle
      returns, which it does (step `m`) only with FINISHED published. */
  lemma HandleGetsTheValue(run: seq<State>, acts: seq<Action>, j: nat, m: nat, n: nat)
    requires IsRun(run, acts) && j < n < |run| && m < n && acts[j].Compute?
    requires run[m].handle == TakeResult && acts[m].HandleMove?
    ensures run[n].got == Some(acts[j].v) && run[m].word == Finished
  {
    hide IsRun, Apply, Enabled, WordOk, ResultOk, BoxesOk;
    RunLength(run, acts);
    StepOf(run, acts, j);
    Computed(run[j], acts[j]);
    StepOf(run, acts, m);
    RunKeeps(run, acts, m);
    Taken(run[m], acts[m]);
    ValueStays(run, acts, j + 1, n);
    ValueStays(run, acts, m, n);
    ValueStays(run, acts, m + 1, n);
  }

  lemma Computed(s: State, a: Action)
    requires Enabled(s, a) && a.Compute?
    ensures Apply(s, a).made == Some(a.v)
  {
  }

  lemma Taken(s: State, a: Action)
    requires WordOk(s) && ResultOk(s) && Enabled(s, a) && a.HandleMove? && s.handle == TakeResult
    ensures s.word == Finished && s.made.Some? && Apply(s, a).handle == Free && Apply(s, a).got == s.made
  {
  }

  /** How many steps the exit path has left. */
  function ExitLeft(e: Exit): nat {
    match e
    case Working => 7
    case LookJoiner => 6
    case LookAbandoned => 5
    case WriteResult => 4
    case WriteHandoff => 3
    case Settle => 3
    case Commit => 2
    case DropValue => 2
    case DropResult => 2
    case Exited => 0
    case _ => 1
  }

  /** How many steps an operation on the handle has left, while its compare-and-swaps succeed. */
  function HandleLeft(h: Handle): nat {
    match h
    case JoinLook => 5
    case JoinLoad => 4
    case BoxLoad => 4
    case JoinerLoad => 4
    case DropLoad => 4
    case JoinCas(_) => 3
    case BoxCas(_, _) => 3
    case JoinerCas(_) => 3
    case DropCas(_) => 3
    case TakeResult => 2
    case DiscardResult => 2
    case Free => 1
    case _ => 0
  }

  predicate FindsOther(h: Handle, w: Word) {
    (h.JoinCas? || h.BoxCas? || h.JoinerCas? || h.DropCas?) && h.seen != w
  }

  /** The exit path ends after at most six steps; and an operation on the handle after at most
      five, not counting compare-and-swaps that fail, each of which has the new word to go on with. */
  lemma PathsEnd(run: seq<State>, acts: seq<Action>, n: nat)
    requires IsRun(run, acts) && n < |acts|
    ensures |run| == |acts| + 1 && ExitLeft(run[n + 1].exit) <= ExitLeft(run[n].exit)
    ensures acts[n] == ExitMove ==> ExitLeft(run[n + 1].exit) < ExitLeft(run[n].exit)
    ensures acts[n] == HandleMove(false) ==>
              HandleLeft(run[n + 1].handle) < HandleLeft(run[n].handle) || FindsOther(run[n].handle, run[n].word)
    ensures acts[n].HandleMove? && FindsOther(run[n].handle, run[n].word) ==> !FindsOther(run[n + 1].handle, run[n + 1].word)
  {
    hide IsRun, Inv, StepExit, StepHandle;
    RunLength(run, acts);
    StepOf(run, acts, n);
    match acts[n]
    case ExitMove => ExitShortens(run[n]);
    case HandleMove(fails) => HandleLeavesExit(run[n], fails); HandleShortens(run[n], fails);
    case _ =>
  }

  lemma ExitShortens(s: State)
    requires Enabled(s, ExitMove)
    ensures ExitLeft(StepExit(s).exit) < ExitLeft(s.exit)
  {
  }

  lemma HandleShortens(s: State, fails: bool)
    requires Enabled(s, HandleMove(fails))
    ensures FindsOther(s.handle, s.word) ==> !FindsOther(StepHandle(s, fails).handle, StepHandle(s, fails).word)
    ensures !fails ==> HandleLeft(StepHandle(s, fails).handle) < HandleLeft(s.handle) || FindsOther(s.handle, s.word)
  {
  }

  lemma HandleLeavesExit(s: State, fails: bool)
    ensures StepHandle(s, fails).exit == s.exit
  {
  }

  // ---------------------------------------------------------------------------
  // Short cuts
  // ---------------------------------------------------------------------------

  /** On the way from a stackful task straight to its parked joiner. */
  predicate HandsOver(e: Exit) { e == WriteHandoff || e == Commit || e == Switched }

  /** On the way of a stackful task nobody will ever join: no result is written. */
  predicate Abandons(e: Exit) { e == DropValue || e == FreeEarly }

  /** Only a stackful task looks before it writes its result, and it always does; it switches
      straight to its joiner exactly if that one is parked by then, and writes no result exactly if
      its handle is dropped by then.  A join that finds the task finished at once does not suspend. */
  lemma ShortCuts(run: seq<State>, acts: seq<Action>, n: nat)
    requires IsRun(run, acts) && n < |acts|
    ensures |run| == |acts| + 1
    ensures acts[n].Compute? ==>
              run[n].exit == Working && run[n + 1].exit == (if run[n].flavour == Stackful then LookJoiner else WriteResult)
    ensures HandsOver(run[n + 1].exit) && !HandsOver(run[n].exit)
            <==> acts[n] == ExitMove && run[n].exit == LookJoiner && run[n].word == SyncJoiner
    ensures Abandons(run[n + 1].exit) && !Abandons(run[n].exit)
            <==> acts[n] == ExitMove && run[n].exit == LookAbandoned && run[n].word == Detached
    ensures acts[n].HandleMove? && run[n].handle == JoinLook ==>
              run[n + 1].handle == (if run[n].word == Finished then TakeResult else JoinLoad)
    ensures acts[n].Begin? ==> run[n + 1].handle == acts[n].op
  {
    hide IsRun, Inv;
    RunLength(run, acts);
    StepOf(run, acts, n);
    hide StepHandle;
    if acts[n].HandleMove? { LeavesExit(run[n], acts[n].fails); }
  }

  lemma LeavesExit(s: State, fails: bool)
    requires Enabled(s, HandleMove(fails))
    ensures StepHandle(s, fails).exit == s.exit
    ensures s.handle == JoinLook ==> StepHandle(s, fails).handle == (if s.word == Finished then TakeResult else JoinLoad)
  {
  }
}
