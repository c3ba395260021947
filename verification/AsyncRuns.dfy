/** What wakes, awaits and polls of `AsyncTasks` lead to, over whole runs and without the history
    variables of its states: a wake is answered by a poll, a finished child by its parent's poll, a
    task ends exactly when its future is ready, and every loop moves on. */
module AsyncRuns {
  import opened Basics
  import opened AsyncTasks

  // ---------------------------------------------------------------------------
  // Polls and wakes, as steps
  // ---------------------------------------------------------------------------

  /** The step from `s` to `s'` begins a poll of `t`: a loop that was about to start on it, or that
      found a wake when a `block_on` was about to park, is now inside its `poll`. */
  predicate PollBegins(s: State, s': State, a: Action, t: nat) {
    && a.Move? && HasTop(s, a.w) && HasTop(s', a.w)
    && TopOf(s.ws[a.w]).task == t && TopOf(s'.ws[a.w]).task == t && TopOf(s'.ws[a.w]).pc == Polling
    && (TopOf(s.ws[a.w]).pc == Start || TopOf(s.ws[a.w]).pc.ParkingCas?)
  }

  ghost predicate PollBegan(run: seq<State>, acts: seq<Action>, i: nat, n: nat, t: nat)
    requires |run| == |acts| + 1 && n <= |acts|
  {
    exists j: nat :: i <= j < n && PollBegins(run[j], run[j + 1], acts[j], t)
  }

  lemma BeganMore(run: seq<State>, acts: seq<Action>, i: nat, n: nat, i': nat, n': nat, t: nat)
    requires |run| == |acts| + 1 && i' <= i <= n <= n' <= |acts|
    ensures PollBegan(run, acts, i, n, t) ==> PollBegan(run, acts, i', n', t)
  {
    hide PollBegins;
    if j: nat :| i <= j < n && PollBegins(run[j], run[j + 1], acts[j], t) {
      assert i' <= j < n';
    }
  }

  lemma BeganLast(run: seq<State>, acts: seq<Action>, i: nat, n: nat, t: nat)
    requires |run| == |acts| + 1 && i < n <= |acts|
    ensures PollBegan(run, acts, i, n, t)
            <==> PollBegan(run, acts, i, n - 1, t) || PollBegins(run[n - 1], run[n], acts[n - 1], t)
  {
    hide PollBegins;
    if j: nat :| i <= j < n && PollBegins(run[j], run[j + 1], acts[j], t) {
      assert j < n - 1 || j == n - 1;
    }
    if PollBegins(run[n - 1], run[n], acts[n - 1], t) {
      assert PollBegins(run[n - 1], run[n - 1 + 1], acts[n - 1], t);
    }
  }

  /** The step is the one at which a wake of `t` takes effect: a waker's load or compare-and-swap
      that settles the matter, or that of a loop that finished a child of `t`. */
  predicate Rings(s: State, s': State, a: Action, t: nat) {
    match a
    case WakeBegin(k, u) => u == t && k < |s'.ks| && s'.ks[k] == Quiet
    case WakeCas(k, _) => k < |s.ks| && s.ks[k].Loaded? && s.ks[k].t == t && k < |s'.ks| && !s'.ks[k].Loaded?
    case Move(w, _) =>
      HasTop(s, w) && Claims(TopOf(s.ws[w]).pc, t) && !(HasTop(s', w) && Claims(TopOf(s'.ws[w]).pc, t))
    case _ => false
  }

  predicate Claims(pc: Pc, t: nat) { (pc.Claim? && pc.p == t) || (pc.ClaimCas? && pc.p == t) }

  predicate WokenAt(s: State, t: nat) { Known(s, t) && s.tasks[t].woken }

  // The mark `woken` changes at those steps only.

  predicate WokenFits(s: State, s': State, a: Action, t: nat) {
    && Known(s, t) && Known(s', t)
    && (s.tasks[t].woken ==> s'.tasks[t].woken || PollBegins(s, s', a, t))
    && (Rings(s, s', a, t) ==> s'.tasks[t].woken)
    && (s'.tasks[t].woken ==> s.tasks[t].woken || Rings(s, s', a, t))
    && (PollBegins(s, s', a, t) ==> !s'.tasks[t].woken)
  }

  lemma WokenStep(s: State, a: Action, t: nat)
    requires Inv(s) && Enabled(s, a) && Known(s, t)
    ensures WokenFits(s, Apply(s, a), a, t)
  {
    hide Inv, StepMove, StepPop, StepLoad, StepWake, StepOverwrite;
    match a
    case Move(w, fails) => WokenMove(s, w, fails, t);
    case Pop(w, x) => PopTasks(s, w, x);
    case WakeBegin(k, u) => WokenLoad(s, k, u, t);
    case WakeCas(k, fails) => WokenCas(s, k, fails, t);
    case Overwrite(c, detach) => WokenOverwrite(s, c, detach, t);
    case _ =>
  }

  lemma PopTasks(s: State, w: nat, x: Option<nat>)
    requires Enabled(s, Pop(w, x))
    ensures StepPop(s, w, x).tasks == s.tasks
  {
  }

  lemma WokenLoad(s: State, k: nat, u: nat, t: nat)
    requires k < |s.ks| && Known(s, u) && Known(s, t)
    ensures var s' := StepLoad(s, k, u);
            && Known(s', t) && |s'.ks| == |s.ks|
            && (s'.tasks[t].woken <==> s.tasks[t].woken || (u == t && s'.ks[k] == Quiet))
            && (s'.ks[k] == Quiet || (s'.ks[k].Loaded? && s'.ks[k].t == u))
  {
  }

  lemma WokenCas(s: State, k: nat, fails: bool, t: nat)
    requires k < |s.ks| && s.ks[k].Loaded? && Known(s, s.ks[k].t) && Known(s, t)
    ensures var s' := StepWake(s, k, fails);
            && Known(s', t) && |s'.ks| == |s.ks|
            && (s'.tasks[t].woken <==> s.tasks[t].woken || (s.ks[k].t == t && !s'.ks[k].Loaded?))
            && (s'.ks[k].Loaded? ==> s'.ks[k].t == s.ks[k].t)
  {
    hide StepLoad;
    WokenLoad(s, k, s.ks[k].t, t);
  }

  lemma WokenOverwrite(s: State, c: nat, detach: bool, t: nat)
    requires Known(s, c) && Known(s, t)
    ensures Known(StepOverwrite(s, c, detach), t) && StepOverwrite(s, c, detach).tasks[t].woken == s.tasks[t].woken
  {
  }

  lemma WokenMove(s: State, w: nat, fails: bool, t: nat)
    requires Inv(s) && Enabled(s, Move(w, fails)) && Known(s, t)
    ensures WokenFits(s, StepMove(s, w, fails), Move(w, fails), t)
  {
    TopOk(s, w);
    hide Inv, StepMove, WokenFits;
    match TopOf(s.ws[w]).pc
    case Start => StartFits(s, w, fails, t);
    case ParkingCas(_) => ParkFits(s, w, fails, t);
    case Claim(_) => ClaimFits(s, w, fails, t);
    case ClaimCas(_, _) => ClaimFits(s, w, fails, t);
    case _ => RestFits(s, w, fails, t);
  }

  lemma StartFits(s: State, w: nat, fails: bool, t: nat)
    requires Enabled(s, Move(w, fails)) && Known(s, t) && TopOf(s.ws[w]).pc == Start
    ensures WokenFits(s, StepMove(s, w, fails), Move(w, fails), t)
  {
    hide StepMove;
    WokenStart(s, w, fails, t);
  }

  lemma ParkFits(s: State, w: nat, fails: bool, t: nat)
    requires Enabled(s, Move(w, fails)) && Known(s, t) && TopOf(s.ws[w]).pc.ParkingCas?
    ensures WokenFits(s, StepMove(s, w, fails), Move(w, fails), t)
  {
    hide StepMove;
    WokenPark(s, w, fails, t);
  }

  lemma ClaimFits(s: State, w: nat, fails: bool, t: nat)
    requires Enabled(s, Move(w, fails)) && Known(s, t) && (TopOf(s.ws[w]).pc.Claim? || TopOf(s.ws[w]).pc.ClaimCas?)
    ensures WokenFits(s, StepMove(s, w, fails), Move(w, fails), t)
  {
    hide StepMove;
    WokenClaim(s, w, fails, t);
  }

  lemma RestFits(s: State, w: nat, fails: bool, t: nat)
    requires Enabled(s, Move(w, fails)) && Known(s, t)
    requires var pc := TopOf(s.ws[w]).pc; pc != Start && !pc.ParkingCas? && !pc.Claim? && !pc.ClaimCas?
    ensures WokenFits(s, StepMove(s, w, fails), Move(w, fails), t)
  {
    hide StepMove;
    if TopOf(s.ws[w]).pc.RegisterCas? { WokenRegister(s, w, fails, t); } else { WokenRest(s, w, fails, t); }
  }

  lemma WokenStart(s: State, w: nat, fails: bool, t: nat)
    requires Enabled(s, Move(w, fails)) && Known(s, t) && TopOf(s.ws[w]).pc == Start
    ensures var s' := StepMove(s, w, fails);
            && Known(s', t) && HasTop(s', w) && TopOf(s'.ws[w]) == TopOf(s.ws[w]).(pc := Polling)
            && (s'.tasks[t].woken <==> s.tasks[t].woken && t != TopOf(s.ws[w]).task)
  {
  }

  lemma WokenPark(s: State, w: nat, fails: bool, t: nat)
    requires Enabled(s, Move(w, fails)) && Known(s, t) && TopOf(s.ws[w]).pc.ParkingCas?
    ensures var s' := StepMove(s, w, fails);
            && Known(s', t) && HasTop(s', w) && TopOf(s'.ws[w]).task == TopOf(s.ws[w]).task
            && !Claims(TopOf(s'.ws[w]).pc, t)
            && (s'.tasks[t].woken <==> s.tasks[t].woken && !(t == TopOf(s.ws[w]).task && TopOf(s'.ws[w]).pc == Polling))
  {
  }

  lemma WokenClaim(s: State, w: nat, fails: bool, t: nat)
    requires Enabled(s, Move(w, fails)) && Known(s, t) && (TopOf(s.ws[w]).pc.Claim? || TopOf(s.ws[w]).pc.ClaimCas?)
    ensures var s', p := StepMove(s, w, fails), TopOf(s.ws[w]).pc.p;
            && Known(s', t) && HasTop(s', w)
            && (Claims(TopOf(s'.ws[w]).pc, p) || (!TopOf(s'.ws[w]).pc.Claim? && !TopOf(s'.ws[w]).pc.ClaimCas?))
            && (s'.tasks[t].woken <==> s.tasks[t].woken || (p == t && !Claims(TopOf(s'.ws[w]).pc, p)))
  {
  }

  lemma WokenRegister(s: State, w: nat, fails: bool, t: nat)
    requires Enabled(s, Move(w, fails)) && Known(s, t) && TopOf(s.ws[w]).pc.RegisterCas?
    ensures Known(StepMove(s, w, fails), t) && StepMove(s, w, fails).tasks[t].woken == s.tasks[t].woken
  {
    hide StepRegister;
    RegisterMarks(s, w, TopOf(s.ws[w]).pc.c, t);
  }

  lemma RegisterMarks(s: State, w: nat, c: nat, t: nat)
    requires HasTop(s, w) && Known(s, c) && Known(s, t)
    ensures Known(StepRegister(s, w, c), t) && StepRegister(s, w, c).tasks[t].woken == s.tasks[t].woken
  {
    hide Unhook, StepOverwrite;
    Unhooks(s, c);
    WokenOverwrite(s, c, false, t);
  }

  lemma WokenRest(s: State, w: nat, fails: bool, t: nat)
    requires Enabled(s, Move(w, fails)) && Known(s, t)
    requires var pc := TopOf(s.ws[w]).pc;
             pc != Start && !pc.ParkingCas? && !pc.Claim? && !pc.ClaimCas? && !pc.RegisterCas?
    ensures Known(StepMove(s, w, fails), t) && StepMove(s, w, fails).tasks[t].woken == s.tasks[t].woken
  {
  }

  // ---------------------------------------------------------------------------
  // A wake is answered by a poll
  // ---------------------------------------------------------------------------

  /** Woken at state `i`, a task is so until its next poll begins. */
  lemma {:induction false} WokenLasts(run: seq<State>, acts: seq<Action>, i: nat, n: nat, t: nat)
    requires IsRun(run, acts) && i <= n < |run| && WokenAt(run[i], t)
    ensures |run| == |acts| + 1 && Known(run[n], t)
    ensures run[n].tasks[t].woken || PollBegan(run, acts, i, n, t)
  {
    hide IsRun, Inv, Enabled, Apply, PollBegins, PollBegan, Rings;
    RunLength(run, acts);
    if i < n {
      WokenLasts(run, acts, i, n - 1, t);
      StepOf(run, acts, n - 1);
      RunKeeps(run, acts, n - 1);
      WokenStep(run[n - 1], acts[n - 1], t);
      BeganLast(run, acts, i, n, t);
    }
  }

  /** A waking thread that is in its loop for `t` stays there or rings. */
  lemma RingStep(s: State, a: Action, k: nat, t: nat)
    requires Inv(s) && Enabled(s, a) && k < |s.ks| && s.ks[k].Loaded? && s.ks[k].t == t
    ensures var s' := Apply(s, a);
            && Known(s, t) && k < |s'.ks|
            && ((s'.ks[k].Loaded? && s'.ks[k].t == t) || Rings(s, s', a, t))
  {
    hide OwnersOk, JoinsOk, StackOk, StepMove, StepPop, StepLoad, StepWake, StepOverwrite;
    match a
    case Move(w, fails) => MoveKeepsWakers(s, w, fails);
    case Pop(w, x) => PopKeepsWakers(s, w, x);
    case WakeBegin(j, u) => LoadKeepsWakers(s, j, u);
    case WakeCas(j, fails) => CasKeepsWakers(s, j, fails);
    case Overwrite(c, detach) => OverwriteKeepsWakers(s, c, detach);
    case _ =>
  }

  lemma MoveKeepsWakers(s: State, w: nat, fails: bool)
    requires Enabled(s, Move(w, fails))
    ensures StepMove(s, w, fails).ks == s.ks
  {
  }

  lemma PopKeepsWakers(s: State, w: nat, x: Option<nat>)
    requires Enabled(s, Pop(w, x))
    ensures StepPop(s, w, x).ks == s.ks
  {
  }

  lemma LoadKeepsWakers(s: State, k: nat, u: nat)
    requires k < |s.ks| && Known(s, u)
    ensures var s' := StepLoad(s, k, u);
            |s'.ks| == |s.ks| && s'.ks == s.ks[k := s'.ks[k]] && (s'.ks[k] == Quiet || (s'.ks[k].Loaded? && s'.ks[k].t == u))
  {
  }

  lemma CasKeepsWakers(s: State, k: nat, fails: bool)
    requires k < |s.ks| && s.ks[k].Loaded? && Known(s, s.ks[k].t)
    ensures var s' := StepWake(s, k, fails);
            |s'.ks| == |s.ks| && s'.ks == s.ks[k := s'.ks[k]] && (s'.ks[k].Loaded? ==> s'.ks[k].t == s.ks[k].t)
  {
    hide StepLoad;
    LoadKeepsWakers(s, k, s.ks[k].t);
  }

  lemma OverwriteKeepsWakers(s: State, c: nat, detach: bool)
    requires Known(s, c)
    ensures StepOverwrite(s, c, detach).ks == s.ks
  {
  }

  lemma {:induction false} CallRings(run: seq<State>, acts: seq<Action>, i: nat, m: nat, k: nat, t: nat)
    requires IsRun(run, acts) && i < m < |run| && acts[i] == WakeBegin(k, t)
    ensures |run| == |acts| + 1 && Known(run[m], t) && k < |run[m].ks|
    ensures (run[m].ks[k].Loaded? && run[m].ks[k].t == t) || run[m].tasks[t].woken || PollBegan(run, acts, i, m, t)
  {
    hide IsRun, Inv, Enabled, Apply, PollBegins, PollBegan, Rings;
    RunLength(run, acts);
    StepOf(run, acts, m - 1);
    RunKeeps(run, acts, m - 1);
    if m == i + 1 {
      CallBegins(run[i], k, t);
    } else {
      CallRings(run, acts, i, m - 1, k, t);
      WokenStep(run[m - 1], acts[m - 1], t);
      BeganLast(run, acts, i, m, t);
      CallGoesOn(run[m - 1], acts[m - 1], k, t);
    }
  }

  lemma CallBegins(s: State, k: nat, t: nat)
    requires Enabled(s, WakeBegin(k, t))
    ensures var s' := Apply(s, WakeBegin(k, t));
            && Known(s', t) && k < |s'.ks| && ((s'.ks[k].Loaded? && s'.ks[k].t == t) || s'.tasks[t].woken)
  {
  }

  lemma CallGoesOn(s: State, a: Action, k: nat, t: nat)
    requires Inv(s) && Enabled(s, a) && k < |s.ks|
    ensures k < |Apply(s, a).ks|
    ensures s.ks[k].Loaded? && s.ks[k].t == t ==>
              (Apply(s, a).ks[k].Loaded? && Apply(s, a).ks[k].t == t) || Rings(s, Apply(s, a), a, t)
  {
    hide Inv, Rings, StepMove, StepPop, StepLoad, StepWake, StepOverwrite;
    if s.ks[k].Loaded? { RingStep(s, a, k, s.ks[k].t); }
    WakersStay(s, a);
    hide Apply, Enabled;
  }

  lemma WakersStay(s: State, a: Action)
    requires Enabled(s, a)
    ensures |Apply(s, a).ks| == |s.ks|
  {
    hide StepMove, StepPop, StepLoad, StepWake, StepOverwrite;
    match a
    case Move(w, fails) => MoveKeepsWakers(s, w, fails);
    case Pop(w, x) => PopKeepsWakers(s, w, x);
    case WakeBegin(j, u) => LoadKeepsWakers(s, j, u);
    case WakeCas(j, fails) => CasKeepsWakers(s, j, fails);
    case Overwrite(c, detach) => OverwriteKeepsWakers(s, c, detach);
    case _ =>
  }

  /** A call of `wake` on `t` (begun at step `i`, out of its loop at state `m`) leads to a poll of
      `t`: at every later state `n` the task is done, or a poll of it has begun since, or one is
      due. */
  lemma WakeLeadsToPoll(run: seq<State>, acts: seq<Action>, i: nat, m: nat, n: nat, k: nat, t: nat)
    requires IsRun(run, acts) && i < m <= n < |run| && acts[i] == WakeBegin(k, t)
    requires k < |run[m].ks| && !run[m].ks[k].Loaded?
    ensures |run| == |acts| + 1 && Known(run[n], t)
    ensures run[n].tasks[t].done || PollBegan(run, acts, i, n, t) || PollDue(run[n], t)
  {
    hide IsRun, PollDue, PollBegan;
    CallRings(run, acts, i, m, k, t);
    Answered(run, acts, i, m, n, t);
  }

  lemma Answered(run: seq<State>, acts: seq<Action>, i: nat, m: nat, n: nat, t: nat)
    requires IsRun(run, acts) && i <= m <= n < |run| && |run| == |acts| + 1 && Known(run[m], t)
    requires run[m].tasks[t].woken || PollBegan(run, acts, i, m, t)
    ensures Known(run[n], t)
    ensures run[n].tasks[t].done || PollBegan(run, acts, i, n, t) || PollDue(run[n], t)
  {
    hide IsRun, PollDue, PollBegan;
    TasksStay(run, acts, m, n, t);
    BeganMore(run, acts, i, m, i, n, t);
    BeganMore(run, acts, m, n, i, n, t);
    if run[m].tasks[t].woken {
      WokenLasts(run, acts, m, n, t);
      if run[n].tasks[t].woken && !run[n].tasks[t].done { NoWakeIsLost(run, acts, n, t); }
    }
  }

  lemma {:induction false} TasksStay(run: seq<State>, acts: seq<Action>, i: nat, n: nat, t: nat)
    requires IsRun(run, acts) && i <= n < |run| && Known(run[i], t)
    ensures Known(run[n], t)
  {
    hide IsRun, Inv, Enabled, Apply, PollBegins, Rings;
    RunLength(run, acts);
    if i < n {
      TasksStay(run, acts, i, n - 1, t);
      StepOf(run, acts, n - 1);
      RunKeeps(run, acts, n - 1);
      WokenStep(run[n - 1], acts[n - 1], t);
    }
  }

  // ---------------------------------------------------------------------------
  // Before the first poll
  // ---------------------------------------------------------------------------

  /** Task `t`, not polled yet, is left as it is, or its first poll begins. */
  predicate StaysIdle(s: State, s': State, a: Action, t: nat) {
    && Known(s, t) && Known(s', t) && s'.tasks[t].kind == s.tasks[t].kind
    && (s.tasks[t].wake == IDLE ==> s'.tasks[t].wake == IDLE || PollBegins(s, s', a, t))
  }

  lemma IdleStep(s: State, a: Action, t: nat)
    requires Inv(s) && Enabled(s, a)
    ensures Known(s, t) ==> StaysIdle(s, Apply(s, a), a, t)
    ensures !Known(s, t) && Known(Apply(s, a), t) && Apply(s, a).tasks[t].kind == Spawned ==> Apply(s, a).tasks[t].wake == IDLE
  {
    hide Inv, StepMove, StepPop, StepLoad, StepWake, StepOverwrite;
    match a
    case Move(w, fails) => IdleMove(s, w, fails, t);
    case Pop(w, x) => PopTasks(s, w, x);
    case WakeBegin(k, u) => IdleWake(s, k, u, false, t);
    case WakeCas(k, fails) => IdleWake(s, k, s.ks[k].t, fails, t);
    case Overwrite(c, detach) => IdleOverwrite(s, c, detach, t);
    case _ =>
  }

  lemma IdleWake(s: State, k: nat, u: nat, fails: bool, t: nat)
    requires k < |s.ks| && Known(s, u)
    ensures SameIdle(s, StepLoad(s, k, u), t)
    ensures s.ks[k].Loaded? && Known(s, s.ks[k].t) ==> SameIdle(s, StepWake(s, k, fails), t)
  {
  }

  /** The step makes no task, and wakes none that was IDLE. */
  predicate SameIdle(s: State, s': State, t: nat) {
    && |s'.tasks| == |s.tasks|
    && (Known(s, t) ==> s'.tasks[t].kind == s.tasks[t].kind && (s.tasks[t].wake == IDLE ==> s'.tasks[t].wake == IDLE))
  }

  lemma IdleOverwrite(s: State, c: nat, detach: bool, t: nat)
    requires Known(s, c)
    ensures SameIdle(s, StepOverwrite(s, c, detach), t)
  {
  }

  lemma IdleRegister(s: State, w: nat, c: nat, t: nat)
    requires HasTop(s, w) && Known(s, c)
    ensures SameIdle(s, StepRegister(s, w, c), t)
  {
    hide Unhook, StepOverwrite;
    Unhooks(s, c);
    IdleOverwrite(s, c, false, t);
  }

  lemma IdleMove(s: State, w: nat, fails: bool, t: nat)
    requires Inv(s) && Enabled(s, Move(w, fails))
    ensures |StepMove(s, w, fails).tasks| == |s.tasks|
    ensures Known(s, t) ==> StaysIdle(s, StepMove(s, w, fails), Move(w, fails), t)
  {
    TopOk(s, w);
    hide Inv, StepMove;
    if TopOf(s.ws[w]).pc == Start {
      IdleStart(s, w, fails, t);
    } else {
      IdleElse(s, w, fails, t);
    }
  }

  lemma IdleStart(s: State, w: nat, fails: bool, t: nat)
    requires Enabled(s, Move(w, fails)) && TopOf(s.ws[w]).pc == Start
    ensures |StepMove(s, w, fails).tasks| == |s.tasks|
    ensures Known(s, t) ==> StaysIdle(s, StepMove(s, w, fails), Move(w, fails), t)
  {
  }

  lemma IdleElse(s: State, w: nat, fails: bool, t: nat)
    requires Enabled(s, Move(w, fails)) && TopOf(s.ws[w]).pc != Start && FrameOk(s, TopOf(s.ws[w]))
    ensures SameIdle(s, StepMove(s, w, fails), t)
  {
    hide StepRegister;
    match TopOf(s.ws[w]).pc
    case RegisterCas(c, _) => IdleRegister(s, w, c, t);
    case _ =>
  }

  /** A spawned task whose first poll has not begun is IDLE: wakes of it do nothing, as the poll is
      yet to come. */
  lemma {:induction false} IdleUntilPolled(run: seq<State>, acts: seq<Action>, n: nat, t: nat)
    requires IsRun(run, acts) && n < |run| && Known(run[n], t) && run[n].tasks[t].kind == Spawned
    ensures |run| == |acts| + 1 && (run[n].tasks[t].wake == IDLE || PollBegan(run, acts, 0, n, t))
  {
    hide IsRun, Inv, Enabled, Apply, PollBegins, PollBegan;
    RunLength(run, acts);
    if n == 0 {
      NoTasksYet(run, acts);
    } else {
      StepOf(run, acts, n - 1);
      RunKeeps(run, acts, n - 1);
      IdleStep(run[n - 1], acts[n - 1], t);
      BeganLast(run, acts, 0, n, t);
      if Known(run[n - 1], t) { IdleUntilPolled(run, acts, n - 1, t); }
    }
  }

  lemma NoTasksYet(run: seq<State>, acts: seq<Action>)
    requires IsRun(run, acts)
    ensures |run| > 0 && run[0].tasks == []
  {
  }

  // ---------------------------------------------------------------------------
  // A task parks exactly if nobody rang
  // ---------------------------------------------------------------------------

  ghost predicate RungIn(run: seq<State>, acts: seq<Action>, i: nat, n: nat, t: nat)
    requires |run| == |acts| + 1 && n <= |acts|
  {
    exists j: nat :: i < j < n && Rings(run[j], run[j + 1], acts[j], t)
  }

  /** While no further poll of it begins, the mark says whether a wake took effect since the poll
      that began at step `i`. */
  lemma {:induction false} WokenTells(run: seq<State>, acts: seq<Action>, i: nat, n: nat, t: nat)
    requires IsRun(run, acts) && i < n < |run| && |run| == |acts| + 1 && Known(run[i], t)
    requires PollBegins(run[i], run[i + 1], acts[i], t) && !PollBegan(run, acts, i + 1, n, t)
    ensures Known(run[n], t) && (run[n].tasks[t].woken <==> RungIn(run, acts, i, n, t))
  {
    hide IsRun, Inv, Enabled, Apply, PollBegins, PollBegan, Rings, RungIn;
    TasksStay(run, acts, i, n - 1, t);
    StepOf(run, acts, n - 1);
    RunKeeps(run, acts, n - 1);
    WokenStep(run[n - 1], acts[n - 1], t);
    RungLast(run, acts, i, n, t);
    if n > i + 1 {
      BeganLast(run, acts, i + 1, n, t);
      WokenTells(run, acts, i, n - 1, t);
    }
  }

  lemma RungLast(run: seq<State>, acts: seq<Action>, i: nat, n: nat, t: nat)
    requires |run| == |acts| + 1 && i < n <= |acts|
    ensures RungIn(run, acts, i, n, t)
            <==> n > i + 1 && (RungIn(run, acts, i, n - 1, t) || Rings(run[n - 1], run[n], acts[n - 1], t))
  {
    hide Rings;
    if j: nat :| i < j < n && Rings(run[j], run[j + 1], acts[j], t) {
      assert j < n - 1 || j == n - 1;
    }
    if n > i + 1 && Rings(run[n - 1], run[n], acts[n - 1], t) {
      assert Rings(run[n - 1], run[n - 1 + 1], acts[n - 1], t);
    }
  }

  /** The compare-and-swap after a poll that returned Pending (step `n`, of the poll begun at step
      `i`) parks a spawned future exactly if no wake of it took effect during the poll, and else
      sends it through the queue to its next poll; a `block_on` parks only then. */
  lemma ParksExactlyIfNotRung(run: seq<State>, acts: seq<Action>, i: nat, n: nat, w: nat, t: nat)
    requires IsRun(run, acts) && i < n < |acts| && acts[n].Move? && acts[n].w == w
    requires Known(run[i], t) && PollBegins(run[i], run[i + 1], acts[i], t) && |run| == |acts| + 1
    requires !PollBegan(run, acts, i + 1, n, t)
    requires HasTop(run[n], w) && TopOf(run[n].ws[w]).task == t && TopOf(run[n].ws[w]).pc.ParkingCas?
    requires HasTop(run[n + 1], w) && !TopOf(run[n + 1].ws[w]).pc.ParkingCas?
    ensures Known(run[n + 1], t)
    ensures run[n + 1].tasks[t].wake == PARKED ==> !RungIn(run, acts, i, n, t)
    ensures run[n + 1].tasks[t].kind == Spawned ==>
              if RungIn(run, acts, i, n, t) then TopOf(run[n + 1].ws[w]).pc == Restore(true) else run[n + 1].tasks[t].wake == PARKED
  {
    hide IsRun, PollBegins, PollBegan, RungIn;
    WokenTells(run, acts, i, n, t);
    StepOf(run, acts, n);
    RunKeeps(run, acts, n);
    TopOk(run[n], w);
    hide Inv;
    ParkOutcome(run[n], w, acts[n].fails);
  }

  lemma ParkOutcome(s: State, w: nat, fails: bool)
    requires Enabled(s, Move(w, fails)) && TopOf(s.ws[w]).pc.ParkingCas? && FrameOk(s, TopOf(s.ws[w]))
    ensures var s', t := StepMove(s, w, fails), TopOf(s.ws[w]).task;
            && Known(s', t) && HasTop(s', w) && s'.tasks[t].kind == s.tasks[t].kind
            && (!TopOf(s'.ws[w]).pc.ParkingCas? ==>
                  && (s'.tasks[t].wake == PARKED ==> !s.tasks[t].woken)
                  && (s.tasks[t].kind == Spawned ==>
                        if s.tasks[t].woken then TopOf(s'.ws[w]).pc == Restore(true) else s'.tasks[t].wake == PARKED))
  {
  }

  // ---------------------------------------------------------------------------
  // A task ends exactly when its future is ready
  // ---------------------------------------------------------------------------

  /** The poll of `t` returns Ready. */
  predicate ReturnsReady(s: State, a: Action, t: nat) {
    a.UserReturn? && a.ready && HasTop(s, a.w) && TopOf(s.ws[a.w]).task == t
  }

  predicate EndsTask(f: Frame, t: nat) { f.task == t && (f.pc == Ending || f.pc == Settle) }

  /** The task is done, or its loop is bringing it to its end. */
  ghost predicate Over(s: State, t: nat) {
    || (Known(s, t) && s.tasks[t].done)
    || exists w: nat, i: nat :: w < |s.ws| && i < |s.ws[w].frames| && EndsTask(s.ws[w].frames[i], t)
  }

  /** The step changed no more than the top loop of worker `w`, which it ended or moved, not into
      an end, and finished no task. */
  ghost predicate Quietly(s: State, s': State, w: nat)
    requires HasTop(s, w)
  {
    var fs := s.ws[w].frames;
    && |s'.ws| == |s.ws| && s'.ws == s.ws[w := s'.ws[w]] && SameDone(s, s')
    && (s'.ws[w].frames == fs[..|fs| - 1]
        || (HasTop(s', w) && s'.ws[w].frames == fs[..|fs| - 1] + [TopOf(s'.ws[w])]
            && TopOf(s'.ws[w]).pc != Ending && TopOf(s'.ws[w]).pc != Settle))
  }

  ghost predicate SameDone(s: State, s': State) {
    |s.tasks| == |s'.tasks| && forall t: nat :: Known(s, t) ==> s'.tasks[t].done == s.tasks[t].done
  }

  lemma QuietlyOver(s: State, s': State, w: nat, t: nat)
    requires HasTop(s, w) && Quietly(s, s', w) && TopOf(s.ws[w]).pc != Ending && TopOf(s.ws[w]).pc != Settle
    ensures Over(s', t) <==> Over(s, t)
  {
    if v: nat, i: nat :| v < |s.ws| && i < |s.ws[v].frames| && EndsTask(s.ws[v].frames[i], t) {
      assert s'.ws[v].frames[i] == s.ws[v].frames[i];
    }
    if v: nat, i: nat :| v < |s'.ws| && i < |s'.ws[v].frames| && EndsTask(s'.ws[v].frames[i], t) {
      assert s.ws[v].frames[i] == s'.ws[v].frames[i];
    }
  }

  lemma QuietMove(s: State, w: nat, fails: bool)
    requires Enabled(s, Move(w, fails)) && TopOf(s.ws[w]).pc != Ending && TopOf(s.ws[w]).pc != Settle
    ensures Quietly(s, StepMove(s, w, fails), w)
  {
    match TopOf(s.ws[w]).pc
    case ParkingCas(_) => QuietPark(s, w, fails);
    case Claim(_) => QuietClaim(s, w, fails);
    case ClaimCas(_, _) => QuietClaim(s, w, fails);
    case RegisterCas(_, _) => QuietRegister(s, w, fails);
    case _ => QuietRest(s, w, fails);
  }

  lemma QuietPark(s: State, w: nat, fails: bool)
    requires Enabled(s, Move(w, fails)) && TopOf(s.ws[w]).pc.ParkingCas?
    ensures Quietly(s, StepMove(s, w, fails), w)
  {
  }

  lemma QuietClaim(s: State, w: nat, fails: bool)
    requires Enabled(s, Move(w, fails)) && (TopOf(s.ws[w]).pc.Claim? || TopOf(s.ws[w]).pc.ClaimCas?)
    ensures Quietly(s, StepMove(s, w, fails), w)
  {
  }

  lemma QuietRegister(s: State, w: nat, fails: bool)
    requires Enabled(s, Move(w, fails)) && TopOf(s.ws[w]).pc.RegisterCas?
    ensures Quietly(s, StepMove(s, w, fails), w)
  {
    hide StepRegister;
    RegisterOutcome(s, w, TopOf(s.ws[w]).pc.c);
  }

  lemma RegisterOutcome(s: State, w: nat, c: nat)
    requires HasTop(s, w) && Known(s, c)
    ensures StepRegister(s, w, c).ws == SetPc(s, w, Polling).ws && SameDone(s, StepRegister(s, w, c))
  {
    hide Unhook, StepOverwrite;
    Unhooks(s, c);
    OverwriteOver(s, c, false);
  }

  lemma QuietRest(s: State, w: nat, fails: bool)
    requires Enabled(s, Move(w, fails)) && TopOf(s.ws[w]).pc != Ending && TopOf(s.ws[w]).pc != Settle
    requires var pc := TopOf(s.ws[w]).pc; !pc.ParkingCas? && !pc.Claim? && !pc.ClaimCas? && !pc.RegisterCas?
    ensures Quietly(s, StepMove(s, w, fails), w)
  {
  }

  /** The last steps of a task: to its end, and done. */
  lemma EndMove(s: State, w: nat, fails: bool)
    requires Enabled(s, Move(w, fails)) && (TopOf(s.ws[w]).pc == Ending || TopOf(s.ws[w]).pc == Settle)
    requires !s.tasks[TopOf(s.ws[w]).task].done
    ensures var s', fs, t := StepMove(s, w, fails), s.ws[w].frames, TopOf(s.ws[w]).task;
            && |s'.ws| == |s.ws| && s'.ws == s.ws[w := s'.ws[w]] && |s'.tasks| == |s.tasks|
            && (forall x: nat :: Known(s, x) && x != t ==> s'.tasks[x].done == s.tasks[x].done)
            && ((HasTop(s', w) && s'.ws[w].frames == fs[..|fs| - 1] + [TopOf(s'.ws[w])]
                 && TopOf(s'.ws[w]).task == t && TopOf(s'.ws[w]).pc == Settle && s'.tasks[t].done == s.tasks[t].done)
                || (s'.tasks[t].done
                    && (s'.ws[w].frames == fs[..|fs| - 1]
                        || (HasTop(s', w) && s'.ws[w].frames == fs[..|fs| - 1] + [TopOf(s'.ws[w])]
                            && TopOf(s'.ws[w]).pc != Ending && TopOf(s'.ws[w]).pc != Settle))))
  {
  }

  lemma OverMove(s: State, w: nat, fails: bool, t: nat)
    requires Inv(s) && Enabled(s, Move(w, fails))
    ensures Over(StepMove(s, w, fails), t) <==> Over(s, t)
  {
    hide Inv, StepMove;
    var s', f := StepMove(s, w, fails), TopOf(s.ws[w]);
    if f.pc == Ending || f.pc == Settle {
      TopOk(s, w);
      assert f.task in FrameTokens(f);
      EndMove(s, w, fails);
      hide Enabled;
      OverEnd(s, s', w, t);
    } else {
      QuietMove(s, w, fails);
      QuietlyOver(s, s', w, t);
    }
  }

  lemma OverEnd(s: State, s': State, w: nat, t: nat)
    requires HasTop(s, w) && Known(s, TopOf(s.ws[w]).task) && (TopOf(s.ws[w]).pc == Ending || TopOf(s.ws[w]).pc == Settle)
    requires var fs, x := s.ws[w].frames, TopOf(s.ws[w]).task;
            && |s'.ws| == |s.ws| && s'.ws == s.ws[w := s'.ws[w]] && |s'.tasks| == |s.tasks|
            && (forall y: nat :: Known(s, y) && y != x ==> s'.tasks[y].done == s.tasks[y].done)
            && ((HasTop(s', w) && s'.ws[w].frames == fs[..|fs| - 1] + [TopOf(s'.ws[w])]
                 && TopOf(s'.ws[w]).task == x && TopOf(s'.ws[w]).pc == Settle && s'.tasks[x].done == s.tasks[x].done)
                || (s'.tasks[x].done
                    && (s'.ws[w].frames == fs[..|fs| - 1]
                        || (HasTop(s', w) && s'.ws[w].frames == fs[..|fs| - 1] + [TopOf(s'.ws[w])]
                            && TopOf(s'.ws[w]).pc != Ending && TopOf(s'.ws[w]).pc != Settle))))
    ensures Over(s', t) <==> Over(s, t)
  {
    var fs, x := s.ws[w].frames, TopOf(s.ws[w]).task;
    assert EndsTask(fs[|fs| - 1], x);
    if v: nat, i: nat :| v < |s.ws| && i < |s.ws[v].frames| && EndsTask(s.ws[v].frames[i], t) {
      if v == w && i == |fs| - 1 {
        if !s'.tasks[x].done { assert EndsTask(s'.ws[w].frames[i], t); }
      } else {
        assert s'.ws[v].frames[i] == s.ws[v].frames[i];
      }
    }
    if v: nat, i: nat :| v < |s'.ws| && i < |s'.ws[v].frames| && EndsTask(s'.ws[v].frames[i], t) {
      if !(v == w && i == |fs| - 1) { assert s.ws[v].frames[i] == s'.ws[v].frames[i]; }
    }
  }

  lemma OverStep(s: State, a: Action, t: nat)
    requires Inv(s) && Enabled(s, a)
    ensures Over(Apply(s, a), t) <==> Over(s, t) || ReturnsReady(s, a, t)
  {
    hide Inv, StepMove, StepPop, StepLoad, StepWake, StepOverwrite;
    match a
    case Move(w, fails) => OverMove(s, w, fails, t);
    case Pop(w, x) => OverPop(s, w, x, t);
    case WakeBegin(k, u) => WakeOver(s, k, u, false); OverSame(s, Apply(s, a), t);
    case WakeCas(k, fails) => WakeOver(s, k, s.ks[k].t, fails); OverSame(s, Apply(s, a), t);
    case Overwrite(c, detach) => OverwriteOver(s, c, detach); OverSame(s, Apply(s, a), t);
    case WakePush(_) => OverSame(s, Apply(s, a), t);
    case UserReturn(w, ready) => OverReturn(s, w, ready, t);
    case UserAwait(w, c) => OverAwait(s, w, c, t);
    case _ => OverNew(s, a, t);
  }

  lemma WakeOver(s: State, k: nat, u: nat, fails: bool)
    requires k < |s.ks| && Known(s, u)
    ensures StepLoad(s, k, u).ws == s.ws && SameDone(s, StepLoad(s, k, u))
    ensures s.ks[k].Loaded? && Known(s, s.ks[k].t) ==> StepWake(s, k, fails).ws == s.ws && SameDone(s, StepWake(s, k, fails))
  {
  }

  lemma OverwriteOver(s: State, c: nat, detach: bool)
    requires Known(s, c)
    ensures StepOverwrite(s, c, detach).ws == s.ws && SameDone(s, StepOverwrite(s, c, detach))
  {
  }

  lemma OverSame(s: State, s': State, t: nat)
    requires s'.ws == s.ws && SameDone(s, s')
    ensures Over(s', t) <==> Over(s, t)
  {
  }

  lemma OverPop(s: State, w: nat, x: Option<nat>, t: nat)
    requires Enabled(s, Pop(w, x))
    ensures Over(StepPop(s, w, x), t) <==> Over(s, t)
  {
    hide StepPop;
    PopShape(s, w, x);
    var s' := StepPop(s, w, x);
    if v: nat, i: nat :| v < |s.ws| && i < |s.ws[v].frames| && EndsTask(s.ws[v].frames[i], t) {
      assert s'.ws[v].frames[i] == s.ws[v].frames[i];
    }
    if v: nat, i: nat :| v < |s'.ws| && i < |s'.ws[v].frames| && EndsTask(s'.ws[v].frames[i], t) {
      assert i < |s.ws[v].frames| && s.ws[v].frames[i] == s'.ws[v].frames[i];
    }
  }

  lemma PopShape(s: State, w: nat, x: Option<nat>)
    requires Enabled(s, Pop(w, x))
    ensures var s', n := StepPop(s, w, x), |s.ws[w].frames|;
            && s'.tasks == s.tasks && |s'.ws| == |s.ws| && s'.ws == s.ws[w := s'.ws[w]]
            && |s'.ws[w].frames| >= n && (forall i :: 0 <= i < n - 1 ==> s'.ws[w].frames[i] == s.ws[w].frames[i])
            && (forall i :: n - 1 <= i < |s'.ws[w].frames| ==> s'.ws[w].frames[i].pc != Ending && s'.ws[w].frames[i].pc != Settle)
  {
  }

  lemma OverAwait(s: State, w: nat, c: nat, t: nat)
    requires Enabled(s, UserAwait(w, c))
    ensures Over(Apply(s, UserAwait(w, c)), t) <==> Over(s, t)
  {
    var s' := Apply(s, UserAwait(w, c));
    assert Quietly(s, s', w);
    QuietlyOver(s, s', w, t);
  }

  lemma OverReturn(s: State, w: nat, ready: bool, t: nat)
    requires Enabled(s, UserReturn(w, ready))
    ensures Over(Apply(s, UserReturn(w, ready)), t) <==> Over(s, t) || (ready && TopOf(s.ws[w]).task == t)
  {
    var s', fs := Apply(s, UserReturn(w, ready)), s.ws[w].frames;
    if !ready {
      assert Quietly(s, s', w);
      QuietlyOver(s, s', w, t);
    } else {
      if v: nat, i: nat :| v < |s.ws| && i < |s.ws[v].frames| && EndsTask(s.ws[v].frames[i], t) {
        assert s'.ws[v].frames[i] == s.ws[v].frames[i];
      }
      if v: nat, i: nat :| v < |s'.ws| && i < |s'.ws[v].frames| && EndsTask(s'.ws[v].frames[i], t) {
        if !(v == w && i == |fs| - 1) { assert s.ws[v].frames[i] == s'.ws[v].frames[i]; }
      }
      if TopOf(s.ws[w]).task == t { assert EndsTask(s'.ws[w].frames[|fs| - 1], t); }
    }
  }

  /** New tasks and new loops are not at their end. */
  lemma OverNew(s: State, a: Action, t: nat)
    requires Inv(s) && Enabled(s, a) && (a.Create? || a.EnterBlockOn? || a.Dispatch? || a.UserSpawn?)
    ensures Over(Apply(s, a), t) <==> Over(s, t)
  {
    hide Inv;
    var s' := Apply(s, a);
    if v: nat, i: nat :| v < |s.ws| && i < |s.ws[v].frames| && EndsTask(s.ws[v].frames[i], t) {
      assert s'.ws[v].frames[i] == s.ws[v].frames[i];
    }
    if v: nat, i: nat :| v < |s'.ws| && i < |s'.ws[v].frames| && EndsTask(s'.ws[v].frames[i], t) {
      assert i < |s.ws[v].frames| && s.ws[v].frames[i] == s'.ws[v].frames[i];
    }
  }

  /** A task is done, or on its way from Ready to done, exactly if a poll of it returned Ready: no
      other outcome of a poll ends it, and nothing takes a Ready back. */
  lemma {:induction false} EndsExactlyWhenReady(run: seq<State>, acts: seq<Action>, n: nat, t: nat)
    requires IsRun(run, acts) && n < |run|
    ensures |run| == |acts| + 1
    ensures Over(run[n], t) <==> exists j: nat :: j < n && ReturnsReady(run[j], acts[j], t)
  {
    hide IsRun, Inv, Enabled, Apply, Over, ReturnsReady;
    RunLength(run, acts);
    if n == 0 {
      NothingOver(run, acts, t);
    } else {
      EndsExactlyWhenReady(run, acts, n - 1, t);
      StepOf(run, acts, n - 1);
      RunKeeps(run, acts, n - 1);
      OverStep(run[n - 1], acts[n - 1], t);
      if j: nat :| j < n && ReturnsReady(run[j], acts[j], t) {
        assert j < n - 1 || j == n - 1;
      }
    }
  }

  lemma NothingOver(run: seq<State>, acts: seq<Action>, t: nat)
    requires IsRun(run, acts)
    ensures |run| > 0 && !Over(run[0], t)
  {
  }

  // ---------------------------------------------------------------------------
  // A finished child is heard
  // ---------------------------------------------------------------------------

  /** Task `p` is registered in the join word of `c`. */
  predicate Registered(s: State, c: nat, p: nat) { Known(s, c) && s.tasks[c].join == AsyncJoiner(p) }

  predicate Finished(s: State, c: nat) { Known(s, c) && s.tasks[c].join == FINISHED }

  /** The step is one of a worker. */
  predicate Acts(a: Action) {
    a.EnterBlockOn? || a.Dispatch? || a.UserSpawn? || a.UserAwait? || a.UserReturn? || a.Pop? || a.Move?
  }

  lemma OthersUntouched(s: State, a: Action, v: nat)
    requires Enabled(s, a) && v < |s.ws| && !(Acts(a) && a.w == v)
    ensures v < |Apply(s, a).ws| && Apply(s, a).ws[v] == s.ws[v]
  {
    hide StepMove, StepPop, StepLoad, StepWake, StepOverwrite;
    match a
    case Move(w, fails) => MoveOthers(s, w, fails, v);
    case Pop(w, x) => PopOthers(s, w, x, v);
    case WakeBegin(k, u) => WakeOver(s, k, u, false);
    case WakeCas(k, fails) => WakeOver(s, k, s.ks[k].t, fails);
    case Overwrite(c, detach) => OverwriteOver(s, c, detach);
    case _ =>
  }

  lemma MoveOthers(s: State, w: nat, fails: bool, v: nat)
    requires Enabled(s, Move(w, fails)) && v < |s.ws| && v != w
    ensures v < |StepMove(s, w, fails).ws| && StepMove(s, w, fails).ws[v] == s.ws[v]
  {
    if TopOf(s.ws[w]).pc != Ending && TopOf(s.ws[w]).pc != Settle {
      hide StepMove;
      QuietMove(s, w, fails);
    }
  }

  lemma PopOthers(s: State, w: nat, x: Option<nat>, v: nat)
    requires Enabled(s, Pop(w, x)) && v < |s.ws| && v != w
    ensures v < |StepPop(s, w, x).ws| && StepPop(s, w, x).ws[v] == s.ws[v]
  {
  }

  /** Which steps finish a task, and what the loop that does so has on its hands then. */
  lemma FinishStep(s: State, a: Action, c: nat)
    requires Inv(s) && Enabled(s, a) && Known(s, c) && s.tasks[c].join != FINISHED && Finished(Apply(s, a), c)
    ensures s.tasks[c].join.AsyncJoiner? ==> Settling(Apply(s, a), c, s.tasks[c].join.joiner)
  {
    hide Inv, StepMove, StepPop, StepLoad, StepWake, StepOverwrite;
    match a
    case Move(w, fails) => FinishMove(s, w, fails, c);
    case Pop(w, x) => PopTasks(s, w, x); assert false;
    case WakeBegin(k, u) => LoadJoins(s, k, u, c); assert false;
    case WakeCas(k, fails) => CasJoins(s, k, fails, c); assert false;
    case Overwrite(d, detach) => OverwriteJoins(s, d, detach, c); assert false;
    case _ =>
  }

  lemma LoadJoins(s: State, k: nat, u: nat, c: nat)
    requires k < |s.ks| && Known(s, u) && Known(s, c)
    ensures Known(StepLoad(s, k, u), c) && StepLoad(s, k, u).tasks[c].join == s.tasks[c].join
  {
  }

  lemma CasJoins(s: State, k: nat, fails: bool, c: nat)
    requires k < |s.ks| && s.ks[k].Loaded? && Known(s, s.ks[k].t) && Known(s, c)
    ensures Known(StepWake(s, k, fails), c) && StepWake(s, k, fails).tasks[c].join == s.tasks[c].join
  {
  }

  lemma OverwriteJoins(s: State, d: nat, detach: bool, c: nat)
    requires Known(s, d) && Known(s, c)
    ensures Finished(StepOverwrite(s, d, detach), c) <==> Finished(s, c)
  {
  }

  lemma FinishMove(s: State, w: nat, fails: bool, c: nat)
    requires Inv(s) && Enabled(s, Move(w, fails)) && Known(s, c) && s.tasks[c].join != FINISHED
    requires Finished(StepMove(s, w, fails), c)
    ensures s.tasks[c].join.AsyncJoiner? ==> Settling(StepMove(s, w, fails), c, s.tasks[c].join.joiner)
  {
    hide Inv, StepMove;
    var pc := TopOf(s.ws[w]).pc;
    if pc == Settle {
      SettleTop(s, w, fails, c);
    } else if pc.RegisterCas? {
      RegisterJoins(s, w, fails, c);
      assert false;
    } else {
      RestJoins(s, w, fails, c);
      assert false;
    }
  }

  lemma SettleTop(s: State, w: nat, fails: bool, c: nat)
    requires Enabled(s, Move(w, fails)) && Known(s, c) && s.tasks[c].join != FINISHED && TopOf(s.ws[w]).pc == Settle
    requires Finished(StepMove(s, w, fails), c)
    ensures s.tasks[c].join.AsyncJoiner? ==> Settling(StepMove(s, w, fails), c, s.tasks[c].join.joiner)
  {
    var s' := StepMove(s, w, fails);
    if s.tasks[c].join.AsyncJoiner? {
      assert TopOf(s.ws[w]).task == c;
      assert Settles(s'.ws[w].frames[|s.ws[w].frames| - 1], c, s.tasks[c].join.joiner);
    }
  }

  lemma RegisterJoins(s: State, w: nat, fails: bool, c: nat)
    requires Enabled(s, Move(w, fails)) && Known(s, c) && TopOf(s.ws[w]).pc.RegisterCas?
    ensures Finished(StepMove(s, w, fails), c) ==> Finished(s, c)
  {
  }

  lemma RestJoins(s: State, w: nat, fails: bool, c: nat)
    requires Enabled(s, Move(w, fails)) && Known(s, c) && TopOf(s.ws[w]).pc != Settle && !TopOf(s.ws[w]).pc.RegisterCas?
    ensures Known(StepMove(s, w, fails), c) && StepMove(s, w, fails).tasks[c].join == s.tasks[c].join
  {
  }

  /** A loop that finished `c` and is about to wake `p` is still about to, or has woken it. */
  lemma SettlingStep(s: State, a: Action, c: nat, p: nat)
    requires Inv(s) && Enabled(s, a) && Settling(s, c, p)
    ensures Known(s, p) && Known(Apply(s, a), p)
    ensures Settling(Apply(s, a), c, p) || Apply(s, a).tasks[p].woken
  {
    hide Inv, StackOk, OwnersOk, JoinsOk, Apply, Enabled;
    var v, i :| 0 <= v < |s.ws| && 0 <= i < |s.ws[v].frames| && Settles(s.ws[v].frames[i], c, p);
    SettlesOnTop(s, v, i, c, p);
    WokenStep(s, a, p);
    if Acts(a) && a.w == v {
      ClaimStep(s, a, v, c, p);
    } else {
      OthersUntouched(s, a, v);
      assert Settles(Apply(s, a).ws[v].frames[i], c, p);
    }
  }

  lemma SettlesOnTop(s: State, v: nat, i: nat, c: nat, p: nat)
    requires Inv(s) && v < |s.ws| && i < |s.ws[v].frames| && Settles(s.ws[v].frames[i], c, p)
    ensures i == |s.ws[v].frames| - 1 && Known(s, p)
  {
    hide OwnersOk, JoinsOk;
    assert StackOk(s, s.ws[v]);
    FrameAt(s, s.ws[v], i);
  }

  lemma ClaimStep(s: State, a: Action, v: nat, c: nat, p: nat)
    requires Enabled(s, a) && HasTop(s, v) && Settles(TopOf(s.ws[v]), c, p) && Acts(a) && a.w == v && Known(s, p)
    ensures Settling(Apply(s, a), c, p) || (Known(Apply(s, a), p) && Apply(s, a).tasks[p].woken)
  {
    assert a.Move?;
    hide StepMove;
    var s', n := StepMove(s, v, a.fails), |s.ws[v].frames|;
    ClaimOutcome(s, v, a.fails, c, p);
    if !s'.tasks[p].woken { assert Settles(s'.ws[v].frames[n - 1], c, p); }
  }

  lemma ClaimOutcome(s: State, w: nat, fails: bool, c: nat, p: nat)
    requires Enabled(s, Move(w, fails)) && Settles(TopOf(s.ws[w]), c, p) && Known(s, p)
    ensures var s', n := StepMove(s, w, fails), |s.ws[w].frames|;
            && Known(s', p) && |s'.ws| == |s.ws|
            && (s'.tasks[p].woken || (|s'.ws[w].frames| == n && Settles(s'.ws[w].frames[n - 1], c, p)))
  {
  }

  /** The loop that finished `c` heard of `p` and has it on its hands, or woke it. */
  lemma {:induction false} SettlingLasts(run: seq<State>, acts: seq<Action>, i: nat, n: nat, c: nat, p: nat)
    requires IsRun(run, acts) && i <= n < |run| && Settling(run[i], c, p)
    ensures |run| == |acts| + 1 && Known(run[n], p)
    ensures Settling(run[n], c, p) || run[n].tasks[p].woken || PollBegan(run, acts, i, n, p)
  {
    hide IsRun, Inv, Enabled, Apply, PollBegins, PollBegan, Rings, Settling;
    RunLength(run, acts);
    if i < n {
      SettlingLasts(run, acts, i, n - 1, c, p);
      StepOf(run, acts, n - 1);
      RunKeeps(run, acts, n - 1);
      WokenStep(run[n - 1], acts[n - 1], p);
      BeganLast(run, acts, i, n, p);
      if Settling(run[n - 1], c, p) { SettlingStep(run[n - 1], acts[n - 1], c, p); }
    } else {
      RunKeeps(run, acts, n);
      SettlingKnown(run[n], c, p);
    }
  }

  lemma SettlingKnown(s: State, c: nat, p: nat)
    requires Inv(s) && Settling(s, c, p)
    ensures Known(s, p)
  {
    hide Inv;
    var v, i :| 0 <= v < |s.ws| && 0 <= i < |s.ws[v].frames| && Settles(s.ws[v].frames[i], c, p);
    SettlesOnTop(s, v, i, c, p);
  }

  /** If step `m` finishes `c` while `p` is registered with it, then at every later state `p` is
      done, or a poll of it has begun since, or one is due, or the loop that finished `c` is about to
      wake it. */
  lemma FinishedChildIsHeard(run: seq<State>, acts: seq<Action>, m: nat, n: nat, c: nat, p: nat)
    requires IsRun(run, acts) && m < n < |run| && Registered(run[m], c, p) && Finished(run[m + 1], c)
    ensures |run| == |acts| + 1 && Known(run[n], p)
    ensures run[n].tasks[p].done || PollBegan(run, acts, m + 1, n, p) || PollDue(run[n], p) || Settling(run[n], c, p)
  {
    hide IsRun, Inv, PollDue, PollBegan, Settling, Apply, Enabled;
    RunLength(run, acts);
    StepOf(run, acts, m);
    RunKeeps(run, acts, m);
    FinishStep(run[m], acts[m], c);
    SettlingLasts(run, acts, m + 1, n, c, p);
    if run[n].tasks[p].woken && !run[n].tasks[p].done { NoWakeIsLost(run, acts, n, p); }
  }

  // ---------------------------------------------------------------------------
  // Awaiting
  // ---------------------------------------------------------------------------

  /** Inside an await of `c`, short of taking its result. */
  predicate Awaits(pc: Pc, c: nat) {
    || (pc.Reclaim? && pc.c == c) || (pc.PutBack? && pc.c == c) || (pc.Register? && pc.c == c) || (pc.RegisterCas? && pc.c == c)
  }

  /** An await of `c` in the top loop of worker `w` returns Pending at this step. */
  predicate AwaitReturnsPending(s: State, s': State, a: Action, w: nat, c: nat) {
    && (a.Move? || a.Pop?) && a.w == w && HasTop(s, w) && HasTop(s', w) && Awaits(TopOf(s.ws[w]).pc, c)
    && TopOf(s'.ws[w]).task == TopOf(s.ws[w]).task && TopOf(s'.ws[w]).pc == Polling
  }

  lemma PendingRegisters(s: State, a: Action, w: nat, c: nat)
    requires Inv(s) && Enabled(s, a) && AwaitReturnsPending(s, Apply(s, a), a, w, c)
    ensures Known(s, TopOf(s.ws[w]).task) && Known(s, c) && s.tasks[c].join != FINISHED
    ensures s.tasks[TopOf(s.ws[w]).task].kind == Spawned ==> Registered(Apply(s, a), c, TopOf(s.ws[w]).task)
    ensures s.tasks[TopOf(s.ws[w]).task].kind == BlockOn ==> Known(Apply(s, a), c) && Apply(s, a).tasks[c].join == Foreign
  {
    TopOk(s, w);
    hide Inv;
    PendingOnlyFromCas(s, a, w, c);
    hide Apply, StepRegister;
    RegisterLeaves(s, w, c);
  }

  lemma PendingOnlyFromCas(s: State, a: Action, w: nat, c: nat)
    requires Enabled(s, a) && AwaitReturnsPending(s, Apply(s, a), a, w, c)
    ensures TopOf(s.ws[w]).pc.RegisterCas? && TopOf(s.ws[w]).pc.c == c && Known(s, c) && s.tasks[c].join == TopOf(s.ws[w]).pc.seen
    ensures Apply(s, a) == StepRegister(s, w, c)
  {
    hide StepRegister, StepPop;
    if a.Pop? {
      PopGoesOn(s, w, a.x);
      assert false;
    }
  }

  lemma PopGoesOn(s: State, w: nat, x: Option<nat>)
    requires Enabled(s, Pop(w, x))
    ensures HasTop(StepPop(s, w, x), w) && TopOf(StepPop(s, w, x).ws[w]).pc != Polling
  {
  }

  lemma RegisterLeaves(s: State, w: nat, c: nat)
    requires HasTop(s, w) && Known(s, c) && Known(s, TopOf(s.ws[w]).task) && s.tasks[c].join != FINISHED
    requires PollingOk(s, TopOf(s.ws[w]), s.ws[w].polling) && TopOf(s.ws[w]).pc.RegisterCas?
    ensures var s', t := StepRegister(s, w, c), TopOf(s.ws[w]).task;
            Known(s', c) && s'.tasks[c].join == if s.tasks[t].kind == Spawned then AsyncJoiner(t) else Foreign
  {
  }

  /** Nothing but FINISHED replaced `p`'s registration with `c` between states `i` and `n`. */
  ghost predicate Unreplaced(run: seq<State>, i: nat, n: nat, c: nat, p: nat)
    requires n < |run|
  {
    forall j :: i <= j < n && Registered(run[j], c, p) ==> Registered(run[j + 1], c, p) || Finished(run[j + 1], c)
  }

  lemma {:induction false} RegisteredUntilFinished(run: seq<State>, acts: seq<Action>, i: nat, n: nat, c: nat, p: nat)
      returns (m: nat)
    requires IsRun(run, acts) && i <= n < |run| && Registered(run[i], c, p) && Unreplaced(run, i, n, c, p)
    requires Finished(run[n], c)
    ensures i <= m < n && Registered(run[m], c, p) && Finished(run[m + 1], c)
    decreases n - i
  {
    hide IsRun;
    if Finished(run[i + 1], c) {
      m := i;
    } else {
      assert Registered(run[i + 1], c, p);
      m := RegisteredUntilFinished(run, acts, i + 1, n, c, p);
    }
  }

  /** An await that returns Pending (step `i`) has registered the awaiting future with the child,
      which is not finished; and once the child is finished, unless somebody replaced that
      registration, the future is done, or was polled since the child finished (step `m`), or its
      next poll is due, or the loop that finished the child is about to wake it. */
  lemma AwaitIsAnswered(run: seq<State>, acts: seq<Action>, i: nat, n: nat, w: nat, c: nat, p: nat) returns (m: nat)
    requires IsRun(run, acts) && i < n < |run| && AwaitReturnsPending(run[i], run[i + 1], acts[i], w, c)
    requires TopOf(run[i].ws[w]).task == p && Known(run[i], p) && run[i].tasks[p].kind == Spawned
    ensures |run| == |acts| + 1 && Known(run[n], p) && Registered(run[i + 1], c, p)
    ensures Unreplaced(run, i + 1, n, c, p) && Finished(run[n], c) ==>
              && i < m < n && Registered(run[m], c, p) && Finished(run[m + 1], c)
              && (run[n].tasks[p].done || PollBegan(run, acts, m + 1, n, p) || PollDue(run[n], p) || Settling(run[n], c, p))
  {
    hide IsRun, Inv, PollDue, PollBegan, Settling, Apply, Enabled, AwaitReturnsPending, Unreplaced;
    m := 0;
    RunLength(run, acts);
    StepOf(run, acts, i);
    RunKeeps(run, acts, i);
    PendingRegisters(run[i], acts[i], w, c);
    TasksStay(run, acts, i, n, p);
    if Unreplaced(run, i + 1, n, c, p) && Finished(run[n], c) {
      m := RegisteredUntilFinished(run, acts, i + 1, n, c, p);
      FinishedChildIsHeard(run, acts, m, n, c, p);
    }
  }

  /** An await returns Ready only with the child finished: a loop about to take a child's result
      finds FINISHED in its join word. */
  lemma ReadyOnlyWhenFinished(run: seq<State>, acts: seq<Action>, n: nat, w: nat)
    requires IsRun(run, acts) && n < |run| && HasTop(run[n], w) && TopOf(run[n].ws[w]).pc.Taking?
    ensures Finished(run[n], TopOf(run[n].ws[w]).pc.c)
  {
    hide IsRun;
    RunKeeps(run, acts, n);
    TopOk(run[n], w);
  }

  /** What the local pop of an await does: without its child it leaves the queue, in its next step
      at the latest, as it was, and goes on to register; with its child it runs the child's own
      poll loop in place, on top of the await, before it registers. */
  lemma ReclaimRunsTheChildOnly(s: State, w: nat, x: Option<nat>)
    requires Inv(s) && Enabled(s, Pop(w, x))
    ensures var s', k := Apply(s, Pop(w, x)), s.ws[w];
            var c := TopOf(k).pc.c;
            && HasTop(s', w)
            && (x == Some(c) ==>
                  s'.ws[w].frames == k.frames[..|k.frames| - 1] + [TopOf(k).(pc := Register(c)), Frame(c, k.polling, Start)])
            && (x != Some(c) && x.Some? ==>
                  Enabled(s', Move(w, false))
                  && Apply(s', Move(w, false)) == SetPc(s, w, Register(c)).(queue := s.queue))
            && (x == None ==> s' == SetPc(s, w, Register(c)))
  {
    hide Inv, Apply, StepPop, SetPc, Enabled;
    ReclaimFacts(s, w, x);
    var c := TopOf(s.ws[w]).pc.c;
    PopApplies(s, w, x);
    if x == None {
      PopsNothing(s, w);
    } else if x == Some(c) {
      PopsTheChild(s, w, c);
    } else {
      PopsAnother(s, w, x.value);
    }
  }

  lemma ReclaimFacts(s: State, w: nat, x: Option<nat>)
    requires Inv(s) && Enabled(s, Pop(w, x))
    ensures HasTop(s, w) && TopOf(s.ws[w]).pc.Reclaim? && Known(s, TopOf(s.ws[w]).task)
    ensures Known(s, TopOf(s.ws[w]).pc.c) && s.tasks[TopOf(s.ws[w]).pc.c].kind == Spawned
  {
    hide OwnersOk, JoinsOk, StackOk;
    TopOk(s, w);
  }

  lemma PopApplies(s: State, w: nat, x: Option<nat>)
    requires Enabled(s, Pop(w, x))
    ensures Apply(s, Pop(w, x)) == StepPop(s, w, x)
  {
  }

  lemma PopsNothing(s: State, w: nat)
    requires Enabled(s, Pop(w, None))
    ensures StepPop(s, w, None) == SetPc(s, w, Register(TopOf(s.ws[w]).pc.c)) && HasTop(StepPop(s, w, None), w)
  {
  }

  lemma PopsTheChild(s: State, w: nat, c: nat)
    requires Enabled(s, Pop(w, Some(c))) && TopOf(s.ws[w]).pc == Reclaim(c) && s.tasks[c].kind == Spawned
    ensures var s', k := StepPop(s, w, Some(c)), s.ws[w];
            && HasTop(s', w)
            && s'.ws[w].frames == k.frames[..|k.frames| - 1] + [TopOf(k).(pc := Register(c)), Frame(c, k.polling, Start)]
  {
  }

  lemma PopsAnother(s: State, w: nat, x: nat)
    requires Enabled(s, Pop(w, Some(x))) && x != TopOf(s.ws[w]).pc.c && Known(s, TopOf(s.ws[w]).task)
    ensures var s', c := StepPop(s, w, Some(x)), TopOf(s.ws[w]).pc.c;
            && HasTop(s', w) && Enabled(s', Move(w, false))
            && Apply(s', Move(w, false)) == SetPc(s, w, Register(c)).(queue := s.queue)
  {
    var s', c, k := StepPop(s, w, Some(x)), TopOf(s.ws[w]).pc.c, s.ws[w];
    var below := k.frames[..|k.frames| - 1];
    assert s'.ws == s.ws[w := k.(frames := below + [TopOf(k).(pc := PutBack(x, c))])];
    assert s'.ws[w].frames[..|k.frames| - 1] == below;
    assert s.queue - multiset{x} + multiset{x} == s.queue;
  }

  /** When a loop that finished a child is through with waking its joiner `p`, it goes on with `p` in
      place, without a queue, exactly if `p` was parked; else it is over, with `p` notified if `p` was
      being polled. */
  lemma TransfersExactlyIfParked(run: seq<State>, acts: seq<Action>, n: nat, w: nat, p: nat)
    requires IsRun(run, acts) && n < |acts| && |run| == |acts| + 1 && acts[n].Move? && acts[n].w == w
    requires HasTop(run[n], w) && Claims(TopOf(run[n].ws[w]).pc, p)
    requires !(HasTop(run[n + 1], w) && Claims(TopOf(run[n + 1].ws[w]).pc, p))
    ensures Known(run[n], p) && Known(run[n + 1], p) && HasTop(run[n + 1], w)
    ensures var f, f' := TopOf(run[n].ws[w]), TopOf(run[n + 1].ws[w]);
            && f' == (if run[n].tasks[p].wake == PARKED then Frame(p, f.prev, Start) else f.(pc := Restore(false)))
            && |run[n + 1].ws[w].frames| == |run[n].ws[w].frames| && run[n + 1].queue == run[n].queue
            && run[n + 1].tasks[p].wake == Rung(run[n].tasks[p].wake)
  {
    hide IsRun, StepMove;
    StepOf(run, acts, n);
    ClaimEnds(run[n], w, acts[n].fails, p);
  }

  lemma ClaimEnds(s: State, w: nat, fails: bool, p: nat)
    requires Enabled(s, Move(w, fails)) && Claims(TopOf(s.ws[w]).pc, p)
    ensures var s', f := StepMove(s, w, fails), TopOf(s.ws[w]);
            && Known(s, p) && Known(s', p) && HasTop(s', w)
            && (Claims(TopOf(s'.ws[w]).pc, p)
                || (TopOf(s'.ws[w]) == (if s.tasks[p].wake == PARKED then Frame(p, f.prev, Start) else f.(pc := Restore(false)))
                    && |s'.ws[w].frames| == |s.ws[w].frames| && s'.queue == s.queue
                    && s'.tasks[p].wake == Rung(s.tasks[p].wake)))
  {
  }

  // ---------------------------------------------------------------------------
  // Loops move on
  // ---------------------------------------------------------------------------

  /** How far a loop is from the next thing that is not its own to do. */
  function PcLeft(pc: Pc): nat {
    match pc
    case PutBack(_, _) => 8
    case Register(_) => 7
    case RegisterCas(_, _) => 6
    case Taking(_) => 5
    case Ending => 8
    case Settle => 7
    case Parking => 7
    case ParkingCas(_) => 6
    case Claim(_) => 6
    case ClaimCas(_, _) => 5
    case Restore(_) => 4
    case Requeue => 3
    case Start => 2
    case _ => 0
  }

  /** Its compare-and-swap will find another word than it loaded. */
  predicate FindsOther(s: State, f: Frame) {
    match f.pc
    case RegisterCas(c, seen) => Known(s, c) && s.tasks[c].join != seen
    case ParkingCas(cur) => Known(s, f.task) && s.tasks[f.task].wake != cur
    case ClaimCas(p, cur) => Known(s, p) && s.tasks[p].wake != cur
    case _ => false
  }

  /** Each access of a loop, unless its compare-and-swap finds the word changed, brings it nearer to
      its poll or its end, or ends it; after at most eight of them it polls or is gone. */
  lemma LoopsMoveOn(s: State, w: nat)
    requires Enabled(s, Move(w, false))
    ensures var s', k := StepMove(s, w, false), s.ws[w];
            && w < |s'.ws|
            && (|s'.ws[w].frames| == |k.frames| - 1
                || (|s'.ws[w].frames| == |k.frames|
                    && (PcLeft(TopOf(s'.ws[w]).pc) < PcLeft(TopOf(k).pc) || FindsOther(s, TopOf(k)))))
  {
    match TopOf(s.ws[w]).pc
    case RegisterCas(c, _) => RegisterMovesOn(s, w);
    case ParkingCas(_) => ParkMovesOn(s, w);
    case Claim(_) => ClaimMovesOn(s, w);
    case ClaimCas(_, _) => ClaimMovesOn(s, w);
    case _ => RestMovesOn(s, w);
  }

  lemma RegisterMovesOn(s: State, w: nat)
    requires Enabled(s, Move(w, false)) && TopOf(s.ws[w]).pc.RegisterCas?
    ensures var s', k := StepMove(s, w, false), s.ws[w];
            && w < |s'.ws| && |s'.ws[w].frames| == |k.frames|
            && (PcLeft(TopOf(s'.ws[w]).pc) < PcLeft(TopOf(k).pc) || FindsOther(s, TopOf(k)))
  {
    hide StepRegister;
    RegisterOutcome(s, w, TopOf(s.ws[w]).pc.c);
  }

  lemma ParkMovesOn(s: State, w: nat)
    requires Enabled(s, Move(w, false)) && TopOf(s.ws[w]).pc.ParkingCas?
    ensures var s', k := StepMove(s, w, false), s.ws[w];
            && w < |s'.ws| && |s'.ws[w].frames| == |k.frames|
            && (PcLeft(TopOf(s'.ws[w]).pc) < PcLeft(TopOf(k).pc) || FindsOther(s, TopOf(k)))
  {
  }

  lemma ClaimMovesOn(s: State, w: nat)
    requires Enabled(s, Move(w, false)) && (TopOf(s.ws[w]).pc.Claim? || TopOf(s.ws[w]).pc.ClaimCas?)
    ensures var s', k := StepMove(s, w, false), s.ws[w];
            && w < |s'.ws| && |s'.ws[w].frames| == |k.frames|
            && (PcLeft(TopOf(s'.ws[w]).pc) < PcLeft(TopOf(k).pc) || FindsOther(s, TopOf(k)))
  {
  }

  lemma RestMovesOn(s: State, w: nat)
    requires Enabled(s, Move(w, false))
    requires var pc := TopOf(s.ws[w]).pc; !pc.ParkingCas? && !pc.Claim? && !pc.ClaimCas? && !pc.RegisterCas?
    ensures var s', k := StepMove(s, w, false), s.ws[w];
            && w < |s'.ws|
            && (|s'.ws[w].frames| == |k.frames| - 1
                || (|s'.ws[w].frames| == |k.frames| && PcLeft(TopOf(s'.ws[w]).pc) < PcLeft(TopOf(k).pc)))
  {
  }
}
