/** Timers (src/duty.rs): sleeping futures register a heap entry and a slot; the timer duty's poll
    pops every entry that is due, marks its slot fired and wakes it, and sets the duty's deadline
    to the next entry.  Sleepers are created, polled again and dropped at any moment.

    One step is one access under no lock, or one access to the queue while its lock is held. */
module Timers {
  import opened Basics

  /** A heap entry. */
  datatype Entry = Entry(at: nat, id: nat)

  /** Where a sleeper stands. */
  datatype Pc =
    | Fresh        // not polled yet
    | Numbered     // has an id: about to lock the queue and enter it
    | Adding       // entered, lock held: about to lower the deadline
    | Waiting      // the last poll returned Pending
    | Looking      // polled again: about to look whether it fired
    | Storing      // about to store the new waker
    | Rechecking   // about to look once more
    | Done         // returned Ready
    | Dropping     // dropped: about to leave the queue
    | Gone

  /** `waker` is the waker stored in the slot, named by the number of the poll it came from;
      `polls` is the last such number; `woken` the last one invoked; `fires` counts firings. */
  datatype Sleeper = Sleeper(at: nat, id: Option<nat>, pc: Pc, fired: bool, waker: Option<nat>,
                             polls: nat, woken: Option<nat>, fires: nat)

  /** Where the runner of the timer duty stands; `n` is the time it read. */
  datatype Duty =
    | Out
    | Cleared                 // cleared the deadline: about to read the time
    | Locking(n: nat)
    | Popping(n: nat)         // lock held: about to look at the first entry
    | Firing(i: nat, n: nat)  // took this sleeper's slot: about to mark it fired
    | Taking(i: nat, n: nat)  // about to take its waker
    | Ending(n: nat)          // about to lower the deadline to the next entry and unlock
    | Waking                  // about to invoke the wakers taken

  datatype Lock = Free | ByDuty | BySleeper(i: nat)

  datatype Wake = Wake(i: nat, poll: nat)

  /** `owner[id]` is the sleeper with that id; its length is the next id. */
  datatype State = State(now: nat, sleepers: seq<Sleeper>, owner: seq<nat>, heap: set<Entry>, slots: map<nat, nat>,
                         lock: Lock, duty: Duty, deadline: Option<nat>, wakes: seq<Wake>)

  predicate Init(s: State) {
    && s.sleepers == [] && s.owner == [] && s.heap == {} && s.slots == map[] && s.lock == Free
    && s.duty == Out && s.deadline == None && s.wakes == []
  }

  // ---------------------------------------------------------------------------
  // Steps
  // ---------------------------------------------------------------------------

  datatype Action =
    | Tick(d: nat)
    | Sleep(d: nat)                  // a new sleep of length `d`
    | Poll(i: nat)                   // the sleeper's next step of a poll (or its next poll)
    | Drop(i: nat)
    | Leave(i: nat)                  // second half of the drop
    | Run                            // the duty is run
    | Move(e: Entry)                 // the runner's next step; `e` is the first heap entry, if it looks

  predicate First(heap: set<Entry>, e: Entry) {
    e in heap && forall x :: x in heap ==> e.at < x.at || (e.at == x.at && e.id <= x.id)
  }

  predicate Enabled(s: State, a: Action) {
    match a
    case Tick(_) => true
    case Sleep(_) => true
    case Poll(i) =>
      && i < |s.sleepers|
      && match s.sleepers[i].pc {
           case Numbered => s.lock == Free && s.sleepers[i].id.Some?
           case Done => false
           case Dropping => false
           case Gone => false
           case _ => true
         }
    case Drop(i) => i < |s.sleepers| && (s.sleepers[i].pc == Fresh || s.sleepers[i].pc == Waiting || s.sleepers[i].pc == Done)
    case Leave(i) => i < |s.sleepers| && s.sleepers[i].pc == Dropping && s.lock == Free && s.sleepers[i].id.Some?
    case Run => s.duty == Out
    case Move(e) =>
      match s.duty {
        case Out => false
        case Locking(_) => s.lock == Free
        case Popping(_) => s.heap == {} || First(s.heap, e)
        case Ending(_) => s.heap == {} || First(s.heap, e)
        case Firing(i, _) => i < |s.sleepers|
        case Taking(i, _) => i < |s.sleepers|
        case Waking => s.wakes != [] ==> s.wakes[0].i < |s.sleepers|
        case _ => true
      }
  }

  function SetSleeper(s: State, i: nat, x: Sleeper): State
    requires i < |s.sleepers|
  {
    s.(sleepers := s.sleepers[i := x])
  }

  /** `fetch_min`. */
  function Lower(d: Option<nat>, at: nat): Option<nat> {
    if d.Some? && d.value <= at then d else Some(at)
  }

  function Apply(s: State, a: Action): State
    requires Enabled(s, a)
  {
    match a
    case Tick(d) => s.(now := s.now + d)
    case Sleep(d) => s.(sleepers := s.sleepers + [Sleeper(s.now + d, None, Fresh, false, None, 0, None, 0)])
    case Poll(i) => StepPoll(s, i)
    case Drop(i) =>
      var x := s.sleepers[i];
      if x.id.None? then SetSleeper(s, i, x.(pc := Gone)) else SetSleeper(s, i, x.(waker := None, pc := Dropping))
    case Leave(i) => SetSleeper(s, i, s.sleepers[i].(pc := Gone)).(slots := s.slots - {s.sleepers[i].id.value})
    case Run => s.(duty := Cleared, deadline := None)
    case Move(e) => StepDuty(s, e)
  }

  function StepPoll(s: State, i: nat): State
    requires i < |s.sleepers| && (s.sleepers[i].pc == Numbered ==> s.sleepers[i].id.Some?)
  {
    var x := s.sleepers[i];
    match x.pc
    case Fresh =>
      if s.now >= x.at then SetSleeper(s, i, x.(pc := Done))
      else SetSleeper(s, i, x.(id := Some(|s.owner|), pc := Numbered, waker := Some(0))).(owner := s.owner + [i])
    case Numbered =>
      SetSleeper(s, i, x.(pc := Adding)).(lock := BySleeper(i), slots := s.slots[x.id.value := i],
                                         heap := s.heap + {Entry(x.at, x.id.value)})
    case Adding => SetSleeper(s, i, x.(pc := Waiting)).(lock := Free, deadline := Lower(s.deadline, x.at))
    case Waiting => SetSleeper(s, i, x.(pc := Looking))
    case Looking => SetSleeper(s, i, x.(pc := if x.fired then Done else Storing))
    case Storing => SetSleeper(s, i, x.(polls := x.polls + 1, waker := Some(x.polls + 1), pc := Rechecking))
    case Rechecking => SetSleeper(s, i, x.(pc := if x.fired then Done else Waiting))
    case _ => s
  }

  function StepDuty(s: State, e: Entry): State
    requires s.duty.Firing? ==> s.duty.i < |s.sleepers|
    requires s.duty.Taking? ==> s.duty.i < |s.sleepers|
    requires s.duty == Waking && s.wakes != [] ==> s.wakes[0].i < |s.sleepers|
  {
    match s.duty
    case Out => s
    case Cleared => s.(duty := Locking(s.now))
    case Locking(n) => s.(duty := Popping(n), lock := ByDuty)
    case Popping(n) =>
      if s.heap == {} || e.at > n then s.(duty := Ending(n))
      else if e.id in s.slots then
        s.(heap := s.heap - {e}, slots := s.slots - {e.id}, duty := Firing(s.slots[e.id], n))
      else s.(heap := s.heap - {e})
    case Firing(i, n) =>
      SetSleeper(s, i, s.sleepers[i].(fired := true, fires := s.sleepers[i].fires + 1)).(duty := Taking(i, n))
    case Taking(i, n) =>
      var x := s.sleepers[i];
      SetSleeper(s, i, x.(waker := None)).(duty := Popping(n),
                                          wakes := if x.waker.Some? then s.wakes + [Wake(i, x.waker.value)] else s.wakes)
    case Ending(n) =>
      s.(duty := Waking, lock := Free, deadline := if s.heap == {} then s.deadline else Lower(s.deadline, e.at))
    case Waking =>
      if s.wakes == [] then s.(duty := Out)
      else
        var k := s.wakes[0];
        SetSleeper(s, k.i, s.sleepers[k.i].(woken := Some(k.poll))).(wakes := s.wakes[1..])
  }

  // ---------------------------------------------------------------------------
  // Inductive invariant
  // ---------------------------------------------------------------------------

  /** Registered and neither finished nor dropped. */
  predicate Alive(pc: Pc) { pc == Adding || pc == Waiting || pc == Looking || pc == Storing || pc == Rechecking }

  predicate Due(d: Duty, i: nat) { d.Firing? && d.i == i }

  predicate Holding(d: Duty) { d.Popping? || d.Firing? || d.Taking? || d.Ending? }

  predicate LockOk(s: State) {
    && (s.lock == ByDuty <==> Holding(s.duty))
    && (forall i :: 0 <= i < |s.sleepers| ==> (s.lock == BySleeper(i) <==> s.sleepers[i].pc == Adding))
    && (s.lock.BySleeper? ==> s.lock.i < |s.sleepers|)
  }

  /** The waker of poll `v` was invoked or is about to be. */
  predicate Called(s: State, i: nat, v: nat)
    requires i < |s.sleepers|
  {
    s.sleepers[i].woken == Some(v) || Wake(i, v) in s.wakes || (s.duty.Taking? && s.duty.i == i && s.sleepers[i].waker == Some(v))
  }

  ghost predicate SleeperOk(s: State, i: nat)
    requires i < |s.sleepers|
  {
    var x := s.sleepers[i];
    && (x.id.Some? ==> x.id.value < |s.owner| && s.owner[x.id.value] == i)
    && (x.pc != Fresh && x.pc != Done && x.pc != Gone ==> x.id.Some?)
    && (x.pc == Fresh ==> x.id.None? && x.polls == 0)
    && (x.pc == Adding ==> !x.fired)
    && (x.fired ==> x.at <= s.now && x.id.Some? && x.id.value !in s.slots && x.pc != Numbered)
    && x.fires == (if x.fired then 1 else 0)
    && (Alive(x.pc) && !x.fired && !Due(s.duty, i) ==>
          x.id.Some? && x.id.value in s.slots && s.slots[x.id.value] == i && Entry(x.at, x.id.value) in s.heap)
    && (x.pc == Numbered ==> x.id.Some? && x.id.value !in s.slots && (forall e :: e in s.heap ==> e.id != x.id.value))
    && ((x.pc == Numbered || x.pc == Adding || x.pc == Waiting || x.pc == Rechecking) && !x.fired ==> x.waker == Some(x.polls))
    && (x.pc == Waiting && x.fired ==> Called(s, i, x.polls))
    && (Due(s.duty, i) ==> !x.fired && x.at <= s.duty.n <= s.now && x.id.Some? && x.id.value !in s.slots
                           && x.pc != Numbered && x.pc != Adding && (forall e :: e in s.heap ==> e.id != x.id.value))
    && (s.duty.Taking? && s.duty.i == i ==> x.fired)
    && (!x.fired || (s.duty.Taking? && s.duty.i == i) ==> x.woken == None && NoWakeOf(s.wakes, i))
    && (!NoWakeOf(s.wakes, i) ==> x.woken == None)
    && (x.pc == Done ==> x.at <= s.now && (x.id.Some? ==> x.fired))
    && (x.id.None? || x.pc == Dropping || x.pc == Gone ==> x.waker == None)
    && (x.pc == Gone && x.id.Some? ==> x.id.value !in s.slots)
    && CallsOk(s, i)
  }

  /** Whatever waker the slot holds has not been called or collected. */
  predicate CallsOk(s: State, i: nat)
    requires i < |s.sleepers|
  {
    var x := s.sleepers[i];
    && (x.waker.Some? ==> x.waker.value <= x.polls)
    && (x.woken.Some? ==> x.woken.value <= x.polls)
    && (forall k :: 0 <= k < |s.wakes| && s.wakes[k].i == i ==> s.wakes[k].poll <= x.polls)
    && (x.waker.Some? ==> x.woken != x.waker && Wake(i, x.waker.value) !in s.wakes)
  }

  predicate NoWakeOf(wakes: seq<Wake>, i: nat) { forall k :: 0 <= k < |wakes| ==> wakes[k].i != i }

  /** Entries and slots carry the ids of their sleepers. */
  ghost predicate QueueOk(s: State) {
    && (forall e :: e in s.heap ==> EntryOk(s, e))
    && (forall id :: id in s.slots ==> SlotOk(s, id))
  }

  ghost predicate EntryOk(s: State, e: Entry) {
    && e.id < |s.owner| && s.owner[e.id] < |s.sleepers|
    && s.sleepers[s.owner[e.id]].id == Some(e.id) && s.sleepers[s.owner[e.id]].at == e.at
  }

  ghost predicate SlotOk(s: State, id: nat)
    requires id in s.slots
  {
    var i := s.slots[id];
    i < |s.sleepers| && s.sleepers[i].id == Some(id) && !s.sleepers[i].fired && !Due(s.duty, i)
    && Entry(s.sleepers[i].at, id) in s.heap && s.sleepers[i].pc != Numbered
  }

  /** The poll's time is in the past, and what it leaves is not yet due. */
  ghost predicate DutyOk(s: State) {
    && (s.duty.Locking? || Holding(s.duty) ==> s.duty.n <= s.now)
    && (s.duty.Ending? ==> forall e :: e in s.heap ==> e.at > s.duty.n)
    && (s.duty.Firing? ==> s.duty.i < |s.sleepers|)
    && (s.duty.Taking? ==> s.duty.i < |s.sleepers|)
    && (forall k :: 0 <= k < |s.wakes| ==> s.wakes[k].i < |s.sleepers|)
    && (forall j, k :: 0 <= j < k < |s.wakes| ==> s.wakes[j].i != s.wakes[k].i)
    && (forall id :: 0 <= id < |s.owner| ==> s.owner[id] < |s.sleepers|)
  }

  /** The timer poll has yet to set the deadline. */
  predicate WillLower(d: Duty) { d == Cleared || d.Locking? || Holding(d) }

  predicate AtMost(d: Option<nat>, at: nat) { d.Some? && d.value <= at }

  ghost predicate DeadlineOk(s: State) {
    !WillLower(s.duty) ==> forall e :: e in s.heap ==>
      AtMost(s.deadline, e.at) || (e.id < |s.owner| && s.owner[e.id] < |s.sleepers| && s.sleepers[s.owner[e.id]].pc == Adding)
  }

  ghost predicate AllOk(s: State) { forall i: nat :: i < |s.sleepers| ==> SleeperOk(s, i) }

  ghost predicate Inv(s: State) { LockOk(s) && AllOk(s) && QueueOk(s) && DutyOk(s) && DeadlineOk(s) }

  lemma InitKeeps(s: State)
    requires Init(s)
    ensures Inv(s)
  {
  }

  // ---------------------------------------------------------------------------
  // Preservation: a sleeper's step
  // ---------------------------------------------------------------------------

  lemma PollLock(s: State, i: nat)
    requires LockOk(s) && Enabled(s, Poll(i))
    ensures LockOk(StepPoll(s, i))
  {
  }

  lemma PollSelf(s: State, i: nat)
    requires LockOk(s) && QueueOk(s) && DutyOk(s) && Enabled(s, Poll(i)) && SleeperOk(s, i)
    ensures SleeperOk(StepPoll(s, i), i)
  {
    hide LockOk, QueueOk, DutyOk, SleeperOk, StepPoll;
    match s.sleepers[i].pc
    case Fresh => PollFresh(s, i);
    case Numbered => PollNumbered(s, i);
    case _ => PollKnown(s, i);
  }

  lemma PollNumbered(s: State, i: nat)
    requires Enabled(s, Poll(i)) && LockOk(s) && SleeperOk(s, i) && s.sleepers[i].pc == Numbered
    ensures SleeperOk(StepPoll(s, i), i)
  {
  }

  lemma PollKnown(s: State, i: nat)
    requires Enabled(s, Poll(i)) && LockOk(s) && SleeperOk(s, i) && s.sleepers[i].pc != Fresh && s.sleepers[i].pc != Numbered
    ensures SleeperOk(StepPoll(s, i), i)
  {
  }

  lemma PollFresh(s: State, i: nat)
    requires QueueOk(s) && DutyOk(s) && i < |s.sleepers| && SleeperOk(s, i) && s.sleepers[i].pc == Fresh
    ensures SleeperOk(StepPoll(s, i), i)
  {
    if s.now < s.sleepers[i].at {
      assert |s.owner| !in s.slots;
      assert forall e :: e in s.heap ==> EntryOk(s, e);
    }
  }

  lemma PollOther(s: State, i: nat, j: nat)
    requires LockOk(s) && Enabled(s, Poll(i)) && j < |s.sleepers| && j != i && SleeperOk(s, j) && SleeperOk(s, i)
    ensures j < |StepPoll(s, i).sleepers| && SleeperOk(StepPoll(s, i), j)
  {
    if s.sleepers[i].pc == Numbered {
      EnterOther(s, i, j);
    } else {
      assert StepPoll(s, i).sleepers[j] == s.sleepers[j];
      PollFrames(s, i);
      hide StepPoll;
    }
  }

  lemma EnterOther(s: State, i: nat, j: nat)
    requires LockOk(s) && Enabled(s, Poll(i)) && j < |s.sleepers| && j != i && SleeperOk(s, j) && SleeperOk(s, i)
    requires s.sleepers[i].pc == Numbered
    ensures j < |StepPoll(s, i).sleepers| && SleeperOk(StepPoll(s, i), j)
  {
  }

  /** Only entering the queue touches it. */
  lemma PollFrames(s: State, i: nat)
    requires Enabled(s, Poll(i)) && s.sleepers[i].pc != Numbered
    ensures var s' := StepPoll(s, i);
            s'.heap == s.heap && s'.slots == s.slots && s'.duty == s.duty && s'.wakes == s.wakes && s'.now == s.now
            && |s.owner| <= |s'.owner| && forall id :: 0 <= id < |s.owner| ==> s'.owner[id] == s.owner[id]
  {
  }

  lemma PollQueue(s: State, i: nat)
    requires QueueOk(s) && Enabled(s, Poll(i)) && SleeperOk(s, i)
    ensures QueueOk(StepPoll(s, i))
  {
    hide SleeperOk;
    var s' := StepPoll(s, i);
    forall e | e in s'.heap ensures EntryOk(s', e) {
      if e in s.heap { assert EntryOk(s, e); PollEntry(s, i, e); } else { PollNewEntry(s, i); }
    }
    forall id | id in s'.slots ensures SlotOk(s', id) {
      if id in s.slots && !(s.sleepers[i].pc == Numbered && s.sleepers[i].id == Some(id)) {
        assert SlotOk(s, id);
        PollSlot(s, i, id);
      } else {
        PollNewEntry(s, i);
      }
    }
  }

  lemma PollEntry(s: State, i: nat, e: Entry)
    requires Enabled(s, Poll(i)) && EntryOk(s, e) && SleeperOk(s, i)
    ensures EntryOk(StepPoll(s, i), e)
  {
  }

  lemma PollSlot(s: State, i: nat, id: nat)
    requires Enabled(s, Poll(i)) && id in s.slots && SlotOk(s, id) && SleeperOk(s, i)
    requires !(s.sleepers[i].pc == Numbered && s.sleepers[i].id == Some(id))
    ensures id in StepPoll(s, i).slots && SlotOk(StepPoll(s, i), id)
  {
  }

  /** The entry and slot a sleeper enters are its own. */
  lemma PollNewEntry(s: State, i: nat)
    requires Enabled(s, Poll(i)) && SleeperOk(s, i)
    ensures s.sleepers[i].pc == Numbered ==>
              var s' := StepPoll(s, i);
              var id := s.sleepers[i].id.value;
              s'.heap == s.heap + {Entry(s.sleepers[i].at, id)} && EntryOk(s', Entry(s.sleepers[i].at, id))
              && id in s'.slots && SlotOk(s', id)
    ensures s.sleepers[i].pc != Numbered ==> StepPoll(s, i).heap == s.heap && StepPoll(s, i).slots == s.slots
  {
  }

  lemma PollDuty(s: State, i: nat)
    requires LockOk(s) && DutyOk(s) && Enabled(s, Poll(i))
    ensures DutyOk(StepPoll(s, i))
  {
  }

  lemma PollDeadline(s: State, i: nat)
    requires DeadlineOk(s) && QueueOk(s) && Enabled(s, Poll(i)) && SleeperOk(s, i)
    ensures DeadlineOk(StepPoll(s, i))
  {
    var s' := StepPoll(s, i);
    if !WillLower(s'.duty) {
      forall e | e in s'.heap
        ensures AtMost(s'.deadline, e.at)
                || (e.id < |s'.owner| && s'.owner[e.id] < |s'.sleepers| && s'.sleepers[s'.owner[e.id]].pc == Adding)
      {
        if e in s.heap { assert EntryOk(s, e); }
      }
    }
  }

  lemma PollKeeps(s: State, i: nat)
    requires Inv(s) && Enabled(s, Poll(i))
    ensures Inv(StepPoll(s, i))
  {
    hide SleeperOk, LockOk, QueueOk, DutyOk, DeadlineOk, StepPoll;
    assert SleeperOk(s, i);
    PollLock(s, i);
    PollSelf(s, i);
    PollQueue(s, i);
    PollDuty(s, i);
    PollDeadline(s, i);
    PollSize(s, i);
    forall j: nat | j < |StepPoll(s, i).sleepers| ensures SleeperOk(StepPoll(s, i), j) {
      if j != i { PollOther(s, i, j); }
    }
  }

  lemma PollSize(s: State, i: nat)
    requires Enabled(s, Poll(i))
    ensures |StepPoll(s, i).sleepers| == |s.sleepers|
  {
  }

  // ---------------------------------------------------------------------------
  // Preservation: time, new sleepers, drops, and starting the duty
  // ---------------------------------------------------------------------------

  predicate Simple(a: Action) { a.Tick? || a.Sleep? || a.Drop? || a.Leave? || a.Run? }

  lemma SimpleSleeper(s: State, a: Action, j: nat)
    requires Simple(a) && Enabled(s, a) && j < |s.sleepers| && SleeperOk(s, j)
    requires a.Leave? ==> SleeperOk(s, a.i)
    ensures j < |Apply(s, a).sleepers| && SleeperOk(Apply(s, a), j)
  {
    hide SleeperOk;
    match a
    case Leave(i) => LeaveSleeper(s, i, j);
    case Drop(i) => DropSleeper(s, i, j);
    case _ => OtherSleeper(s, a, j);
  }

  lemma DropSleeper(s: State, i: nat, j: nat)
    requires Enabled(s, Drop(i)) && j < |s.sleepers| && SleeperOk(s, j)
    ensures j < |Apply(s, Drop(i)).sleepers| && SleeperOk(Apply(s, Drop(i)), j)
  {
    assert j != i ==> Apply(s, Drop(i)).sleepers[j] == s.sleepers[j];
  }

  lemma OtherSleeper(s: State, a: Action, j: nat)
    requires (a.Tick? || a.Sleep? || a.Run?) && j < |s.sleepers| && SleeperOk(s, j) && Enabled(s, a)
    ensures j < |Apply(s, a).sleepers| && SleeperOk(Apply(s, a), j)
  {
    assert Apply(s, a).sleepers[j] == s.sleepers[j];
  }

  lemma LeaveSleeper(s: State, i: nat, j: nat)
    requires Enabled(s, Leave(i)) && j < |s.sleepers| && SleeperOk(s, j) && SleeperOk(s, i)
    ensures j < |Apply(s, Leave(i)).sleepers| && SleeperOk(Apply(s, Leave(i)), j)
  {
    assert j != i ==> Apply(s, Leave(i)).sleepers[j] == s.sleepers[j];
  }

  lemma SimpleQueue(s: State, a: Action)
    requires QueueOk(s) && Simple(a) && Enabled(s, a)
    requires a.Leave? ==> SleeperOk(s, a.i)
    ensures QueueOk(Apply(s, a))
  {
    hide SleeperOk;
    var s' := Apply(s, a);
    forall e | e in s'.heap ensures EntryOk(s', e) { assert EntryOk(s, e); }
    forall id | id in s'.slots ensures SlotOk(s', id) { assert SlotOk(s, id); }
  }

  lemma SimpleRest(s: State, a: Action)
    requires LockOk(s) && DutyOk(s) && Simple(a) && Enabled(s, a)
    ensures LockOk(Apply(s, a)) && DutyOk(Apply(s, a))
  {
  }

  lemma SimpleDeadline(s: State, a: Action)
    requires DeadlineOk(s) && QueueOk(s) && Simple(a) && Enabled(s, a)
    ensures DeadlineOk(Apply(s, a))
  {
    var s' := Apply(s, a);
    if !WillLower(s'.duty) {
      forall e | e in s'.heap
        ensures AtMost(s'.deadline, e.at)
                || (e.id < |s'.owner| && s'.owner[e.id] < |s'.sleepers| && s'.sleepers[s'.owner[e.id]].pc == Adding)
      {
        assert EntryOk(s, e);
      }
    }
  }

  /** A new sleeper is in nobody's hands. */
  lemma NewSleeper(s: State, d: nat)
    requires DutyOk(s)
    ensures SleeperOk(Apply(s, Sleep(d)), |s.sleepers|)
  {
  }

  lemma SimpleKeeps(s: State, a: Action)
    requires Inv(s) && Simple(a) && Enabled(s, a)
    ensures Inv(Apply(s, a))
  {
    hide SleeperOk, LockOk, QueueOk, DutyOk, DeadlineOk;
    if a.Leave? { assert SleeperOk(s, a.i); }
    SimpleQueue(s, a);
    SimpleRest(s, a);
    SimpleDeadline(s, a);
    forall j: nat | j < |Apply(s, a).sleepers| ensures SleeperOk(Apply(s, a), j) {
      if j < |s.sleepers| { SimpleSleeper(s, a, j); } else { NewSleeper(s, a.d); }
    }
  }

  // ---------------------------------------------------------------------------
  // Preservation: the duty's step
  // ---------------------------------------------------------------------------

  lemma MoveLock(s: State, e: Entry)
    requires LockOk(s) && DutyOk(s) && Enabled(s, Move(e))
    ensures LockOk(StepDuty(s, e))
  {
  }

  /** What the duty has in hand after popping: a sleeper that is due and not fired. */
  lemma MovePop(s: State, e: Entry, j: nat)
    requires LockOk(s) && QueueOk(s) && DutyOk(s) && Enabled(s, Move(e)) && s.duty.Popping?
    requires j < |s.sleepers| && SleeperOk(s, j)
    ensures SleeperOk(StepDuty(s, e), j)
  {
    if s.heap != {} && e.at <= s.duty.n {
      assert EntryOk(s, e);
      if e.id in s.slots { assert SlotOk(s, e.id); }
      forall x | x in s.heap && x.id == e.id ensures x == e { assert EntryOk(s, x); }
      if s.sleepers[j].id == Some(e.id) { assert s.owner[e.id] == j; }
    }
  }

  lemma MoveFire(s: State, e: Entry, j: nat)
    requires LockOk(s) && Enabled(s, Move(e)) && (s.duty.Firing? || s.duty.Taking?)
    requires j < |s.sleepers| && SleeperOk(s, j)
    ensures j < |StepDuty(s, e).sleepers| && SleeperOk(StepDuty(s, e), j)
  {
    var s' := StepDuty(s, e);
    if s'.wakes != s.wakes {
      assert s'.wakes[|s.wakes|].i == s.duty.i;
      assert forall k :: 0 <= k < |s.wakes| ==> s'.wakes[k] == s.wakes[k];
    }
  }

  lemma MoveWake(s: State, e: Entry, j: nat)
    requires DutyOk(s) && Enabled(s, Move(e)) && s.duty == Waking
    requires j < |s.sleepers| && SleeperOk(s, j)
    ensures j < |StepDuty(s, e).sleepers| && SleeperOk(StepDuty(s, e), j)
  {
    var s' := StepDuty(s, e);
    if s.wakes != [] {
      assert forall k :: 0 <= k < |s'.wakes| ==> s'.wakes[k] == s.wakes[k + 1];
      assert s.wakes == [s.wakes[0]] + s'.wakes;
    }
  }

  lemma MoveSleeper(s: State, e: Entry, j: nat)
    requires LockOk(s) && QueueOk(s) && DutyOk(s) && Enabled(s, Move(e))
    requires j < |s.sleepers| && SleeperOk(s, j)
    ensures j < |StepDuty(s, e).sleepers| && SleeperOk(StepDuty(s, e), j)
  {
    hide SleeperOk, StepDuty, LockOk, QueueOk, DutyOk;
    match s.duty
    case Popping(_) => MovePop(s, e, j); MoveSize(s, e);
    case Firing(_, _) => MoveFire(s, e, j);
    case Taking(_, _) => MoveFire(s, e, j);
    case Waking => MoveWake(s, e, j);
    case _ => MoveOn(s, e, j);
  }

  lemma MoveOn(s: State, e: Entry, j: nat)
    requires LockOk(s) && Enabled(s, Move(e)) && (s.duty == Cleared || s.duty.Locking? || s.duty.Ending?)
    requires j < |s.sleepers| && SleeperOk(s, j)
    ensures j < |StepDuty(s, e).sleepers| && SleeperOk(StepDuty(s, e), j)
  {
    assert StepDuty(s, e).sleepers == s.sleepers && StepDuty(s, e).slots == s.slots && StepDuty(s, e).heap == s.heap;
  }

  lemma MoveQueue(s: State, e: Entry)
    requires QueueOk(s) && DutyOk(s) && Enabled(s, Move(e))
    requires s.duty.Firing? || s.duty.Taking? ==> SleeperOk(s, s.duty.i)
    ensures QueueOk(StepDuty(s, e))
  {
    hide DutyOk, SleeperOk, EntryOk, SlotOk;
    MoveShrinks(s, e);
    var s' := StepDuty(s, e);
    hide StepDuty;
    forall x | x in s'.heap ensures EntryOk(s', x) { MoveEntry(s, e, x); }
    forall id | id in s'.slots ensures SlotOk(s', id) { MoveSlot(s, e, id); }
  }

  lemma MoveShrinks(s: State, e: Entry)
    requires Enabled(s, Move(e))
    ensures StepDuty(s, e).heap <= s.heap && StepDuty(s, e).slots.Keys <= s.slots.Keys
  {
  }

  lemma MoveEntry(s: State, e: Entry, x: Entry)
    requires Enabled(s, Move(e)) && EntryOk(s, x)
    ensures EntryOk(StepDuty(s, e), x)
  {
  }

  lemma MoveSlot(s: State, e: Entry, id: nat)
    requires QueueOk(s) && Enabled(s, Move(e)) && id in s.slots && id in StepDuty(s, e).slots
    requires s.duty.Firing? || s.duty.Taking? ==> SleeperOk(s, s.duty.i)
    ensures SlotOk(StepDuty(s, e), id)
  {
    assert SlotOk(s, id);
    if s.duty.Popping? && s.heap != {} {
      assert EntryOk(s, e);
      if e.id in s.slots { assert SlotOk(s, e.id); }
    }
    hide QueueOk;
  }

  lemma MoveDuty(s: State, e: Entry)
    requires DutyOk(s) && QueueOk(s) && Enabled(s, Move(e))
    requires s.duty.Taking? ==> SleeperOk(s, s.duty.i)
    ensures DutyOk(StepDuty(s, e))
  {
    if s.duty.Popping? && s.heap != {} && e.at <= s.duty.n && e.id in s.slots { assert SlotOk(s, e.id); }
  }

  lemma MoveDeadline(s: State, e: Entry)
    requires DeadlineOk(s) && Enabled(s, Move(e)) && LockOk(s) && QueueOk(s)
    ensures DeadlineOk(StepDuty(s, e))
  {
    var s' := StepDuty(s, e);
    if !WillLower(s'.duty) {
      forall x | x in s'.heap
        ensures AtMost(s'.deadline, x.at)
                || (x.id < |s'.owner| && s'.owner[x.id] < |s'.sleepers| && s'.sleepers[s'.owner[x.id]].pc == Adding)
      {
        assert x in s.heap;
      }
    }
  }

  lemma MoveKeeps(s: State, e: Entry)
    requires Inv(s) && Enabled(s, Move(e))
    ensures Inv(StepDuty(s, e))
  {
    assert s.duty.Firing? || s.duty.Taking? ==> s.duty.i < |s.sleepers| && SleeperOk(s, s.duty.i);
    hide SleeperOk, LockOk, QueueOk, DutyOk, DeadlineOk, StepDuty;
    MoveLock(s, e);
    MoveQueue(s, e);
    MoveDuty(s, e);
    MoveDeadline(s, e);
    MoveSize(s, e);
    forall j: nat | j < |StepDuty(s, e).sleepers| ensures SleeperOk(StepDuty(s, e), j) {
      MoveSleeper(s, e, j);
    }
  }

  lemma MoveSize(s: State, e: Entry)
    requires Enabled(s, Move(e))
    ensures |StepDuty(s, e).sleepers| == |s.sleepers|
  {
  }

  // ---------------------------------------------------------------------------
  // Every run
  // ---------------------------------------------------------------------------

  lemma StepKeeps(s: State, a: Action)
    requires Inv(s) && Enabled(s, a)
    ensures Inv(Apply(s, a))
  {
    hide Inv, StepPoll, StepDuty;
    match a
    case Poll(i) => PollKeeps(s, i);
    case Move(e) => MoveKeeps(s, e);
    case _ => SimpleKeeps(s, a);
  }

  /** A run: the states passed through and the steps between them. */
  ghost predicate IsRun(run: seq<State>, acts: seq<Action>) {
    && |run| == |acts| + 1 && Init(run[0])
    && forall i :: 0 <= i < |acts| ==> Enabled(run[i], acts[i]) && run[i + 1] == Apply(run[i], acts[i])
  }

  lemma RunLength(run: seq<State>, acts: seq<Action>)
    requires IsRun(run, acts)
    ensures |run| == |acts| + 1
  {
  }

  lemma StepOf(run: seq<State>, acts: seq<Action>, i: nat)
    requires IsRun(run, acts) && i < |acts|
    ensures |run| == |acts| + 1 && Enabled(run[i], acts[i]) && run[i + 1] == Apply(run[i], acts[i])
  {
  }

  lemma {:induction false} RunKeeps(run: seq<State>, acts: seq<Action>, n: nat)
    requires IsRun(run, acts) && n < |run|
    ensures Inv(run[n])
  {
    hide Inv, Init;
    if n == 0 {
      InitKeeps(run[0]);
    } else {
      RunKeeps(run, acts, n - 1);
      StepOf(run, acts, n - 1);
      var a := acts[n - 1];
      StepKeeps(run[n - 1], a);
    }
  }

  // ---------------------------------------------------------------------------
  // What every run satisfies
  // ---------------------------------------------------------------------------

  /** A sleeper that waits and has not fired has exactly one heap entry, for its time. */
  lemma OneEntry(run: seq<State>, acts: seq<Action>, n: nat, i: nat)
    requires IsRun(run, acts) && n < |run| && i < |run[n].sleepers| && Alive(run[n].sleepers[i].pc)
    requires !run[n].sleepers[i].fired && !Due(run[n].duty, i)
    ensures var s := run[n];
            && s.sleepers[i].id.Some?
            && Entry(s.sleepers[i].at, s.sleepers[i].id.value) in s.heap
            && (forall e :: e in s.heap && e.id == s.sleepers[i].id.value ==> e.at == s.sleepers[i].at)
    ensures forall j: nat :: j < |run[n].sleepers| && j != i && run[n].sleepers[j].id.Some? ==>
              run[n].sleepers[j].id != run[n].sleepers[i].id
  {
    hide IsRun, LockOk, DutyOk, DeadlineOk;
    RunKeeps(run, acts, n);
    var s := run[n];
    assert SleeperOk(s, i);
    forall e | e in s.heap && e.id == s.sleepers[i].id.value ensures e.at == s.sleepers[i].at { assert EntryOk(s, e); }
    forall j: nat | j < |s.sleepers| && j != i && s.sleepers[j].id.Some? ensures s.sleepers[j].id != s.sleepers[i].id {
      assert SleeperOk(s, j);
    }
  }

  /** A sleeper fires at most once and never early. */
  lemma NeverEarlyNeverTwice(run: seq<State>, acts: seq<Action>, n: nat, i: nat)
    requires IsRun(run, acts) && n < |run| && i < |run[n].sleepers|
    ensures run[n].sleepers[i].fires <= 1
    ensures run[n].sleepers[i].fires == 1 <==> run[n].sleepers[i].fired
    ensures run[n].sleepers[i].fired ==> run[n].sleepers[i].at <= run[n].now
  {
    hide IsRun, LockOk, DutyOk, QueueOk, DeadlineOk;
    RunKeeps(run, acts, n);
    assert SleeperOk(run[n], i);
  }

  /** Time goes on, sleepers keep theirs, and what has fired stays so. */
  ghost predicate Goes(s: State, s': State) {
    && s.now <= s'.now && |s.sleepers| <= |s'.sleepers|
    && forall i :: 0 <= i < |s.sleepers| ==>
         s'.sleepers[i].at == s.sleepers[i].at && (s.sleepers[i].fired ==> s'.sleepers[i].fired)
  }

  lemma {:induction false} TimeStays(run: seq<State>, acts: seq<Action>, j: nat, n: nat)
    requires IsRun(run, acts) && j <= n < |run|
    ensures Goes(run[j], run[n])
  {
    hide IsRun, Enabled, Apply, Goes;
    RunLength(run, acts);
    if j < n {
      TimeStays(run, acts, j, n - 1);
      StepOf(run, acts, n - 1);
      TimeStep(run[n - 1], acts[n - 1]);
      GoesOn(run[j], run[n - 1], run[n]);
    } else {
      GoesNowhere(run[n]);
    }
  }

  lemma GoesOn(s: State, s1: State, s2: State)
    requires Goes(s, s1) && Goes(s1, s2)
    ensures Goes(s, s2)
  {
  }

  lemma GoesNowhere(s: State)
    ensures Goes(s, s)
  {
  }

  lemma TimeStep(s: State, a: Action)
    requires Enabled(s, a)
    ensures Goes(s, Apply(s, a))
  {
  }

  /** A sleep of length `d`, begun at step `j`, answers Ready only once `d` has passed since, and
      except on its first poll only after the timer poll has fired it. */
  lemma ReadyOnlyInTime(run: seq<State>, acts: seq<Action>, j: nat, n: nat, i: nat)
    requires IsRun(run, acts) && j < n < |run| && acts[j].Sleep? && i == |run[j].sleepers|
    ensures i < |run[n].sleepers|
    ensures run[n].sleepers[i].pc == Done || run[n].sleepers[i].fired ==> run[n].now >= run[j].now + acts[j].d
    ensures run[n].sleepers[i].pc == Done && run[n].sleepers[i].id.Some? ==> run[n].sleepers[i].fired
  {
    hide IsRun, LockOk, DutyOk, QueueOk, DeadlineOk;
    RunLength(run, acts);
    StepOf(run, acts, j);
    TimeStays(run, acts, j + 1, n);
    RunKeeps(run, acts, n);
    assert SleeperOk(run[n], i);
  }

  /** A step of a poll answers Ready exactly if the sleeper is polled for the first time at or
      after its time, or looks and has fired; a sleeper that has fired stays so, so the next
      look, which is at most two steps of the poll away, answers Ready. */
  lemma FiredIsReady(run: seq<State>, acts: seq<Action>, j: nat, n: nat, i: nat)
    requires IsRun(run, acts) && j <= n < |acts| && acts[n] == Poll(i) && i < |run[j].sleepers|
    ensures i < |run[n].sleepers| == |run[n + 1].sleepers|
    ensures var x := run[n].sleepers[i];
            run[n + 1].sleepers[i].pc == Done
            <==> (x.id.None? && x.at <= run[n].now) || (x.fired && (x.pc == Looking || x.pc == Rechecking))
    ensures run[j].sleepers[i].fired && run[n].sleepers[i].pc in {Waiting, Looking, Storing, Rechecking} ==>
              run[n + 1].sleepers[i].pc
              == match run[n].sleepers[i].pc { case Waiting => Looking case Storing => Rechecking case _ => Done }
  {
    hide IsRun, LockOk, DutyOk, QueueOk, DeadlineOk;
    RunLength(run, acts);
    TimeStays(run, acts, j, n);
    StepOf(run, acts, n);
    RunKeeps(run, acts, n);
    assert SleeperOk(run[n], i);
  }

  /** The sleeper was dropped, and the duty has not collected its waker. */
  predicate Left(s: State, i: nat) {
    && i < |s.sleepers| && (s.sleepers[i].pc == Dropping || s.sleepers[i].pc == Gone)
    && NoWakeOf(s.wakes, i)
  }

  /** A waker is called at most once: while one is in the slot, it has been neither called nor
      collected for a call. */
  lemma NoWakerTwice(run: seq<State>, acts: seq<Action>, n: nat, i: nat)
    requires IsRun(run, acts) && n < |run| && i < |run[n].sleepers| && run[n].sleepers[i].waker.Some?
    ensures run[n].sleepers[i].woken != run[n].sleepers[i].waker
    ensures Wake(i, run[n].sleepers[i].waker.value) !in run[n].wakes
    ensures forall a, b :: 0 <= a < b < |run[n].wakes| ==> run[n].wakes[a] != run[n].wakes[b]
  {
    hide IsRun, LockOk, QueueOk, DeadlineOk;
    RunKeeps(run, acts, n);
    assert SleeperOk(run[n], i);
  }

  /** Dropping ends: a sleeper that never registered is gone at once; any other has given up its
      waker, and its second step takes it out of the queue, where its entry stays to fire
      harmlessly. */
  lemma DropsEnd(run: seq<State>, acts: seq<Action>, n: nat, i: nat)
    requires IsRun(run, acts) && n < |acts| && (acts[n] == Drop(i) || acts[n] == Leave(i))
    ensures |run| == |acts| + 1 && i < |run[n].sleepers| == |run[n + 1].sleepers|
    ensures run[n + 1].sleepers[i].pc
            == (if acts[n] == Drop(i) && run[n].sleepers[i].id.Some? then Dropping else Gone)
    ensures run[n + 1].sleepers[i].waker == None && run[n + 1].heap == run[n].heap
    ensures run[n + 1].sleepers[i].pc == Gone && run[n].sleepers[i].id.Some? ==> run[n].sleepers[i].id.value !in run[n + 1].slots
  {
    hide IsRun, LockOk, QueueOk, DutyOk, DeadlineOk;
    StepOf(run, acts, n);
    RunKeeps(run, acts, n);
    assert SleeperOk(run[n], i);
  }

  /** A dropped sleeper whose waker the duty has not collected yet is never woken. */
  lemma {:induction false} DroppedIsLeftAlone(run: seq<State>, acts: seq<Action>, j: nat, n: nat, i: nat)
    requires IsRun(run, acts) && j <= n < |run| && Left(run[j], i)
    ensures Left(run[n], i) && run[n].sleepers[i].woken == run[j].sleepers[i].woken
  {
    hide IsRun, Enabled, Apply, LockOk, DutyOk, QueueOk, DeadlineOk, SleeperOk, NoWakeOf;
    RunLength(run, acts);
    if j < n {
      DroppedIsLeftAlone(run, acts, j, n - 1, i);
      StepOf(run, acts, n - 1);
      RunKeeps(run, acts, n - 1);
      DroppedStep(run[n - 1], acts[n - 1], i);
    }
  }

  lemma DroppedStep(s: State, a: Action, i: nat)
    requires Enabled(s, a) && Left(s, i) && SleeperOk(s, i)
    ensures Left(Apply(s, a), i) && Apply(s, a).sleepers[i].woken == s.sleepers[i].woken
  {
    hide StepDuty;
    if a.Move? { DroppedMove(s, a.e, i); }
  }

  lemma DroppedMove(s: State, e: Entry, i: nat)
    requires Enabled(s, Move(e)) && Left(s, i) && SleeperOk(s, i)
    ensures Left(StepDuty(s, e), i) && StepDuty(s, e).sleepers[i].woken == s.sleepers[i].woken
  {
  }

  /** When a pass over the queue ends, every registered, undropped sleeper that was due at the
      time the pass read has fired. */
  lemma PassFiresAllDue(run: seq<State>, acts: seq<Action>, n: nat, i: nat)
    requires IsRun(run, acts) && n < |run| && i < |run[n].sleepers| && run[n].duty.Ending?
    requires Alive(run[n].sleepers[i].pc) && run[n].sleepers[i].at <= run[n].duty.n
    ensures run[n].sleepers[i].fired
  {
    hide IsRun, LockOk, QueueOk, DeadlineOk;
    RunKeeps(run, acts, n);
    assert SleeperOk(run[n], i);
  }

  /** Except while the timer poll runs or a new sleeper is just about to lower it, the duty's
      deadline is no later than any entry, so the duty is run in time for all of them. */
  lemma DeadlineCoversHeap(run: seq<State>, acts: seq<Action>, n: nat, e: Entry)
    requires IsRun(run, acts) && n < |run| && e in run[n].heap && (run[n].duty == Out || run[n].duty == Waking)
    requires run[n].lock == Free
    ensures AtMost(run[n].deadline, e.at)
  {
    hide IsRun, AllOk, DutyOk;
    RunKeeps(run, acts, n);
    assert EntryOk(run[n], e);
  }

  /** How often sleeper `i` was polled again in the first `n` steps. */
  ghost function Repolls(run: seq<State>, acts: seq<Action>, n: nat, i: nat): nat
    requires |run| == |acts| + 1 && n <= |acts|
  {
    if n == 0 then 0 else
    Repolls(run, acts, n - 1, i) + One(acts[n - 1] == Poll(i) && i < |run[n - 1].sleepers| && run[n - 1].sleepers[i].pc == Waiting)
  }

  /** The number of the last waker stored, and the poll under way. */
  predicate Numbers(s: State, i: nat, count: nat) {
    if i < |s.sleepers| then
      s.sleepers[i].pc == Fresh || Alive(s.sleepers[i].pc) || s.sleepers[i].pc == Numbered ==>
        s.sleepers[i].polls + One(s.sleepers[i].pc == Looking || s.sleepers[i].pc == Storing) == count
    else count == 0
  }

  lemma NumbersStep(s: State, a: Action, i: nat, count: nat)
    requires Enabled(s, a) && Numbers(s, i, count)
    ensures Numbers(Apply(s, a), i, count + One(a == Poll(i) && i < |s.sleepers| && s.sleepers[i].pc == Waiting))
  {
    hide StepDuty;
    if a.Move? { MoveNumbers(s, a.e); }
  }

  lemma MoveNumbers(s: State, e: Entry)
    requires Enabled(s, Move(e))
    ensures |StepDuty(s, e).sleepers| == |s.sleepers|
    ensures forall i :: 0 <= i < |s.sleepers| ==>
              StepDuty(s, e).sleepers[i].pc == s.sleepers[i].pc && StepDuty(s, e).sleepers[i].polls == s.sleepers[i].polls
  {
  }

  lemma {:induction false} RepollsNumbered(run: seq<State>, acts: seq<Action>, n: nat, i: nat)
    requires IsRun(run, acts) && n < |run|
    ensures |run| == |acts| + 1 && Numbers(run[n], i, Repolls(run, acts, n, i))
  {
    hide IsRun, Enabled, Apply, Numbers;
    RunLength(run, acts);
    if n == 0 {
      NoSleeperYet(run, acts, i);
    } else {
      RepollsNumbered(run, acts, n - 1, i);
      StepOf(run, acts, n - 1);
      NumbersStep(run[n - 1], acts[n - 1], i, Repolls(run, acts, n - 1, i));
    }
  }

  lemma NoSleeperYet(run: seq<State>, acts: seq<Action>, i: nat)
    requires IsRun(run, acts)
    ensures |run| > 0 && Numbers(run[0], i, 0)
  {
  }

  /** From the time the duty is run (step `j`) to its end: no deadline is left but that of an entry
      still there. */
  ghost predicate NoStaleDeadline(s: State) {
    if WillLower(s.duty) then s.deadline == None
    else s.deadline == None || exists e :: e in s.heap && s.deadline == Some(e.at)
  }

  /** The step lowers the deadline for a new sleeper, or starts another run of the duty. */
  predicate SetsDeadline(s: State, a: Action) {
    a.Run? || (a.Poll? && a.i < |s.sleepers| && s.sleepers[a.i].pc == Adding)
  }

  lemma StaleStep(s: State, a: Action)
    requires Enabled(s, a) && NoStaleDeadline(s) && !SetsDeadline(s, a)
    ensures NoStaleDeadline(Apply(s, a))
  {
    hide StepDuty, StepPoll;
    match a
    case Move(e) => StaleMove(s, e);
    case Poll(i) => StalePoll(s, i);
    case _ =>
  }

  lemma StaleMove(s: State, e: Entry)
    requires Enabled(s, Move(e)) && NoStaleDeadline(s)
    ensures NoStaleDeadline(StepDuty(s, e))
  {
    if s.duty.Ending? && s.heap != {} { assert e in StepDuty(s, e).heap; }
  }

  lemma StalePoll(s: State, i: nat)
    requires Enabled(s, Poll(i)) && NoStaleDeadline(s) && s.sleepers[i].pc != Adding
    ensures NoStaleDeadline(StepPoll(s, i))
  {
    var s' := StepPoll(s, i);
    if e :| e in s.heap && s.deadline == Some(e.at) { assert e in s'.heap; }
  }

  /** A run of the duty uses its deadline up: unless a new sleeper lowers it meanwhile, what is set
      afterwards is the time of an entry still in the queue, so an empty queue asks for nothing. */
  lemma {:induction false} DeadlineIsUsedUp(run: seq<State>, acts: seq<Action>, j: nat, n: nat)
    requires IsRun(run, acts) && j < n < |run| && acts[j] == Run
    requires |run| == |acts| + 1 && forall m :: j < m < n ==> !SetsDeadline(run[m], acts[m])
    ensures NoStaleDeadline(run[n])
  {
    hide IsRun, Enabled, Apply, NoStaleDeadline, SetsDeadline;
    StepOf(run, acts, n - 1);
    if n == j + 1 {
      RunClears(run[j]);
    } else {
      DeadlineIsUsedUp(run, acts, j, n - 1);
      StaleStep(run[n - 1], acts[n - 1]);
    }
  }

  lemma RunClears(s: State)
    requires Enabled(s, Run)
    ensures NoStaleDeadline(Apply(s, Run))
  {
  }

  /** A poll that returned Pending has its waker in the slot of a timer that has not fired, or
      that waker was invoked or is about to be: a re-poll that races with the firing cannot
      leave its waker unseen. */
  lemma PendingIsWoken(run: seq<State>, acts: seq<Action>, n: nat, i: nat)
    requires IsRun(run, acts) && n < |run| && i < |run[n].sleepers| && run[n].sleepers[i].pc == Waiting
    ensures var x := run[n].sleepers[i];
            && |run| == |acts| + 1
            && var last := Repolls(run, acts, n, i);   // the poll that returned last
               if x.fired then Called(run[n], i, last) else x.waker == Some(last)
  {
    hide IsRun, LockOk, QueueOk, DutyOk, DeadlineOk, Called;
    RepollsNumbered(run, acts, n, i);
    RunKeeps(run, acts, n);
    assert SleeperOk(run[n], i);
  }

  /** The runner of the duty is never stuck: it can move, or waits for a sleeper that can. */
  lemma DutyNeverStuck(run: seq<State>, acts: seq<Action>, n: nat)
    requires IsRun(run, acts) && n < |run| && run[n].duty != Out
    ensures || (exists e: Entry :: Enabled(run[n], Move(e)))
            || (run[n].lock.BySleeper? && Enabled(run[n], Poll(run[n].lock.i)))
  {
    hide IsRun, AllOk, QueueOk, DeadlineOk;
    var s := run[n];
    RunKeeps(run, acts, n);
    if s.heap == {} {
      assert Enabled(s, Move(Entry(0, 0))) || s.lock.BySleeper?;
    } else {
      FirstExists(s.heap);
      var e: Entry :| e in s.heap && First(s.heap, e);
      assert Enabled(s, Move(e)) || s.lock.BySleeper?;
    }
  }

  /** How many steps the runner of the duty has left, at most, while nobody enters the queue. */
  function DutyLeft(s: State): nat {
    var w := |s.wakes|;
    match s.duty
    case Out => 0
    case Waking => w + 1
    case Ending(_) => w + 2
    case Popping(_) => 4 * |s.heap| + w + 3
    case Taking(_, _) => 4 * |s.heap| + w + 5
    case Firing(_, _) => 4 * |s.heap| + w + 6
    case Locking(_) => 4 * |s.heap| + w + 4
    case Cleared => 4 * |s.heap| + w + 5
  }

  /** How many steps a poll has left. */
  function PollLeft(pc: Pc): nat {
    match pc
    case Numbered => 2
    case Adding => 1
    case Looking => 3
    case Storing => 2
    case Rechecking => 1
    case _ => 0
  }

  /** Only the clock takes time, and it takes what it says. */
  lemma OnlyTicksTakeTime(run: seq<State>, acts: seq<Action>, n: nat)
    requires IsRun(run, acts) && n < |acts|
    ensures |run| == |acts| + 1 && run[n + 1].now == run[n].now + if acts[n].Tick? then acts[n].d else 0
  {
    hide IsRun;
    StepOf(run, acts, n);
  }

  /** A run of the timer duty ends: each of its steps leaves fewer, and once it holds the lock
      nobody adds to them.  So does a poll, whatever others do. */
  lemma DutyEnds(run: seq<State>, acts: seq<Action>, n: nat)
    requires IsRun(run, acts) && n < |acts|
    ensures acts[n].Move? ==> DutyLeft(run[n + 1]) < DutyLeft(run[n])
    ensures !acts[n].Move? && Holding(run[n].duty) ==> DutyLeft(run[n + 1]) == DutyLeft(run[n])
    ensures Enabled(run[n], acts[n]) && forall i: nat :: i < |run[n].sleepers| && PollLeft(run[n].sleepers[i].pc) > 0 ==>
              PollGoesOn(run[n], acts[n], i)
  {
    hide IsRun, AllOk, QueueOk, DeadlineOk, DutyOk, LockOk, DutyLeft, StepDuty, StepPoll;
    RunLength(run, acts);
    RunKeeps(run, acts, n);
    StepOf(run, acts, n);
    var s, a := run[n], acts[n];
    if a.Move? { MoveLeft(s, a.e); } else if Holding(s.duty) { OtherLeft(s, a); }
    forall i: nat | i < |s.sleepers| && PollLeft(s.sleepers[i].pc) > 0 ensures PollGoesOn(s, a, i) {
      PollShortens(s, a, i);
    }
  }

  ghost predicate PollGoesOn(s: State, a: Action, i: nat)
    requires Enabled(s, a) && i < |s.sleepers|
  {
    var s' := Apply(s, a);
    && i < |s'.sleepers|
    && if a == Poll(i) then PollLeft(s'.sleepers[i].pc) < PollLeft(s.sleepers[i].pc)
       else s'.sleepers[i].pc == s.sleepers[i].pc
  }

  lemma PollShortens(s: State, a: Action, i: nat)
    requires Enabled(s, a) && i < |s.sleepers| && PollLeft(s.sleepers[i].pc) > 0
    ensures PollGoesOn(s, a, i)
  {
  }

  lemma MoveLeft(s: State, e: Entry)
    requires Enabled(s, Move(e))
    ensures DutyLeft(StepDuty(s, e)) < DutyLeft(s)
  {
    if s.duty.Popping? && s.heap != {} {
      assert |s.heap - {e}| == |s.heap| - 1;
    }
  }

  lemma OtherLeft(s: State, a: Action)
    requires LockOk(s) && Enabled(s, a) && !a.Move? && Holding(s.duty)
    ensures DutyLeft(Apply(s, a)) == DutyLeft(s)
  {
  }

  lemma {:induction false} FirstExists(heap: set<Entry>)
    requires heap != {}
    ensures exists e :: e in heap && First(heap, e)
  {
    var x :| x in heap;
    var rest := heap - {x};
    if rest == {} {
      assert heap == {x};
      assert First(heap, x);
    } else {
      FirstExists(rest);
      var e :| e in rest && First(rest, e);
      assert heap == rest + {x};
      if e.at < x.at || (e.at == x.at && e.id <= x.id) {
        assert First(heap, e);
      } else {
        forall y | y in heap ensures x.at < y.at || (x.at == y.at && x.id <= y.id) {
          assert y == x || y in rest;
        }
        assert First(heap, x);
      }
    }
  }
}
