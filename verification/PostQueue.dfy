/** The queue post delegator (src/post.rs): every producer thread counts its posts in a slot of
    its own and lists the slot, at most once, on a Treiber stack that the server takes whole; a
    producer that finds the stack empty asks the delegator's duty for a poll, whose runner
    (src/duty.rs) clears the request before it polls.

    Any number of producers (they may join at any time) and of threads that call `serve_now` or
    `with_lock`; thread 0 runs the duty.  One step is one load, store, swap or compare-and-swap. */
module PostQueue {
  import opened Basics

  /** Where the owner of a slot stands in `post`. */
  datatype Producer =
    | Idle
    | Bumping(count: nat)          // loaded the count, about to store the next one
    | Bumped                       // about to swap `queued`
    | ReadHead                     // about to load the stack's head
    | Listing(h: Option<nat>)      // about to store the link
    | Linking(h: Option<nat>)      // about to swap itself in
    | Asking                       // found the stack empty: about to ask for a poll

  datatype Slot = Slot(mark: nat, queued: bool, next: Option<nat>, seen: nat, pc: Producer)

  /** Where a caller of `serve_now` stands; `Checking` and `AskAgain` are the duty's last look. */
  datatype Thread = Out | Looking | BusyLoad | BusyCas | Inside | Checking | AskAgain

  /** What the holder of the server lock is doing. */
  datatype Serve =
    | Free
    | Outside                                    // inside `with_lock`
    | Take                                       // about to take the stack whole
    | Walk(p: Option<nat>)                       // about to read the next slot's link
    | Clear(s: nat, p: Option<nat>)              // about to clear `queued`
    | Collect(s: nat, p: Option<nat>)            // about to load the count
    | Note(s: nat, m: nat, p: Option<nat>)       // about to compare it with `seen`
    | Deliver                                    // about to pass the batch on and unlock

  datatype Ticket = Ticket(producer: nat, count: nat)

  /** `listed` and `taken` are the slots on the stack and in the rest of the server's chain, in
      order.  `log` is every ticket noted so far; the current batch starts at `start`, and the
      first `told` tickets have been passed to the consumer. */
  datatype State = State(slots: seq<Slot>, pending: Option<nat>, serve: Serve, holder: nat, threads: seq<Thread>,
                         deadline: bool, listed: seq<nat>, taken: seq<nat>, log: seq<Ticket>, start: nat, told: nat)

  ghost predicate Init(s: State) {
    && s.slots == [] && s.pending == None && s.serve == Free && s.log == [] && s.start == 0 && s.told == 0
    && s.listed == [] && s.taken == [] && !s.deadline
    && |s.threads| > 0 && forall k :: 0 <= k < |s.threads| ==> s.threads[k] == Out
  }

  // ---------------------------------------------------------------------------
  // Steps
  // ---------------------------------------------------------------------------

  datatype Action =
    | Join                              // a new thread posts for the first time
    | Post(i: nat, fails: bool)         // the owner of slot `i` takes its next step
    | Call(k: nat)                      // a thread calls `serve_now`; for thread 0, the duty runs
    | WithLock(k: nat)                  // a thread other than the duty's gets the lock for itself
    | Step(k: nat, fails: bool)         // a caller takes its next step

  predicate Enabled(s: State, a: Action) {
    match a
    case Join => true
    case Post(i, _) => i < |s.slots|
    case Call(k) => k < |s.threads| && s.threads[k] == Out
    case WithLock(k) => 0 < k < |s.threads| && s.threads[k] == Out && s.serve == Free
    case Step(k, _) =>
      && k < |s.threads| && s.threads[k] != Out
      && (s.threads[k] == Inside ==> s.serve != Free && s.holder == k && ServeKnown(s))
  }

  predicate ServeKnown(s: State) {
    match s.serve
    case Walk(p) => p.Some? ==> p.value < |s.slots|
    case Clear(x, _) => x < |s.slots|
    case Collect(x, _) => x < |s.slots|
    case Note(x, _, _) => x < |s.slots|
    case _ => true
  }

  function Apply(s: State, a: Action): State
    requires Enabled(s, a)
  {
    match a
    case Join => s.(slots := s.slots + [Slot(0, false, None, 0, Idle)])
    case Post(i, fails) => StepPost(s, i, fails)
    case Call(k) => s.(threads := s.threads[k := Looking], deadline := s.deadline && k != 0)
    case WithLock(k) => s.(threads := s.threads[k := Inside], serve := Outside, holder := k)
    case Step(k, fails) => StepThread(s, k, fails)
  }

  function SetSlot(s: State, i: nat, x: Slot): State
    requires i < |s.slots|
  {
    s.(slots := s.slots[i := x])
  }

  function StepPost(s: State, i: nat, fails: bool): State
    requires i < |s.slots|
  {
    var x := s.slots[i];
    match x.pc
    case Idle => SetSlot(s, i, x.(pc := Bumping(x.mark + 1)))
    case Bumping(q) => SetSlot(s, i, x.(mark := q, pc := Bumped))
    case Bumped => SetSlot(s, i, x.(queued := true, pc := if x.queued then Idle else ReadHead))
    case ReadHead => SetSlot(s, i, x.(pc := Listing(s.pending)))
    case Listing(h) => SetSlot(s, i, x.(next := h, pc := Linking(h)))
    case Linking(h) =>
      if fails || s.pending != h then SetSlot(s, i, x.(pc := Listing(s.pending)))
      else SetSlot(s, i, x.(pc := if h == None then Asking else Idle)).(pending := Some(i), listed := [i] + s.listed)
    case Asking => SetSlot(s, i, x.(pc := Idle)).(deadline := true)
  }

  /** `serve_now` is over; the duty looks at the stack once more. */
  function Return(s: State, k: nat): State
    requires k < |s.threads|
  {
    s.(threads := s.threads[k := if k == 0 then Checking else Out])
  }

  function StepThread(s: State, k: nat, fails: bool): State
    requires k < |s.threads| && (s.threads[k] == Inside ==> ServeKnown(s))
  {
    match s.threads[k]
    case Out => s
    case Looking => if s.pending == None then Return(s, k) else s.(threads := s.threads[k := BusyLoad])
    case BusyLoad => if s.serve != Free then Return(s, k) else s.(threads := s.threads[k := BusyCas])
    case BusyCas =>
      if fails || s.serve != Free then Return(s, k)
      else s.(threads := s.threads[k := Inside], serve := Take, holder := k, start := |s.log|)
    case Inside => StepServe(s, k)
    case Checking => s.(threads := s.threads[k := if s.pending == None then Out else AskAgain])
    case AskAgain => s.(threads := s.threads[k := Out], deadline := true)
  }

  function StepServe(s: State, k: nat): State
    requires k < |s.threads| && ServeKnown(s)
  {
    match s.serve
    case Free => s
    case Outside => s.(serve := Free, threads := s.threads[k := Out])
    case Take => s.(pending := None, serve := Walk(s.pending), taken := s.listed, listed := [])
    case Walk(p) =>
      if p == None then s.(serve := Deliver)
      else s.(serve := Clear(p.value, s.slots[p.value].next), taken := if s.taken == [] then [] else s.taken[1..])
    case Clear(x, p) => SetSlot(s, x, s.slots[x].(queued := false)).(serve := Collect(x, p))
    case Collect(x, p) => s.(serve := Note(x, s.slots[x].mark, p))
    case Note(x, m, p) =>
      if m != s.slots[x].seen then
        SetSlot(s, x, s.slots[x].(seen := m)).(log := s.log + [Ticket(x, m)], serve := Walk(p))
      else s.(serve := Walk(p))
    case Deliver => Return(s, k).(serve := Free, told := |s.log|)
  }

  // ---------------------------------------------------------------------------
  // Inductive invariant
  // ---------------------------------------------------------------------------

  function HeadOf(xs: seq<nat>): Option<nat> { if xs == [] then None else Some(xs[0]) }

  /** The links of `slots` spell out `xs`. */
  ghost predicate Spells(slots: seq<Slot>, xs: seq<nat>) {
    && (forall k :: 0 <= k < |xs| ==> xs[k] < |slots|)
    && (forall k :: 0 <= k < |xs| - 1 ==> slots[xs[k]].next == Some(xs[k + 1]))
    && (xs != [] ==> slots[xs[|xs| - 1]].next == None)
  }

  /** The rest of the chain the server goes on with. */
  predicate Rest(v: Serve, p: Option<nat>) {
    match v
    case Walk(q) => p == q
    case Clear(_, q) => p == q
    case Collect(_, q) => p == q
    case Note(_, _, q) => p == q
    case _ => p == None
  }

  predicate ListingSlot(pc: Producer) { pc == ReadHead || pc.Listing? || pc.Linking? }

  ghost predicate ChainsOk(s: State) {
    && s.pending == HeadOf(s.listed) && Spells(s.slots, s.listed)
    && Rest(s.serve, HeadOf(s.taken)) && Spells(s.slots, s.taken)
    && ServeKnown(s)
  }

  function Times(xs: seq<nat>, i: nat): nat { multiset(xs)[i] }

  lemma TimesFirst(xs: seq<nat>, i: nat)
    requires xs != []
    ensures Times(xs, i) == One(xs[0] == i) + Times(xs[1..], i)
  {
    assert xs == [xs[0]] + xs[1..];
    assert multiset(xs)[i] == multiset{xs[0]}[i] + multiset(xs[1..])[i];
  }

  lemma TimesIn(xs: seq<nat>, i: nat)
    ensures i in xs <==> Times(xs, i) > 0
    ensures Times([], i) == 0
  {
  }

  /** A slot is flagged queued exactly while it is in one place: on its way to the stack, on it,
      in the server's chain, or in the server's hand. */
  ghost predicate PlaceOk(s: State, i: nat)
    requires i < |s.slots|
  {
    Times(s.listed, i) + Times(s.taken, i) + One(ListingSlot(s.slots[i].pc)) + One(s.serve.Clear? && s.serve.s == i)
      == One(s.slots[i].queued)
  }

  predicate LinkOk(x: Slot) { x.pc.Linking? ==> x.next == x.pc.h }

  /** No post is lost. */
  ghost predicate CountOk(s: State, i: nat)
    requires i < |s.slots|
  {
    var x := s.slots[i];
    && x.seen <= x.mark
    && (x.pc.Bumping? ==> x.pc.count == x.mark + 1)
    && (x.mark != x.seen ==>
          || x.queued || x.pc == Bumped
          || (s.serve.Collect? && s.serve.s == i) || (s.serve.Note? && s.serve.s == i))
    && (s.serve.Note? && s.serve.s == i ==> x.seen <= s.serve.m <= x.mark && (s.serve.m == x.mark || x.queued || x.pc == Bumped))
  }

  ghost predicate SlotsOk(s: State) {
    forall i: nat :: i < |s.slots| ==> PlaceOk(s, i) && LinkOk(s.slots[i]) && CountOk(s, i)
  }

  /** The slot in the server's hand. */
  predicate InHand(v: Serve, i: nat) {
    match v
    case Clear(x, _) => x == i
    case Collect(x, _) => x == i
    case Note(x, _, _) => x == i
    case _ => false
  }

  ghost predicate LogKnown(slots: seq<Slot>, log: seq<Ticket>) {
    forall a :: 0 <= a < |log| ==> log[a].producer < |slots| && log[a].count <= slots[log[a].producer].seen
  }

  /** Tickets of one producer grow; the current batch names nobody twice. */
  ghost predicate LogGrows(log: seq<Ticket>, start: nat) {
    && start <= |log|
    && (forall a, b :: 0 <= a < b < |log| && log[a].producer == log[b].producer ==> log[a].count < log[b].count)
    && (forall a, b :: start <= a < b < |log| ==> log[a].producer != log[b].producer)
  }

  /** ... nor anybody still to come in the server's chain. */
  ghost predicate LogAhead(log: seq<Ticket>, start: nat, v: Serve, taken: seq<nat>) {
    && (v != Free && v != Outside ==>
          forall a :: 0 <= start <= a < |log| ==> log[a].producer !in taken && !InHand(v, log[a].producer))
    && (v == Take ==> start == |log|)
    && (forall i: nat :: InHand(v, i) ==> i !in taken)
  }

  ghost predicate LogOk(s: State) {
    LogKnown(s.slots, s.log) && LogGrows(s.log, s.start) && LogAhead(s.log, s.start, s.serve, s.taken)
  }

  /** Somebody will poll while there is something on the stack. */
  ghost predicate PollDue(s: State)
    requires |s.threads| > 0
  {
    || s.deadline
    || (exists i :: 0 <= i < |s.slots| && s.slots[i].pc == Asking)
    || s.threads[0] != Out
  }

  ghost predicate AskOk(s: State) {
    |s.threads| > 0 && (s.pending != None ==> PollDue(s))
  }

  /** The lock has one holder, and only its holder is inside. */
  ghost predicate LockOk(s: State) {
    && (forall k: nat :: k < |s.threads| && s.threads[k] == Inside ==> s.serve != Free && s.holder == k)
    && (s.serve != Free ==> s.holder < |s.threads| && s.threads[s.holder] == Inside)
    && (s.serve == Outside ==> s.holder != 0)
  }

  ghost predicate Inv(s: State) { ChainsOk(s) && SlotsOk(s) && LogOk(s) && AskOk(s) && LockOk(s) }

  lemma InitKeeps(s: State)
    requires Init(s)
    ensures Inv(s)
  {
  }

  // ---------------------------------------------------------------------------
  // Preservation: a producer's step
  // ---------------------------------------------------------------------------

  /** Writing the link of a slot that is in no chain disturbs no chain. */
  lemma SpellsKeeps(slots: seq<Slot>, i: nat, x: Slot, xs: seq<nat>)
    requires Spells(slots, xs) && i < |slots| && (i !in xs || x.next == slots[i].next)
    ensures Spells(slots[i := x], xs)
  {
  }

  lemma PostChains(s: State, i: nat, fails: bool)
    requires ChainsOk(s) && i < |s.slots| && PlaceOk(s, i) && LinkOk(s.slots[i])
    ensures ChainsOk(StepPost(s, i, fails))
  {
    hide Spells, Times;
    var s' := StepPost(s, i, fails);
    var x' := s'.slots[i];
    TimesIn(s.listed, i);
    TimesIn(s.taken, i);
    SpellsKeeps(s.slots, i, x', s.listed);
    SpellsKeeps(s.slots, i, x', s.taken);
    if s'.listed != s.listed {
      SpellsPush(s'.slots, i, s.listed);
    }
  }

  lemma SpellsPush(slots: seq<Slot>, i: nat, xs: seq<nat>)
    requires Spells(slots, xs) && i < |slots| && slots[i].next == HeadOf(xs)
    ensures Spells(slots, [i] + xs)
  {
  }

  lemma PostSlots(s: State, i: nat, fails: bool)
    requires SlotsOk(s) && i < |s.slots|
    ensures SlotsOk(StepPost(s, i, fails))
  {
    hide PlaceOk, LinkOk, CountOk;
    var s' := StepPost(s, i, fails);
    forall j: nat | j < |s'.slots| ensures PlaceOk(s', j) && LinkOk(s'.slots[j]) && CountOk(s', j) {
      PostSlot(s, i, fails, j);
    }
  }

  lemma PostSlot(s: State, i: nat, fails: bool, j: nat)
    requires i < |s.slots| && j < |s.slots| && PlaceOk(s, j) && LinkOk(s.slots[j]) && CountOk(s, j)
    ensures var s' := StepPost(s, i, fails); PlaceOk(s', j) && LinkOk(s'.slots[j]) && CountOk(s', j)
  {
    PostPlace(s, i, fails, j);
    PostCount(s, i, fails, j);
  }

  lemma PostPlace(s: State, i: nat, fails: bool, j: nat)
    requires i < |s.slots| && j < |s.slots| && PlaceOk(s, j)
    ensures PlaceOk(StepPost(s, i, fails), j)
  {
    hide Times;
    var s' := StepPost(s, i, fails);
    if s'.listed != s.listed {
      assert s'.listed[1..] == s.listed;
      TimesFirst(s'.listed, j);
    }
  }

  lemma PostCount(s: State, i: nat, fails: bool, j: nat)
    requires i < |s.slots| && j < |s.slots| && LinkOk(s.slots[j]) && CountOk(s, j)
    ensures var s' := StepPost(s, i, fails); LinkOk(s'.slots[j]) && CountOk(s', j)
  {
    PostServe(s, i, fails);
    hide StepPost;
    if i == j { PostOwnCount(s, i, fails); }
  }

  lemma PostServe(s: State, i: nat, fails: bool)
    requires i < |s.slots|
    ensures var s' := StepPost(s, i, fails);
            s'.serve == s.serve && |s'.slots| == |s.slots| && forall j: nat :: j < |s.slots| && j != i ==> s'.slots[j] == s.slots[j]
  {
  }

  lemma PostOwnCount(s: State, i: nat, fails: bool)
    requires i < |s.slots| && LinkOk(s.slots[i]) && CountOk(s, i)
    ensures var s' := StepPost(s, i, fails); LinkOk(s'.slots[i]) && CountOk(s', i)
  {
    hide StepPost, LinkOk, CountOk;
    PostOwnLink(s, i, fails);
    PostOwnTotal(s, i, fails);
  }

  lemma PostOwnLink(s: State, i: nat, fails: bool)
    requires i < |s.slots| && LinkOk(s.slots[i])
    ensures LinkOk(StepPost(s, i, fails).slots[i])
  {
  }

  lemma PostOwnTotal(s: State, i: nat, fails: bool)
    requires i < |s.slots| && LinkOk(s.slots[i]) && CountOk(s, i)
    ensures CountOk(StepPost(s, i, fails), i)
  {
  }

  lemma PostLog(s: State, i: nat, fails: bool)
    requires LogOk(s) && i < |s.slots|
    ensures LogOk(StepPost(s, i, fails))
  {
    hide LogGrows, LogAhead, LogKnown;
    SeenKeeps(s.slots, i, StepPost(s, i, fails).slots[i], s.log);
  }

  lemma SeenKeeps(slots: seq<Slot>, i: nat, x: Slot, log: seq<Ticket>)
    requires LogKnown(slots, log) && i < |slots| && x.seen >= slots[i].seen
    ensures LogKnown(slots[i := x], log)
  {
  }

  lemma PostAsk(s: State, i: nat, fails: bool)
    requires AskOk(s) && i < |s.slots|
    ensures AskOk(StepPost(s, i, fails))
  {
    var s' := StepPost(s, i, fails);
    if s'.pending != None && !s'.deadline && s'.threads[0] == Out {
      if s.slots[i].pc.Linking? && s'.pending != s.pending && s.pending == None {
        assert s'.slots[i].pc == Asking;
      } else {
        var j :| 0 <= j < |s.slots| && s.slots[j].pc == Asking;
        assert s'.slots[j].pc == Asking;
      }
    }
  }

  // ---------------------------------------------------------------------------
  // Preservation: the server's step
  // ---------------------------------------------------------------------------

  lemma ServeChains(s: State, k: nat)
    requires ChainsOk(s) && k < |s.threads| && s.serve != Free
    ensures ChainsOk(StepServe(s, k))
  {
    hide Spells;
    if s.serve.Clear? || s.serve.Note? {
      ServeSlotChains(s, k);
    } else if s.serve.Walk? {
      ServeWalkChains(s, k);
    } else if s.serve.Take? {
      SpellsHead(s.slots, s.listed);
      SpellsEmpty(s.slots);
    }
  }

  lemma ServeSlotChains(s: State, k: nat)
    requires ChainsOk(s) && k < |s.threads| && (s.serve.Clear? || s.serve.Note?)
    ensures ChainsOk(StepServe(s, k))
  {
    hide Spells;
    var s' := StepServe(s, k);
    SpellsKeeps(s.slots, s.serve.s, s'.slots[s.serve.s], s.listed);
    SpellsKeeps(s.slots, s.serve.s, s'.slots[s.serve.s], s.taken);
  }

  lemma ServeWalkChains(s: State, k: nat)
    requires ChainsOk(s) && k < |s.threads| && s.serve.Walk?
    ensures ChainsOk(StepServe(s, k))
  {
    hide Spells;
    if s.taken != [] { SpellsTail(s.slots, s.taken); }
  }

  lemma SpellsEmpty(slots: seq<Slot>)
    ensures Spells(slots, [])
  {
  }

  lemma SpellsHead(slots: seq<Slot>, xs: seq<nat>)
    requires Spells(slots, xs)
    ensures xs != [] ==> xs[0] < |slots|
  {
  }

  lemma SpellsTail(slots: seq<Slot>, xs: seq<nat>)
    requires Spells(slots, xs) && xs != []
    ensures xs[0] < |slots| && Spells(slots, xs[1..]) && slots[xs[0]].next == HeadOf(xs[1..])
    ensures xs[1..] != [] ==> xs[1] < |slots|
  {
  }

  lemma ServeSlots(s: State, k: nat)
    requires ChainsOk(s) && SlotsOk(s) && k < |s.threads| && s.serve != Free
    ensures SlotsOk(StepServe(s, k))
  {
    hide PlaceOk, LinkOk, CountOk, Spells;
    var s' := StepServe(s, k);
    forall j: nat | j < |s'.slots| ensures PlaceOk(s', j) && LinkOk(s'.slots[j]) && CountOk(s', j) {
      ServeSlot(s, k, j);
    }
  }

  lemma ServeSlot(s: State, k: nat, j: nat)
    requires Rest(s.serve, HeadOf(s.taken)) && ServeKnown(s) && k < |s.threads| && s.serve != Free
    requires j < |s.slots| && PlaceOk(s, j) && LinkOk(s.slots[j]) && CountOk(s, j)
    ensures var s' := StepServe(s, k); j < |s'.slots| && PlaceOk(s', j) && LinkOk(s'.slots[j]) && CountOk(s', j)
  {
    ServePlace(s, k, j);
    ServeCount(s, k, j);
  }

  lemma ServePlace(s: State, k: nat, j: nat)
    requires Rest(s.serve, HeadOf(s.taken)) && ServeKnown(s) && k < |s.threads| && s.serve != Free
    requires j < |s.slots| && PlaceOk(s, j)
    ensures var s' := StepServe(s, k); j < |s'.slots| && PlaceOk(s', j)
  {
    hide Times;
    TimesIn(s.taken, j);
    TimesIn(s.listed, j);
    if s.taken != [] { TimesFirst(s.taken, j); }
  }

  lemma ServeCount(s: State, k: nat, j: nat)
    requires ServeKnown(s) && k < |s.threads| && s.serve != Free
    requires j < |s.slots| && LinkOk(s.slots[j]) && CountOk(s, j)
    ensures var s' := StepServe(s, k); j < |s'.slots| && LinkOk(s'.slots[j]) && CountOk(s', j)
  {
  }

  lemma ServeLog(s: State, k: nat)
    requires ChainsOk(s) && SlotsOk(s) && LogOk(s) && k < |s.threads| && s.serve != Free
    ensures LogOk(StepServe(s, k))
  {
    hide Spells, SlotsOk, LogGrows, LogKnown;
    var s' := StepServe(s, k);
    match s.serve
    case Walk(p) =>
      if s.taken != [] { ServeLogWalk(s); }
    case Clear(x, _) => SeenKeeps(s.slots, x, s'.slots[x], s.log);
    case Note(x, m, _) => ServeLogNote(s, k);
    case _ =>
  }

  lemma ServeLogWalk(s: State)
    requires SlotsOk(s) && Spells(s.slots, s.taken) && s.taken != [] && s.serve.Walk?
    ensures s.taken[0] !in s.taken[1..]
  {
    hide Times;
    var x := s.taken[0];
    TimesFirst(s.taken, x);
    TimesIn(s.taken[1..], x);
    FirstKnown(s.slots, s.taken);
    assert PlaceOk(s, x);
  }

  lemma ServeLogNote(s: State, k: nat)
    requires SlotsOk(s) && LogOk(s) && k < |s.threads| && s.serve.Note? && ServeKnown(s)
    ensures LogOk(StepServe(s, k))
  {
    var x, m := s.serve.s, s.serve.m;
    assert CountOk(s, x);
    hide SlotsOk;
    if m != s.slots[x].seen {
      NoteGrows(s.slots, s.log, s.start, x, m);
      NoteAhead(s.log, s.start, s.serve, s.taken, m);
    }
  }

  lemma NoteGrows(slots: seq<Slot>, log: seq<Ticket>, start: nat, x: nat, m: nat)
    requires LogKnown(slots, log) && LogGrows(log, start) && x < |slots| && m > slots[x].seen
    requires forall a :: start <= a < |log| ==> log[a].producer != x
    ensures LogKnown(slots[x := slots[x].(seen := m)], log + [Ticket(x, m)])
    ensures LogGrows(log + [Ticket(x, m)], start)
  {
  }

  lemma NoteAhead(log: seq<Ticket>, start: nat, v: Serve, taken: seq<nat>, m: nat)
    requires LogAhead(log, start, v, taken) && v.Note?
    ensures LogAhead(log + [Ticket(v.s, m)], start, Walk(v.p), taken)
  {
    assert InHand(v, v.s);
  }

  lemma FirstKnown(slots: seq<Slot>, xs: seq<nat>)
    requires Spells(slots, xs) && xs != []
    ensures xs[0] < |slots|
  {
  }

  lemma ServeAsk(s: State, k: nat)
    requires AskOk(s) && ServeKnown(s) && k < |s.threads| && s.serve != Free && s.threads[k] == Inside
    requires s.serve == Outside ==> k != 0
    ensures AskOk(StepServe(s, k))
  {
    var s' := StepServe(s, k);
    if s'.pending != None && !s'.deadline && s'.threads[0] == Out {
      var j :| 0 <= j < |s.slots| && s.slots[j].pc == Asking;
      assert s'.slots[j].pc == Asking;
    }
  }

  // ---------------------------------------------------------------------------
  // Every run
  // ---------------------------------------------------------------------------

  lemma PostKeeps(s: State, i: nat, fails: bool)
    requires Inv(s) && i < |s.slots|
    ensures Inv(StepPost(s, i, fails))
  {
    hide ChainsOk, SlotsOk, LogOk, AskOk;
    PostChains(s, i, fails) by { assert SlotsOk(s); OneSlot(s, i); }
    PostSlots(s, i, fails);
    PostLog(s, i, fails);
    PostAsk(s, i, fails);
  }

  lemma OneSlot(s: State, i: nat)
    requires SlotsOk(s) && i < |s.slots|
    ensures PlaceOk(s, i) && LinkOk(s.slots[i])
  {
  }

  lemma JoinKeeps(s: State)
    requires Inv(s)
    ensures Inv(Apply(s, Join))
  {
    hide LogOk, AskOk, LockOk, SlotsOk;
    var s' := Apply(s, Join);
    assert forall i :: 0 <= i < |s.slots| ==> s'.slots[i] == s.slots[i];
    JoinSlots(s);
    assert LogOk(s') by { JoinLog(s); }
    assert AskOk(s') by { JoinAsk(s); }
    assert LockOk(s') by { JoinLock(s); }
  }

  lemma JoinLock(s: State)
    requires LockOk(s)
    ensures LockOk(Apply(s, Join))
  {
  }

  lemma JoinSlots(s: State)
    requires ChainsOk(s) && SlotsOk(s)
    ensures SlotsOk(Apply(s, Join))
  {
    var s' := Apply(s, Join);
    var n := |s.slots|;
    forall j: nat | j < |s'.slots| ensures PlaceOk(s', j) && LinkOk(s'.slots[j]) && CountOk(s', j) {
      if j < n { assert PlaceOk(s, j) && LinkOk(s.slots[j]) && CountOk(s, j); }
    }
  }

  lemma JoinLog(s: State)
    requires LogOk(s)
    ensures LogOk(Apply(s, Join))
  {
    hide LogGrows, LogAhead;
  }

  lemma JoinAsk(s: State)
    requires AskOk(s)
    ensures AskOk(Apply(s, Join))
  {
    var s' := Apply(s, Join);
    if s.pending != None && !s.deadline && s.threads[0] == Out {
      var j :| 0 <= j < |s.slots| && s.slots[j].pc == Asking;
      assert s'.slots[j].pc == Asking;
    }
  }

  lemma ServeKeeps(s: State, k: nat)
    requires Inv(s) && k < |s.threads| && s.threads[k] == Inside
    ensures ServeKnown(s) && Inv(StepServe(s, k))
  {
    assert ServeKnown(s) by { hide Spells; }
    hide ChainsOk, SlotsOk, LogOk, AskOk, StepServe, ServeKnown;
    ServeChains(s, k);
    ServeSlots(s, k);
    ServeLog(s, k);
    ServeAsk(s, k);
    ServeLock(s, k);
  }

  lemma ServeLock(s: State, k: nat)
    requires LockOk(s) && ServeKnown(s) && k < |s.threads| && s.threads[k] == Inside
    ensures LockOk(StepServe(s, k))
  {
  }

  /** A caller outside the critical section only moves itself, takes the free lock, or asks. */
  lemma CallerKeeps(s: State, a: Action)
    requires Inv(s) && Enabled(s, a)
    requires a.Call? || a.WithLock? || (a.Step? && s.threads[a.k] != Inside)
    ensures Inv(Apply(s, a))
  {
    hide Spells, PlaceOk, LinkOk, CountOk, LogOk, AskOk, LockOk;
    var s' := Apply(s, a);
    assert SlotsOk(s') by {
      forall j: nat | j < |s'.slots| ensures PlaceOk(s', j) && LinkOk(s'.slots[j]) && CountOk(s', j) {
        CallerSlot(s, a, j);
      }
    }
    CallerLog(s, a);
    CallerAsks(s, a);
    CallerLock(s, a);
  }

  lemma CallerSlot(s: State, a: Action, j: nat)
    requires Enabled(s, a) && j < |s.slots| && PlaceOk(s, j) && LinkOk(s.slots[j]) && CountOk(s, j)
    requires a.Call? || a.WithLock? || (a.Step? && s.threads[a.k] != Inside)
    ensures var s' := Apply(s, a); s'.slots == s.slots && PlaceOk(s', j) && LinkOk(s'.slots[j]) && CountOk(s', j)
  {
    CallerSlots(s, a);
    hide LinkOk;
    assert PlaceOk(Apply(s, a), j) by { hide CountOk; }
    hide PlaceOk;
  }

  lemma CallerSlots(s: State, a: Action)
    requires Enabled(s, a) && (a.Call? || a.WithLock? || (a.Step? && s.threads[a.k] != Inside))
    ensures Apply(s, a).slots == s.slots
  {
  }

  lemma CallerLog(s: State, a: Action)
    requires Enabled(s, a) && LogOk(s)
    requires a.Call? || a.WithLock? || (a.Step? && s.threads[a.k] != Inside)
    ensures LogOk(Apply(s, a))
  {
    hide LogKnown;
    assert LogGrows(s.log, |s.log|);
  }

  lemma CallerLock(s: State, a: Action)
    requires Enabled(s, a) && LockOk(s)
    requires a.Call? || a.WithLock? || (a.Step? && s.threads[a.k] != Inside)
    ensures LockOk(Apply(s, a))
  {
  }

  lemma CallerAsks(s: State, a: Action)
    requires AskOk(s) && Enabled(s, a)
    requires a.Call? || a.WithLock? || (a.Step? && s.threads[a.k] != Inside)
    ensures AskOk(Apply(s, a))
  {
    var s' := Apply(s, a);
    if s'.pending != None && !s'.deadline && s'.threads[0] == Out {
      var j :| 0 <= j < |s.slots| && s.slots[j].pc == Asking;
      assert s'.slots[j].pc == Asking;
    }
  }

  lemma StepKeeps(s: State, a: Action)
    requires Inv(s) && Enabled(s, a)
    ensures Inv(Apply(s, a))
  {
    hide Inv, StepServe, StepPost;
    match a
    case Join => JoinKeeps(s);
    case Post(i, fails) => PostKeeps(s, i, fails);
    case Call(_) => CallerKeeps(s, a);
    case WithLock(_) => CallerKeeps(s, a);
    case Step(k, _) => if s.threads[k] == Inside { ServeKeeps(s, k); } else { CallerKeeps(s, a); }
  }

  /** A run: the states passed through and the steps between them. */
  ghost predicate IsRun(run: seq<State>, acts: seq<Action>) {
    && |run| == |acts| + 1 && Init(run[0])
    && forall i :: 0 <= i < |acts| ==> Enabled(run[i], acts[i]) && run[i + 1] == Apply(run[i], acts[i])
  }

  lemma RunLength(run: seq<State>, acts: seq<Action>)
    requires IsRun(run, acts)
    ensures |run| == |acts| + 1
  {
  }

  lemma StepOf(run: seq<State>, acts: seq<Action>, i: nat)
    requires IsRun(run, acts) && i < |acts|
    ensures |run| == |acts| + 1 && Enabled(run[i], acts[i]) && run[i + 1] == Apply(run[i], acts[i])
  {
  }

  lemma {:induction false} RunKeeps(run: seq<State>, acts: seq<Action>, n: nat)
    requires IsRun(run, acts) && n < |run|
    ensures Inv(run[n])
  {
    hide Inv, Init;
    if n == 0 {
      InitKeeps(run[0]);
    } else {
      RunKeeps(run, acts, n - 1);
      StepOf(run, acts, n - 1);
      var a := acts[n - 1];
      StepKeeps(run[n - 1], a);
    }
  }

  // ---------------------------------------------------------------------------
  // What every run satisfies
  // ---------------------------------------------------------------------------

  /** A slot whose posts the server has not covered is on the stack, being listed, in the
      server's chain or hand, or its producer has not yet swapped `queued`. */
  lemma NoPostIsLost(run: seq<State>, acts: seq<Action>, n: nat, i: nat)
    requires IsRun(run, acts) && n < |run| && i < |run[n].slots| && run[n].slots[i].mark != run[n].slots[i].seen
    ensures var s := run[n];
            || i in s.listed || i in s.taken || InHand(s.serve, i)
            || s.slots[i].pc == Bumped || ListingSlot(s.slots[i].pc)
  {
    hide ChainsOk, LogOk, AskOk, LockOk;
    RunKeeps(run, acts, n);
    assert PlaceOk(run[n], i) && CountOk(run[n], i);
  }

  /** The stack, read link by link from its head, and the rest of the server's chain name every
      slot at most once between them, so both walks end. */
  lemma ChainsAreDistinct(run: seq<State>, acts: seq<Action>, n: nat)
    requires IsRun(run, acts) && n < |run|
    ensures var s := run[n];
            var all := s.listed + s.taken;
            && s.pending == HeadOf(s.listed) && Spells(s.slots, s.listed)
            && Rest(s.serve, HeadOf(s.taken)) && Spells(s.slots, s.taken)
            && forall a, b :: 0 <= a < b < |all| ==> all[a] != all[b]
  {
    hide LogOk, AskOk, LockOk;
    RunKeeps(run, acts, n);
    var s := run[n];
    var all := s.listed + s.taken;
    assert multiset(all) == multiset(s.listed) + multiset(s.taken);
    forall a, b | 0 <= a < b < |all| ensures all[a] != all[b] {
      if all[a] == all[b] {
        Twice(all, a, b);
        ChainSlot(s, all[a]);
      }
    }
  }

  lemma ChainSlot(s: State, i: nat)
    requires ChainsOk(s) && SlotsOk(s) && (i in s.listed || i in s.taken)
    ensures multiset(s.listed)[i] + multiset(s.taken)[i] <= 1
  {
    assert Times(s.listed, i) == multiset(s.listed)[i] && Times(s.taken, i) == multiset(s.taken)[i];
    assert i < |s.slots|;
    assert PlaceOk(s, i);
  }

  lemma Twice(xs: seq<nat>, a: nat, b: nat)
    requires a < b < |xs| && xs[a] == xs[b]
    ensures multiset(xs)[xs[a]] >= 2
  {
    assert xs == xs[..b] + [xs[b]] + xs[b + 1..];
    assert xs[..b][a] == xs[a];
    assert xs[a] in multiset(xs[..b]);
  }

  /** A batch names every producer at most once, and from batch to batch a producer's tickets
      strictly grow, up to what it has posted. */
  lemma TicketsGrow(run: seq<State>, acts: seq<Action>, n: nat)
    requires IsRun(run, acts) && n < |run|
    ensures var s := run[n];
            && s.start <= |s.log|
            && (forall a, b :: s.start <= a < b < |s.log| ==> s.log[a].producer != s.log[b].producer)
            && (forall a, b :: 0 <= a < b < |s.log| && s.log[a].producer == s.log[b].producer ==> s.log[a].count < s.log[b].count)
            && (forall a :: 0 <= a < |s.log| ==>
                  s.log[a].producer < |s.slots| && s.log[a].count <= s.slots[s.log[a].producer].mark)
  {
    hide ChainsOk, AskOk, LockOk, PlaceOk;
    RunKeeps(run, acts, n);
    var s := run[n];
    forall a | 0 <= a < |s.log|
      ensures s.log[a].producer < |s.slots| && s.log[a].count <= s.slots[s.log[a].producer].mark
    {
      assert CountOk(s, s.log[a].producer);
    }
  }

  /** While anything is on the stack, a poll is arranged: the duty's deadline is set, a producer
      is about to ask for it, or a run of the duty has yet to take its final look. */
  lemma PollIsArranged(run: seq<State>, acts: seq<Action>, n: nat)
    requires IsRun(run, acts) && n < |run| && run[n].pending != None
    ensures |run[n].threads| > 0 && PollDue(run[n])
  {
    hide ChainsOk, SlotsOk, LogOk, LockOk, PollDue;
    RunKeeps(run, acts, n);
  }

  // ---------------------------------------------------------------------------
  // The consumer hears of every post
  // ---------------------------------------------------------------------------

  /** What the server has seen is in a ticket, and outside a serve every ticket has been passed
      on. */
  ghost predicate ToldOk(s: State) {
    && (forall i :: 0 <= i < |s.slots| && s.slots[i].seen > 0 ==> Ticket(i, s.slots[i].seen) in s.log)
    && s.told <= |s.log|
    && (if s.serve == Free || s.serve == Outside then s.told == |s.log| else s.told == s.start)
  }

  lemma ToldStep(s: State, a: Action)
    requires ToldOk(s) && Enabled(s, a)
    ensures ToldOk(Apply(s, a))
  {
    hide StepServe, StepThread, StepPost;
    match a
    case Post(i, fails) => ToldPost(s, i, fails);
    case Step(k, fails) =>
      if s.threads[k] == Inside {
        ToldServe(s, k);
        InsideServes(s, k, fails);
      } else {
        ToldThread(s, k, fails);
      }
    case _ =>
  }

  lemma InsideServes(s: State, k: nat, fails: bool)
    requires k < |s.threads| && s.threads[k] == Inside && ServeKnown(s)
    ensures StepThread(s, k, fails) == StepServe(s, k)
  {
  }

  lemma ToldPost(s: State, i: nat, fails: bool)
    requires ToldOk(s) && i < |s.slots|
    ensures ToldOk(StepPost(s, i, fails))
  {
    PostLeavesLog(s, i, fails);
    hide StepPost;
  }

  lemma PostLeavesLog(s: State, i: nat, fails: bool)
    requires i < |s.slots|
    ensures var s' := StepPost(s, i, fails);
            && s'.log == s.log && s'.start == s.start && s'.told == s.told && s'.serve == s.serve
            && |s'.slots| == |s.slots| && s'.slots == s.slots[i := s'.slots[i]] && s'.slots[i].seen == s.slots[i].seen
  {
  }

  lemma ToldThread(s: State, k: nat, fails: bool)
    requires ToldOk(s) && Enabled(s, Step(k, fails)) && s.threads[k] != Inside
    ensures ToldOk(StepThread(s, k, fails))
  {
  }

  lemma ToldServe(s: State, k: nat)
    requires ToldOk(s) && k < |s.threads| && ServeKnown(s) && s.serve != Free
    ensures ToldOk(StepServe(s, k))
  {
    var s' := StepServe(s, k);
    forall i | 0 <= i < |s'.slots| && s'.slots[i].seen > 0 ensures Ticket(i, s'.slots[i].seen) in s'.log {
      if s'.log != s.log { assert s'.log[|s.log|] == Ticket(s.serve.s, s.serve.m); }
    }
  }

  /** How many posts producer `i` has begun in the first `n` steps. */
  ghost function Posts(run: seq<State>, acts: seq<Action>, n: nat, i: nat): nat
    requires |run| == |acts| + 1 && n <= |acts|
  {
    if n == 0 then 0 else
    Posts(run, acts, n - 1, i)
    + One(acts[n - 1].Post? && acts[n - 1].i == i && i < |run[n - 1].slots| && run[n - 1].slots[i].pc == Idle)
  }

  lemma {:induction false} PostsCounted(run: seq<State>, acts: seq<Action>, n: nat, i: nat)
    requires IsRun(run, acts) && n < |run|
    ensures |run| == |acts| + 1 && ToldOk(run[n])
    ensures Posts(run, acts, n, i)
            == if i < |run[n].slots| then run[n].slots[i].mark + One(run[n].slots[i].pc.Bumping?) else 0
  {
    hide IsRun, Enabled, Apply, Inv, ToldOk;
    RunLength(run, acts);
    if n == 0 {
      NothingPosted(run, acts);
    } else {
      PostsCounted(run, acts, n - 1, i);
      StepOf(run, acts, n - 1);
      RunKeeps(run, acts, n - 1);
      ToldStep(run[n - 1], acts[n - 1]);
      PostCounts(run[n - 1], acts[n - 1], i);
    }
  }

  lemma NothingPosted(run: seq<State>, acts: seq<Action>)
    requires IsRun(run, acts)
    ensures |run| > 0 && run[0].slots == [] && ToldOk(run[0])
  {
  }

  lemma PostCounts(s: State, a: Action, i: nat)
    requires Inv(s) && Enabled(s, a)
    ensures var s' := Apply(s, a);
            && |s.slots| <= |s'.slots|
            && (if i < |s'.slots| then s'.slots[i].mark + One(s'.slots[i].pc.Bumping?) else 0)
               == (if i < |s.slots| then s.slots[i].mark + One(s.slots[i].pc.Bumping?) else 0)
                  + One(a.Post? && a.i == i && i < |s.slots| && s.slots[i].pc == Idle)
  {
    if i < |s.slots| { OneCount(s, i); }
    hide Inv, StepServe, StepPost, StepThread;
    match a
    case Post(j, fails) => if i < |s.slots| { PostCountsOwn(s, j, fails, i); } else { PostSize(s, j, fails); }
    case Step(k, fails) => ThreadKeepsMarks(s, k, fails);
    case _ =>
  }

  lemma PostSize(s: State, j: nat, fails: bool)
    requires j < |s.slots|
    ensures |StepPost(s, j, fails).slots| == |s.slots|
  {
  }

  lemma ThreadKeepsMarks(s: State, k: nat, fails: bool)
    requires Enabled(s, Step(k, fails))
    ensures var s' := StepThread(s, k, fails);
            |s'.slots| == |s.slots| && forall i :: 0 <= i < |s.slots| ==>
              s'.slots[i].mark == s.slots[i].mark && s'.slots[i].pc == s.slots[i].pc
  {
    hide StepServe;
    if s.threads[k] == Inside { ServeKeepsMarks(s, k); }
  }

  lemma OneCount(s: State, i: nat)
    requires Inv(s) && i < |s.slots|
    ensures s.slots[i].pc.Bumping? ==> s.slots[i].pc.count == s.slots[i].mark + 1
  {
    hide ChainsOk, LogOk, AskOk, LockOk;
    assert CountOk(s, i);
  }

  lemma PostCountsOwn(s: State, j: nat, fails: bool, i: nat)
    requires j < |s.slots| && i < |s.slots| && (s.slots[i].pc.Bumping? ==> s.slots[i].pc.count == s.slots[i].mark + 1)
    ensures var s' := StepPost(s, j, fails);
            && |s'.slots| == |s.slots|
            && s'.slots[i].mark + One(s'.slots[i].pc.Bumping?)
               == s.slots[i].mark + One(s.slots[i].pc.Bumping?) + One(j == i && s.slots[i].pc == Idle)
  {
  }

  lemma ServeKeepsMarks(s: State, k: nat)
    requires k < |s.threads| && ServeKnown(s)
    ensures var s' := StepServe(s, k);
            |s'.slots| == |s.slots| && forall i :: 0 <= i < |s.slots| ==>
              s'.slots[i].mark == s.slots[i].mark && s'.slots[i].pc == s.slots[i].pc
  {
  }

  /** Whatever the server has seen of a producer's posts, the consumer is told of: by a ticket of
      a batch passed on, or of the batch at hand. */
  lemma SeenIsTold(run: seq<State>, acts: seq<Action>, n: nat, i: nat)
    requires IsRun(run, acts) && n < |run| && i < |run[n].slots| && run[n].slots[i].seen > 0
    ensures var s := run[n];
            && s.told <= |s.log| && (s.serve == Free || s.serve == Outside ==> s.told == |s.log|)
            && Ticket(i, s.slots[i].seen) in s.log
            && (s.told < |s.log| ==> s.told == s.start)
  {
    hide IsRun;
    PostsCounted(run, acts, n, i);
  }

  /** Once all is quiet and no poll is asked for, every producer's last post has been told of:
      the consumer was passed a ticket whose count is the number of its posts. */
  lemma QuietMeansServed(run: seq<State>, acts: seq<Action>, n: nat)
    requires IsRun(run, acts) && n < |run| && run[n].serve == Free
    requires |run[n].threads| > 0 && run[n].threads[0] == Out && !run[n].deadline
    requires forall i :: 0 <= i < |run[n].slots| ==> run[n].slots[i].pc == Idle
    ensures |run| == |acts| + 1 && run[n].told <= |run[n].log|
    ensures forall i: nat :: i < |run[n].slots| ==>
              && run[n].slots[i].seen == run[n].slots[i].mark == Posts(run, acts, n, i)
              && (Posts(run, acts, n, i) > 0 ==> Ticket(i, Posts(run, acts, n, i)) in run[n].log[..run[n].told])
  {
    hide IsRun, Inv, Posts;
    var s := run[n];
    assert s.listed == [] && s.taken == [] by {
      RunKeeps(run, acts, n);
      NothingListed(s);
    }
    PostsCounted(run, acts, n, 0);
    assert s.log[..s.told] == s.log;
    forall i: nat | i < |s.slots|
      ensures s.slots[i].seen == s.slots[i].mark == Posts(run, acts, n, i)
      ensures Posts(run, acts, n, i) > 0 ==> Ticket(i, Posts(run, acts, n, i)) in s.log
    {
      PostsCounted(run, acts, n, i);
      if s.slots[i].seen != s.slots[i].mark { NoPostIsLost(run, acts, n, i); }
    }
  }

  lemma NothingListed(s: State)
    requires Inv(s) && s.serve == Free && s.threads[0] == Out && !s.deadline
    requires forall i :: 0 <= i < |s.slots| ==> s.slots[i].pc == Idle
    ensures s.listed == [] && s.taken == []
  {
    hide SlotsOk, LogOk, LockOk, Spells;
  }

  // ---------------------------------------------------------------------------
  // A serve that is left alone
  // ---------------------------------------------------------------------------

  /** Taking `n` steps of thread `k` from `s`, and nobody else's, leads to `t`. */
  ghost predicate Alone(s: State, k: nat, n: nat, t: State)
    decreases n
  {
    if n == 0 then s == t else Enabled(s, Step(k, false)) && Alone(Apply(s, Step(k, false)), k, n - 1, t)
  }

  lemma {:induction false} AloneOn(s: State, k: nat, m: nat, t: State, n: nat, u: State)
    requires Alone(s, k, m, t) && Alone(t, k, n, u)
    ensures Alone(s, k, m + n, u)
    decreases m
  {
    hide Apply, Enabled;
    if m > 0 {
      AloneOn(Apply(s, Step(k, false)), k, m - 1, t, n, u);
    }
  }

  /** All posts of slot `i` are covered. */
  predicate Covered(s: State, i: nat) { i < |s.slots| && s.slots[i].seen == s.slots[i].mark }

  /** The rest of a serve covers the chain it took and whatever was covered before. */
  lemma {:induction false} WalkAlone(s: State, k: nat) returns (t: State)
    requires Inv(s) && k < |s.threads| && s.threads[k] == Inside && s.serve.Walk?
    ensures Alone(s, k, 4 * |s.taken| + 2, t)
    ensures t.serve == Free && t.threads == s.threads[k := if k == 0 then Checking else Out] && t.told == |t.log|
    ensures t.pending == s.pending && |t.slots| == |s.slots|
    ensures forall i: nat :: i < |s.slots| ==> t.slots[i].mark == s.slots[i].mark && t.slots[i].pc == s.slots[i].pc
    ensures forall i: nat :: i in s.taken || Covered(s, i) ==> Covered(t, i)
    decreases |s.taken|
  {
    hide Inv, Apply, Enabled, Alone;
    MayServe(s, k);
    if s.taken == [] {
      var s1 := Apply(s, Step(k, false));
      WalkEnds(s, s1, k);
      StepKeeps(s, Step(k, false));
      MayServe(s1, k);
      t := Apply(s1, Step(k, false));
      TwoAlone(s, s1, t, k);
      DeliverEnds(s1, t, k);
    } else {
      var s4 := OneAlone(s, k);
      t := WalkAlone(s4, k);
      AloneOn(s, k, 4, s4, 4 * |s4.taken| + 2, t);
      assert 4 + (4 * |s4.taken| + 2) == 4 * |s.taken| + 2;
      forall i: nat | i in s.taken || Covered(s, i) ensures Covered(t, i) {
        if i in s.taken { assert i == s.taken[0] || i in s.taken[1..]; }
      }
    }
  }

  lemma MayServe(s: State, k: nat)
    requires Inv(s) && k < |s.threads| && s.threads[k] == Inside
    ensures Enabled(s, Step(k, false)) && ServeKnown(s) && Rest(s.serve, HeadOf(s.taken))
    ensures Apply(s, Step(k, false)) == StepServe(s, k)
  {
    hide SlotsOk, LogOk, AskOk, Spells, StepServe;
  }

  lemma TwoAlone(s: State, s1: State, t: State, k: nat)
    requires Enabled(s, Step(k, false)) && s1 == Apply(s, Step(k, false))
    requires Enabled(s1, Step(k, false)) && t == Apply(s1, Step(k, false))
    ensures Alone(s, k, 2, t)
  {
    hide Apply, Enabled;
    assert Alone(t, k, 0, t);
    assert Alone(s1, k, 1, t);
  }

  lemma WalkEnds(s: State, s1: State, k: nat)
    requires k < |s.threads| && ServeKnown(s) && s.serve == Walk(None) && s1 == StepServe(s, k)
    ensures s1 == s.(serve := Deliver)
  {
  }

  lemma DeliverEnds(s: State, t: State, k: nat)
    requires k < |s.threads| && ServeKnown(s) && s.serve == Deliver && t == StepServe(s, k)
    ensures t == s.(serve := Free, told := |s.log|, threads := s.threads[k := if k == 0 then Checking else Out])
  {
  }

  /** One slot of the chain: four steps. */
  lemma OneAlone(s: State, k: nat) returns (t: State)
    requires Inv(s) && k < |s.threads| && s.threads[k] == Inside && s.serve.Walk? && s.taken != []
    ensures Inv(t) && Alone(s, k, 4, t) && t.serve.Walk? && t.taken == s.taken[1..]
    ensures t.threads == s.threads && t.pending == s.pending && |t.slots| == |s.slots|
    ensures forall i: nat :: i < |s.slots| ==> t.slots[i].mark == s.slots[i].mark && t.slots[i].pc == s.slots[i].pc
    ensures forall i: nat :: i == s.taken[0] || Covered(s, i) ==> Covered(t, i)
  {
    hide Inv, Apply, Enabled, StepServe, Alone;
    var a := Step(k, false);
    MayServe(s, k);
    var s1 := Apply(s, a);
    WalkNext(s, s1, k);
    StepKeeps(s, a);
    MayServe(s1, k);
    var s2 := Apply(s1, a);
    ClearNext(s1, s2, k);
    StepKeeps(s1, a);
    MayServe(s2, k);
    var s3 := Apply(s2, a);
    CollectNext(s2, s3, k);
    StepKeeps(s2, a);
    MayServe(s3, k);
    t := Apply(s3, a);
    NoteNext(s3, t, k);
    StepKeeps(s3, a);
    TwoAlone(s, s1, s2, k);
    TwoAlone(s2, s3, t, k);
    AloneOn(s, k, 2, s2, 2, t);
  }

  lemma WalkNext(s: State, s1: State, k: nat)
    requires k < |s.threads| && ServeKnown(s) && s.serve.Walk? && s.taken != [] && Rest(s.serve, HeadOf(s.taken))
    requires s1 == StepServe(s, k)
    ensures s1.serve.Clear? && s1.serve.s == s.taken[0] && s1 == s.(serve := s1.serve, taken := s.taken[1..])
  {
  }

  lemma ClearNext(s: State, s1: State, k: nat)
    requires k < |s.threads| && ServeKnown(s) && s.serve.Clear? && s1 == StepServe(s, k)
    ensures s1.serve.Collect? && s1.serve.s == s.serve.s && s1 == s.(serve := s1.serve, slots := s1.slots)
    ensures s1.slots == s.slots[s.serve.s := s.slots[s.serve.s].(queued := false)]
  {
  }

  lemma CollectNext(s: State, s1: State, k: nat)
    requires k < |s.threads| && ServeKnown(s) && s.serve.Collect? && s1 == StepServe(s, k)
    ensures s1.serve.Note? && s1.serve.s == s.serve.s && s1.serve.m == s.slots[s.serve.s].mark && s1 == s.(serve := s1.serve)
  {
  }

  lemma NoteNext(s: State, s1: State, k: nat)
    requires k < |s.threads| && ServeKnown(s) && s.serve.Note? && s1 == StepServe(s, k)
    ensures s1.serve.Walk? && s1 == s.(serve := s1.serve, slots := s1.slots, log := s1.log)
    ensures s1.slots == s.slots[s.serve.s := s.slots[s.serve.s].(seen := s.serve.m)]
  {
  }

  lemma {:induction false} ToldAlone(s: State, k: nat, n: nat, t: State)
    requires ToldOk(s) && Alone(s, k, n, t)
    ensures ToldOk(t)
    decreases n
  {
    hide ToldOk, Apply, Enabled;
    if n > 0 {
      ToldStep(s, Step(k, false));
      ToldAlone(Apply(s, Step(k, false)), k, n - 1, t);
    }
  }

  /** A call of `serve_now` that finds the lock free and is left alone covers, in a number of steps
      given by the stack's length, every slot on the stack, and passes on all tickets. */
  lemma ServesAlone(s: State, k: nat) returns (t: State)
    requires Inv(s) && ToldOk(s) && k < |s.threads| && s.threads[k] == Looking && s.serve == Free && s.pending != None
    ensures Alone(s, k, 4 * |s.listed| + 6, t)
    ensures t.serve == Free && t.pending == None && t.threads == s.threads[k := if k == 0 then Checking else Out]
    ensures t.told == |t.log| && ToldOk(t)
    ensures forall i: nat :: i in s.listed || Covered(s, i) ==> Covered(t, i)
  {
    hide Inv, StepServe, Alone;
    var a := Step(k, false);
    var s1, s2 := s.(threads := s.threads[k := BusyLoad]), s.(threads := s.threads[k := BusyCas]);
    assert Apply(s, a) == s1 && Apply(s1, a) == s2;
    var s3 := s2.(threads := s2.threads[k := Inside], serve := Take, holder := k, start := |s2.log|);
    assert Apply(s2, a) == s3;
    StepKeeps(s, a);
    StepKeeps(s1, a);
    StepKeeps(s2, a);
    MayServe(s3, k);
    var s4 := Apply(s3, a);
    TakeNext(s3, s4, k);
    StepKeeps(s3, a);
    hide Apply, Enabled;
    TwoAlone(s, s1, s2, k);
    TwoAlone(s2, s3, s4, k);
    AloneOn(s, k, 2, s2, 2, s4);
    t := WalkAlone(s4, k);
    AloneOn(s, k, 4, s4, 4 * |s4.taken| + 2, t);
    ToldAlone(s, k, 4 * |s.listed| + 6, t);
  }

  lemma TakeNext(s: State, s1: State, k: nat)
    requires k < |s.threads| && ServeKnown(s) && s.serve == Take && s1 == StepServe(s, k)
    ensures s1 == s.(pending := None, serve := Walk(s.pending), taken := s.listed, listed := [])
  {
  }

  /** How many steps a post has left. */
  function PostLeft(pc: Producer): nat {
    match pc
    case Idle => 0
    case Bumping(_) => 6
    case Bumped => 5
    case ReadHead => 4
    case Listing(_) => 3
    case Linking(_) => 2
    case Asking => 1
  }

  /** A post ends after at most seven steps, not counting compare-and-swaps that find another
      head, and those go on with that head. */
  lemma PostsEnd(run: seq<State>, acts: seq<Action>, n: nat, i: nat)
    requires IsRun(run, acts) && n < |acts| && acts[n] == Post(i, false)
    ensures i < |run[n].slots| == |run[n + 1].slots|
    ensures run[n].slots[i].pc != Idle ==>
              || PostLeft(run[n + 1].slots[i].pc) < PostLeft(run[n].slots[i].pc)
              || (run[n].slots[i].pc.Linking? && run[n].slots[i].pc.h != run[n].pending
                  && run[n + 1].slots[i].pc == Listing(run[n].pending))
  {
    hide IsRun;
    StepOf(run, acts, n);
  }

  /** How far a caller is from its return: the stage, and within a serve the steps left. */
  function Stage(s: State, k: nat): nat
    requires k < |s.threads|
  {
    match s.threads[k]
    case Out => 0
    case AskAgain => 1
    case Checking => 2
    case Inside => if s.serve == Take then 4 else 3
    case BusyCas => 5
    case BusyLoad => 6
    case Looking => 7
  }

  function ServeLeft(s: State): nat {
    match s.serve
    case Walk(_) => 4 * |s.taken| + 2
    case Clear(_, _) => 4 * |s.taken| + 5
    case Collect(_, _) => 4 * |s.taken| + 4
    case Note(_, _, _) => 4 * |s.taken| + 3
    case Deliver => 1
    case Outside => 1
    case _ => 0
  }

  /** Every call of `serve_now` and `with_lock` ends: each step of the caller brings it nearer to
      its return, and nobody else touches what the holder of the lock walks over. */
  lemma CallersEnd(run: seq<State>, acts: seq<Action>, n: nat, k: nat)
    requires IsRun(run, acts) && n < |acts| && k < |run[n].threads| && run[n].threads[k] != Out
    ensures |run| == |acts| + 1 && k < |run[n + 1].threads|
    ensures if acts[n].Step? && acts[n].k == k
            then Stage(run[n + 1], k) < Stage(run[n], k)
                 || (Stage(run[n + 1], k) == Stage(run[n], k) == 3 && ServeLeft(run[n + 1]) < ServeLeft(run[n]))
            else run[n + 1].threads[k] == run[n].threads[k]
                 && (run[n].threads[k] == Inside ==> run[n + 1].serve == run[n].serve && run[n + 1].taken == run[n].taken)
  {
    hide IsRun, ChainsOk, SlotsOk, LogOk, AskOk, StepServe, StepPost;
    StepOf(run, acts, n);
    RunKeeps(run, acts, n);
    match acts[n]
    case Step(j, fails) =>
      if run[n].threads[j] == Inside {
        MayServe(run[n], j);
        ServeShortens(run[n], j);
      } else {
        CallShortens(run[n], j, fails, k);
      }
    case Post(i, fails) => PostLeavesServe(run[n], i, fails);
    case _ =>
  }

  lemma ServeShortens(s: State, k: nat)
    requires k < |s.threads| && s.threads[k] == Inside && s.serve != Free
    requires ServeKnown(s) && Rest(s.serve, HeadOf(s.taken))
    ensures var s' := StepServe(s, k);
            && |s'.threads| == |s.threads| && s'.threads == s.threads[k := s'.threads[k]]
            && (Stage(s', k) < Stage(s, k) || (Stage(s', k) == Stage(s, k) == 3 && ServeLeft(s') < ServeLeft(s)))
  {
  }

  lemma CallShortens(s: State, j: nat, fails: bool, k: nat)
    requires LockOk(s) && Enabled(s, Step(j, fails)) && s.threads[j] != Inside && k < |s.threads|
    ensures var s' := StepThread(s, j, fails);
            && |s'.threads| == |s.threads| && s'.threads == s.threads[j := s'.threads[j]] && Stage(s', j) < Stage(s, j)
            && (s.threads[k] == Inside ==> s'.serve == s.serve && s'.taken == s.taken)
  {
  }

  lemma PostLeavesServe(s: State, i: nat, fails: bool)
    requires i < |s.slots|
    ensures var s' := StepPost(s, i, fails); s'.threads == s.threads && s'.serve == s.serve && s'.taken == s.taken
  {
  }

  /** Nobody asks for a poll in vain: a producer asks exactly if it put its slot on an empty stack,
      the runner of the duty, which has used its deadline up, exactly if it sees something on the
      stack afterwards, and nobody else; and who asks sets the deadline. */
  lemma AsksExactlyForWork(run: seq<State>, acts: seq<Action>, n: nat)
    requires IsRun(run, acts) && n < |acts|
    ensures |run| == |acts| + 1
    ensures forall i: nat :: i < |run[n].slots| && acts[n].Post? && acts[n].i == i && i < |run[n + 1].slots| ==>
              (run[n + 1].slots[i].pc == Asking <==> run[n].pending == None && run[n + 1].pending == Some(i))
    ensures forall k: nat :: k < |run[n].threads| && acts[n].Step? && acts[n].k == k && run[n].threads[k] == Checking ==>
              k < |run[n + 1].threads| && run[n + 1].threads[k] == (if run[n].pending == None then Out else AskAgain)
    ensures acts[n] == Call(0) ==> !run[n + 1].deadline
    ensures run[n + 1].deadline && !run[n].deadline ==>
              || (acts[n].Post? && acts[n].i < |run[n].slots| && run[n].slots[acts[n].i].pc == Asking)
              || (acts[n].Step? && acts[n].k < |run[n].threads| && run[n].threads[acts[n].k] == AskAgain)
    ensures ((acts[n].Post? && acts[n].i < |run[n].slots| && run[n].slots[acts[n].i].pc == Asking)
             || (acts[n].Step? && acts[n].k < |run[n].threads| && run[n].threads[acts[n].k] == AskAgain)) ==>
              run[n + 1].deadline
    ensures acts[n] != Call(0) && run[n].deadline ==> run[n + 1].deadline
  {
    hide IsRun, Inv, StepServe;
    StepOf(run, acts, n);
    match acts[n]
    case Post(i, fails) => hide StepPost; AskStep(run[n], i, fails);
    case Step(k, fails) => if run[n].threads[k] == Inside { ServeAsksNobody(run[n], k, fails); }
    case _ =>
  }

  lemma AskStep(s: State, i: nat, fails: bool)
    requires i < |s.slots|
    ensures var s' := StepPost(s, i, fails);
            && |s'.slots| == |s.slots|
            && (s'.slots[i].pc == Asking <==> s.pending == None && s'.pending == Some(i))
            && (s'.deadline <==> s.deadline || s.slots[i].pc == Asking)
  {
  }

  lemma ServeAsksNobody(s: State, k: nat, fails: bool)
    requires k < |s.threads| && s.threads[k] == Inside && ServeKnown(s)
    ensures StepThread(s, k, fails).deadline == s.deadline
  {
  }

  /** A newcomer gets a slot of its own, with nothing posted; and `serve_now` goes for the lock
      exactly if it sees something on the stack and the lock free. */
  lemma GoesForTheLock(run: seq<State>, acts: seq<Action>, n: nat)
    requires IsRun(run, acts) && n < |acts|
    ensures |run| == |acts| + 1
    ensures acts[n] == Join ==> run[n + 1].slots == run[n].slots + [Slot(0, false, None, 0, Idle)]
    ensures acts[n].Step? && acts[n].k < |run[n].threads| && run[n].threads[acts[n].k] == Looking ==>
              && acts[n].k < |run[n + 1].threads|
              && (run[n + 1].threads[acts[n].k] == BusyLoad <==> run[n].pending != None)
    ensures acts[n].Step? && acts[n].k < |run[n].threads| && run[n].threads[acts[n].k] == BusyLoad ==>
              && acts[n].k < |run[n + 1].threads|
              && (run[n + 1].threads[acts[n].k] == BusyCas <==> run[n].serve == Free)
  {
    hide IsRun, Inv, StepServe, StepPost;
    StepOf(run, acts, n);
  }

  /** No caller and no holder of the lock is ever stuck. */
  lemma CallersNeverStuck(run: seq<State>, acts: seq<Action>, n: nat, k: nat)
    requires IsRun(run, acts) && n < |run| && k < |run[n].threads| && run[n].threads[k] != Out
    ensures Enabled(run[n], Step(k, false))
  {
    hide IsRun, SlotsOk, LogOk, AskOk, Spells;
    RunKeeps(run, acts, n);
  }
}
