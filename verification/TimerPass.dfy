/** One pass of the timer duty's poll over the queue (`fire_timers` in src/duty.rs), as the loop
    it is: pop every entry that is due, mark its slot fired and take its waker.  What sleepers may
    do around such a pass is in `Timers`. */
module TimerPass {
  import opened Basics
  import opened Timers

  /** A slot, which its sleeper keeps even when the queue has let go of it. */
  datatype Slot = Slot(fired: bool, waker: Option<nat>)

  /** What firing does to a slot. */
  function Fired(s: Slot): Slot { Slot(true, None) }

  /** Entries that are not due. */
  function Later(heap: set<Entry>, now: nat): set<Entry> { set e | e in heap && e.at > now }

  class TimerQueue {
    var heap: set<Entry>
    /** The ids still registered (the keys of the source's map), and every slot ever made. */
    var slots: set<nat>
    var made: map<nat, Slot>

    /** Ids are unique, and every registered id has its entry; an entry whose sleeper was dropped
        is no longer registered. */
    ghost predicate Valid()
      reads this
    {
      Consistent(heap, slots, made)
    }

    constructor ()
      ensures Valid() && heap == {} && slots == {} && made == map[]
    {
      heap, slots, made := {}, {}, map[];
    }

    /** Registering a sleeper. */
    method Add(e: Entry, waker: nat)
      requires Valid() && e.id !in made
      modifies this
      ensures Valid() && heap == old(heap) + {e} && slots == old(slots) + {e.id}
      ensures made == old(made)[e.id := Slot(false, Some(waker))]
    {
      slots := slots + {e.id};
      heap := heap + {e};
      made := made[e.id := Slot(false, Some(waker))];
      assert forall id :: id in old(slots) ==> exists x :: x in old(heap) && x.id == id && x in heap;
    }

    /** A dropped sleeper gives up its waker and its registration; its entry stays and fires
        harmlessly later. */
    method Remove(id: nat)
      requires Valid() && id in made
      modifies this`slots, this`made
      ensures Valid() && slots == old(slots) - {id} && made == old(made)[id := old(made)[id].(waker := None)]
    {
      made := made[id := made[id].(waker := None)];
      slots := slots - {id};
    }

    /** Afterwards exactly the entries that are not due are left; every registered sleeper that
        was due is fired and gone from the queue, and its waker is in `woken`, once; the others
        are as they were; and `next` is the time of the first entry left. */
    method Fire(now: nat) returns (woken: seq<Wake>, next: Option<nat>)
      requires Valid()
      modifies this
      ensures Valid() && heap == Later(old(heap), now)
      ensures Popped(old(heap), old(slots), old(made), heap, slots, made, woken)
      ensures next.None? <==> heap == {}
      ensures next.Some? ==> now < next.value && exists e :: First(heap, e) && e.at == next.value
    {
      hide Popped, Consistent;
      woken := [];
      PoppedNone(heap, slots, made);
      while heap != {}
        invariant Valid() && heap <= old(heap) && (forall e :: e in old(heap) && e !in heap ==> e.at <= now)
        invariant Popped(old(heap), old(slots), old(made), heap, slots, made, woken)
        decreases |heap|
      {
        FirstExists(heap);
        var e :| e in heap && First(heap, e);
        if e.at > now {
          break;
        }
        PoppedOne(old(heap), old(slots), old(made), heap, slots, made, woken, e);
        heap := heap - {e};
        if e.id in slots {
          slots := slots - {e.id};
          if made[e.id].waker.Some? {
            woken := woken + [Wake(e.id, made[e.id].waker.value)];
          }
          made := made[e.id := Slot(true, None)];
        }
      }
      next := None;
      if heap != {} {
        FirstExists(heap);
        var e :| e in heap && First(heap, e);
        next := Some(e.at);
      }
    }
  }

  ghost predicate Consistent(heap: set<Entry>, slots: set<nat>, made: map<nat, Slot>) {
    && (forall e :: e in heap ==> e.id in made)
    && (forall e, x :: e in heap && x in heap && e.id == x.id ==> e == x)
    && (forall id :: id in slots ==> id in made && exists e :: e in heap && e.id == id)
  }

  /** `heap`, `slots`, `made` is what popping the entries missing from `heap` makes of a queue. */
  ghost predicate Popped(heap0: set<Entry>, slots0: set<nat>, made0: map<nat, Slot>,
                         heap: set<Entry>, slots: set<nat>, made: map<nat, Slot>, woken: seq<Wake>)
  {
    && made.Keys == made0.Keys && slots <= slots0
    && (forall e :: e in heap0 && e.id in made0 ==> EntryPopped(e, e in heap, slots0, made0, slots, made))
    && Taken(heap0 - heap, slots0, made0, woken)
  }

  predicate EntryPopped(e: Entry, left: bool, slots0: set<nat>, made0: map<nat, Slot>, slots: set<nat>, made: map<nat, Slot>)
    requires made.Keys == made0.Keys && e.id in made0
  {
    if left || e.id !in slots0 then made[e.id] == made0[e.id] && (e.id in slots <==> e.id in slots0)
    else made[e.id] == Fired(made0[e.id]) && e.id !in slots
  }

  lemma PoppedNone(heap: set<Entry>, slots: set<nat>, made: map<nat, Slot>)
    ensures Popped(heap, slots, made, heap, slots, made, [])
  {
    assert heap - heap == {};
  }

  lemma PoppedOne(heap0: set<Entry>, slots0: set<nat>, made0: map<nat, Slot>,
                  heap: set<Entry>, slots: set<nat>, made: map<nat, Slot>, woken: seq<Wake>, e: Entry)
    requires Consistent(heap0, slots0, made0) && Consistent(heap, slots, made) && heap <= heap0 && e in heap
    requires Popped(heap0, slots0, made0, heap, slots, made, woken)
    ensures e.id in made
    ensures var registered := e.id in slots;
            var slots' := if registered then slots - {e.id} else slots;
            var made' := if registered then made[e.id := Slot(true, None)] else made;
            var woken' := if registered && made[e.id].waker.Some? then woken + [Wake(e.id, made[e.id].waker.value)] else woken;
            Consistent(heap - {e}, slots', made') && Popped(heap0, slots0, made0, heap - {e}, slots', made', woken')
  {
    assert EntryPopped(e, true, slots0, made0, slots, made);
    TakenMore(heap0 - heap, slots0, made0, woken, e);
    assert heap0 - (heap - {e}) == (heap0 - heap) + {e};
    hide Taken;
    var slots' := if e.id in slots then slots - {e.id} else slots;
    var made' := if e.id in slots then made[e.id := Slot(true, None)] else made;
    forall x | x in heap0 && x.id in made0 ensures EntryPopped(x, x in heap - {e}, slots0, made0, slots', made') {
      assert EntryPopped(x, x in heap, slots0, made0, slots, made);
    }
    forall id | id in slots' ensures id in made' && exists x :: x in heap - {e} && x.id == id {
      var x :| x in heap && x.id == id;
      assert x in heap - {e};
    }
  }

  /** `woken` holds the wakers of the registered entries in `popped`, each once. */
  ghost predicate Taken(popped: set<Entry>, slots: set<nat>, made: map<nat, Slot>, woken: seq<Wake>) {
    && (forall k :: k in woken ==> WokenBy(popped, slots, made, k))
    && (forall e :: e in popped && e.id in slots && e.id in made && made[e.id].waker.Some? ==>
          Wake(e.id, made[e.id].waker.value) in woken)
    && (forall a, b :: 0 <= a < b < |woken| ==> woken[a].i != woken[b].i)
  }

  ghost predicate WokenBy(popped: set<Entry>, slots: set<nat>, made: map<nat, Slot>, k: Wake) {
    k.i in slots && k.i in made && made[k.i].waker == Some(k.poll) && exists e :: e in popped && e.id == k.i
  }

  lemma TakenMore(popped: set<Entry>, slots: set<nat>, made: map<nat, Slot>, woken: seq<Wake>, e: Entry)
    requires Taken(popped, slots, made, woken) && (forall x :: x in popped ==> x.id != e.id)
    ensures Taken(popped + {e}, slots, made,
                  if e.id in slots && e.id in made && made[e.id].waker.Some?
                  then woken + [Wake(e.id, made[e.id].waker.value)] else woken)
  {
    forall k | k in woken ensures WokenBy(popped + {e}, slots, made, k) && k.i != e.id {
      assert WokenBy(popped, slots, made, k);
      var x :| x in popped && x.id == k.i;
      assert x in popped + {e};
    }
    assert e in popped + {e};
  }
}
