/** The wake word as a machine word, and its compare-and-swap loops as the loops they are
    (src/resumable/common/waker.rs, and `note_waker_shared` in src/resumable/stackless/desc.rs).
    Bits 0 and 1 hold the state, bit 63 says that a waker was ever cloned.

    A loop runs against other threads: `others[k]` is what they leave in the word between the
    loop's `k`-th load and its compare-and-swap, and the cell remembers all they have left.  A
    contract relates the word a loop leaves to `at`, the last word before its own store (or, if it
    stores nothing, the word it leaves). */
module WakeWord {
  import opened AsyncTasks

  const EVER_SHARED: nat := 0x8000_0000_0000_0000

  function Number(w: Wake): (n: nat)
    ensures n < 4
  {
    match w
    case IDLE => 0
    case POLLING => 1
    case PARKED => 2
    case NOTIFIED => 3
  }

  function StateOf(word: nat): Wake {
    if word % 4 == 0 then IDLE else if word % 4 == 1 then POLLING else if word % 4 == 2 then PARKED else NOTIFIED
  }

  /** `(word & !STATE_MASK) | state`. */
  function With(word: nat, w: Wake): nat { word - word % 4 + Number(w) }

  /** Replacing the state replaces nothing else. */
  lemma WithState(word: nat, w: Wake)
    ensures StateOf(With(word, w)) == w && With(word, w) / 4 == word / 4
    ensures With(word, StateOf(word)) == word
  {
  }

  datatype WakeOutcome = SetNotified | ClaimedParked | NoOp

  class WakeCell {
    var word: nat
    /** Every word other threads have left, oldest first. */
    ghost var changes: seq<nat>

    constructor (word: nat)
      ensures this.word == word && changes == []
    {
      this.word, changes := word, [];
    }

    /** Other threads change the word. */
    method Interfere(w: nat)
      modifies this
      ensures word == w && changes == old(changes) + [w]
    {
      word, changes := w, changes + [w];
    }

    /** `at` is the last word others have left since `before` (or `start`, if they left none), and
        what they left since is a beginning of `others`. */
    ghost predicate Last(at: nat, start: nat, before: seq<nat>, others: seq<nat>)
      reads this
    {
      && |before| <= |changes| <= |before| + |others| && changes == before + others[..|changes| - |before|]
      && at == if |changes| == |before| then start else changes[|changes| - 1]
    }

    /** One compare-and-swap. */
    method CompareExchange(expected: nat, desired: nat) returns (ok: bool)
      modifies this`word
      ensures ok == (old(word) == expected) && word == (if ok then desired else old(word))
    {
      ok := word == expected;
      if ok {
        word := desired;
      }
    }

    /** `park_after_poll` and `decide_park`: a wake that came during the poll is never overwritten,
        however often others change the word; it turns the park into another poll. */
    method ParkAfterPoll(others: seq<nat>) returns (parked: bool, ghost at: nat)
      modifies this
      ensures Last(at, old(word), old(changes), others)
      ensures parked <==> StateOf(at) != NOTIFIED
      ensures word == With(at, if parked then PARKED else POLLING)
    {
      var k := 0;
      at := word;
      while true
        invariant k <= |others| && |changes| == |old(changes)| + k && at == word && Last(at, old(word), old(changes), others)
        decreases |others| - k
      {
        var refs := word;
        if k < |others| {
          Interfere(others[k]);
        }
        at := word;
        parked := StateOf(refs) != NOTIFIED;
        var ok := CompareExchange(refs, With(refs, if parked then PARKED else POLLING));
        if ok {
          return;
        }
        k := k + 1;
      }
    }

    /** `try_wake_state`: the word goes where a wake takes it from whatever it was, and exactly the
        caller that took it out of PARKED owns the continuation. */
    method TryWake(others: seq<nat>) returns (outcome: WakeOutcome, ghost at: nat)
      modifies this
      ensures Last(at, old(word), old(changes), others)
      ensures outcome == (match StateOf(at)
                          case POLLING => SetNotified
                          case PARKED => ClaimedParked
                          case NOTIFIED => NoOp
                          case IDLE => NoOp)
      ensures word == if outcome == NoOp then at else With(at, Rung(StateOf(at)))
    {
      var k := 0;
      at := word;
      while true
        invariant k <= |others| && |changes| == |old(changes)| + k && at == word && Last(at, old(word), old(changes), others)
        decreases |others| - k
      {
        var refs := word;
        if StateOf(refs) == NOTIFIED || StateOf(refs) == IDLE {
          return NoOp, at;
        }
        if k < |others| {
          Interfere(others[k]);
        }
        at := word;
        var ok := CompareExchange(refs, With(refs, if StateOf(refs) == POLLING then NOTIFIED else POLLING));
        if ok {
          return if StateOf(refs) == POLLING then SetNotified else ClaimedParked, at;
        }
        k := k + 1;
      }
    }

    /** `note_waker_shared`: sets the mark and leaves the state as it is, whatever others make of it
        meanwhile. */
    method NoteShared(others: seq<nat>) returns (ghost at: nat)
      modifies this
      ensures Last(at, old(word), old(changes), others)
      ensures StateOf(word) == StateOf(at) && word >= EVER_SHARED
    {
      var k := 0;
      at := word;
      while true
        invariant k <= |others| && |changes| == |old(changes)| + k && at == word && Last(at, old(word), old(changes), others)
        decreases |others| - k
      {
        var refs := word;
        if k < |others| {
          Interfere(others[k]);
        }
        at := word;
        var ok := CompareExchange(refs, EVER_SHARED + refs % 4);
        if ok {
          return;
        }
        k := k + 1;
      }
    }
  }

  /** A park and a wake on the same word, in either order, never leave the task parked with the
      wake spent: either the wake finds PARKED and its caller owns the continuation, or the park
      finds NOTIFIED and polls again. */
  lemma ParkOrWakeWins(word: nat)
    requires StateOf(word) == POLLING
    ensures var parked := With(word, PARKED); StateOf(With(parked, Rung(StateOf(parked)))) == POLLING
    ensures var rung := With(word, Rung(StateOf(word))); StateOf(rung) == NOTIFIED && StateOf(With(rung, POLLING)) == POLLING
  {
    WithState(word, PARKED);
    WithState(With(word, PARKED), POLLING);
    WithState(word, NOTIFIED);
    WithState(With(word, NOTIFIED), POLLING);
  }
}
