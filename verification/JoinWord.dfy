/** How the join word packs its states into one machine word (src/resumable/common/desc.rs):
    three small constants, a plain descriptor pointer, or a pointer with a tag in bit 0 or
    bit 1. */
module JoinWord {

  const FINISHED := 1
  const DETACHED := 2

  datatype JoinState =
    | Running
    | Finished
    | Detached
    | SyncJoiner(p: nat)
    | AsyncWaker(p: nat)
    | AsyncJoiner(p: nat)

  function Bit0(v: nat): nat { v % 2 }

  function Bit1(v: nat): nat { v / 2 % 2 }

  /** `v | 1` and `v | 2`. */
  function Or1(v: nat): nat { if Bit0(v) == 0 then v + 1 else v }

  function Or2(v: nat): nat { if Bit1(v) == 0 then v + 2 else v }

  function Encode(s: JoinState): nat {
    match s
    case Running => 0
    case Finished => FINISHED
    case Detached => DETACHED
    case SyncJoiner(p) => p
    case AsyncWaker(p) => Or1(p)
    case AsyncJoiner(p) => Or2(p)
  }

  /** `decode_join_state`, whose arms mask the tag off again. */
  function Decode(v: nat): JoinState {
    if v == 0 then Running
    else if v == FINISHED then Finished
    else if v == DETACHED then Detached
    else if Bit0(v) != 0 then AsyncWaker(v - 1)
    else if Bit1(v) != 0 then AsyncJoiner(v - 2)
    else SyncJoiner(v)
  }

  /** Not null, and aligned enough for its tags: even for a boxed waker, a multiple of four for a
      descriptor. */
  predicate Taggable(s: JoinState) {
    match s
    case SyncJoiner(p) => p != 0 && p % 4 == 0
    case AsyncWaker(p) => p != 0 && p % 2 == 0
    case AsyncJoiner(p) => p != 0 && p % 4 == 0
    case _ => true
  }

  /** A state survives the word exactly if its pointer is aligned that much. */
  lemma DecodeEncode(s: JoinState)
    ensures Decode(Encode(s)) == s <==> Taggable(s)
  {
    match s
    case SyncJoiner(p) => QuarterBits(p);
    case AsyncWaker(p) =>
    case AsyncJoiner(p) => QuarterBits(p); QuarterBits(p + 2);
    case _ =>
  }

  lemma QuarterBits(p: nat)
    ensures p % 4 == 0 <==> Bit0(p) == 0 && Bit1(p) == 0
    ensures Bit1(p + 2) == 1 - Bit1(p) && Bit0(p + 2) == Bit0(p)
  {
    Quarters(p / 4, p % 4);
  }

  lemma Quarters(q: nat, r: nat)
    requires r < 4
    ensures (4 * q + r) % 4 == r && Bit0(4 * q + r) == r % 2 && Bit1(4 * q + r) == r / 2
    ensures Bit0(4 * q + r + 2) == r % 2 && Bit1(4 * q + r + 2) == 1 - r / 2
  {
  }

  /** Every word a join word can hold stands for exactly one state, so comparing words, as every
      compare-and-swap does, is comparing states. */
  lemma EncodeDecode(v: nat)
    ensures Encode(Decode(v)) == v
  {
    if v > 2 { QuarterBits(v - 2); }
  }

  lemma WordsAreStates(a: JoinState, b: JoinState)
    requires Taggable(a) && Taggable(b)
    ensures Encode(a) == Encode(b) <==> a == b
  {
    DecodeEncode(a);
    DecodeEncode(b);
  }
}
