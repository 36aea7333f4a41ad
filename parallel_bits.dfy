/**
 * The cross-wiring of the Game Gear link cable in parallel mode
 * (scrambleParallelBits / unscrambleParallelBits). Seven data lines are
 * wired across; bit 7 is not connected.
 */
module ParallelBits {
  import opened Bits

  /** Received position of sent bit `i`: 0->2, 1->3, 2->1, 3->0, 4->5, 5->4, 6->6. */
  function ScrambleWire(i: BitIndex): (j: BitIndex)
    requires i < 7
    ensures j < 7
  {
    match i
    case 0 => 2
    case 1 => 3
    case 2 => 1
    case 3 => 0
    case 4 => 5
    case 5 => 4
    case _ => 6
  }

  /** The reverse table: original position of received bit `j`. */
  function UnscrambleWire(j: BitIndex): (i: BitIndex)
    requires j < 7
    ensures i < 7
  {
    match j
    case 2 => 0
    case 3 => 1
    case 1 => 2
    case 0 => 3
    case 5 => 4
    case 4 => 5
    case _ => 6
  }

  /** The two wiring tables undo each other, in both orders. */
  lemma {:induction false} WiresInverse(i: BitIndex)
    requires i < 7
    ensures UnscrambleWire(ScrambleWire(i)) == i
    ensures ScrambleWire(UnscrambleWire(i)) == i
  {
    if i == 0 {} else if i == 1 {} else if i == 2 {} else if i == 3 {}
    else if i == 4 {} else if i == 5 {} else {}
  }

  /** What the receiver sees when `data` is driven onto the cable. */
  function Scramble(data: bv8): (r: bv8)
    ensures r < 0x80
    ensures forall i: BitIndex | i < 7 :: GetBit(r, ScrambleWire(i)) == GetBit(data, i)
  {
    (if data & 0x01 != 0 then 0x04 else 0) |
    (if data & 0x02 != 0 then 0x08 else 0) |
    (if data & 0x04 != 0 then 0x02 else 0) |
    (if data & 0x08 != 0 then 0x01 else 0) |
    (if data & 0x10 != 0 then 0x20 else 0) |
    (if data & 0x20 != 0 then 0x10 else 0) |
    (if data & 0x40 != 0 then 0x40 else 0)
  }

  /** The sender's byte recovered from what was received. */
  function Unscramble(data: bv8): (r: bv8)
    ensures r < 0x80
    ensures forall j: BitIndex | j < 7 :: GetBit(r, UnscrambleWire(j)) == GetBit(data, j)
  {
    (if data & 0x04 != 0 then 0x01 else 0) |
    (if data & 0x08 != 0 then 0x02 else 0) |
    (if data & 0x02 != 0 then 0x04 else 0) |
    (if data & 0x01 != 0 then 0x08 else 0) |
    (if data & 0x20 != 0 then 0x10 else 0) |
    (if data & 0x10 != 0 then 0x20 else 0) |
    (if data & 0x40 != 0 then 0x40 else 0)
  }

  /** Unscrambling a scrambled byte gives back its seven connected bits. */
  lemma UnscrambleScramble(data: bv8)
    ensures Unscramble(Scramble(data)) == data & 0x7F
  {
  }

  /** Scrambling an unscrambled byte gives back its seven connected bits. */
  lemma ScrambleUnscramble(data: bv8)
    ensures Scramble(Unscramble(data)) == data & 0x7F
  {
  }
}
