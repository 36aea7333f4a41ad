/**
 * The serial half of the Game Gear link port: the baud-rate table, the
 * length of one byte transfer in CPU clocks, and the transfer countdown
 * as a pure state machine over batches of elapsed clocks.
 */
module SerialLink {

  /** NTSC Game Gear CPU clock in Hz. */
  const CpuClockHz: int := 3579545

  /** Rates selected by bits 6-7 of port 5, in selector order. */
  const BaudOptions: seq<int> := [4800, 2400, 1200, 300]

  /** The rate in force before any port-5 write, and the fallback of the clock computation. */
  const DefaultBaud: int := 4800

  /** The table index that a port-5 write selects: bits 6-7 of the written value. */
  function BaudSelector(value: bv8): (sel: nat)
    ensures sel < |BaudOptions|
    ensures sel == value as int / 64
  {
    ((value >> 6) & 0x03) as int
  }

  /**
   * Clocks needed to shift out one byte (eight bit-times) at `baud`,
   * truncated to a whole number; a rate outside the table is timed as 4800.
   */
  function TransferClocks(baud: int): (r: int)
    ensures r > 0
    ensures var b := if baud in BaudOptions then baud else DefaultBaud;
            r * b <= 8 * CpuClockHz < (r + 1) * b
  {
    if baud == 4800 then 8 * CpuClockHz / 4800
    else if baud == 2400 then 8 * CpuClockHz / 2400
    else if baud == 1200 then 8 * CpuClockHz / 1200
    else if baud == 300 then 8 * CpuClockHz / 300
    else 8 * CpuClockHz / 4800
  }

  /** The four transfer lengths of the table. */
  lemma TransferClocksTable()
    ensures TransferClocks(4800) == 5965
    ensures TransferClocks(2400) == 11931
    ensures TransferClocks(1200) == 23863
    ensures TransferClocks(300) == 95454
  {
  }

  /** The serial fields of one port controller. */
  datatype SerialState = SerialState(active: bool, countdown: int, sendData: bv8)

  /** While a transfer is active its countdown has not yet expired. */
  predicate WellFormed(s: SerialState)
  {
    s.active ==> s.countdown > 0
  }

  /** A state after some clocks, with the bytes handed to the peer meanwhile. */
  datatype Step = Step(after: SerialState, sent: seq<bv8>)

  /** One call of UpdateSerial with `clocks` elapsed clocks. */
  function Advance(s: SerialState, clocks: int): (r: Step)
    ensures !s.active ==> r == Step(s, [])
    ensures r.after.sendData == s.sendData
    ensures r.after.active ==> s.active
    ensures r.sent == (if s.active && !r.after.active then [s.sendData] else [])
    ensures WellFormed(s) ==> WellFormed(r.after)
  {
    if !s.active then Step(s, [])
    else if s.countdown > 0 then
      var left := s.countdown - clocks;
      if left <= 0 then Step(SerialState(false, left, s.sendData), [s.sendData])
      else Step(SerialState(true, left, s.sendData), [])
    else Step(s, [])
  }

  /** Successive UpdateSerial calls, one per batch of elapsed clocks. */
  function Run(s: SerialState, batches: seq<int>): (r: Step)
    ensures !s.active ==> r == Step(s, [])
    ensures |r.sent| <= 1
    ensures r.sent != [] ==> r.sent == [s.sendData] && s.active && !r.after.active
    ensures WellFormed(s) ==> WellFormed(r.after)
    decreases |batches|
  {
    if batches == [] then Step(s, [])
    else
      var first := Advance(s, batches[0]);
      var rest := Run(first.after, batches[1..]);
      Step(rest.after, first.sent + rest.sent)
  }

  /** Total number of clocks in `batches`. */
  function Sum(batches: seq<int>): int
  {
    if batches == [] then 0 else batches[0] + Sum(batches[1..])
  }

  lemma {:induction false} SumNonNegative(batches: seq<int>)
    requires forall i | 0 <= i < |batches| :: batches[i] >= 0
    ensures Sum(batches) >= 0
  {
    if batches != [] {
      SumNonNegative(batches[1..]);
    }
  }

  /**
   * A transfer with `countdown` clocks to go, advanced by non-negative
   * batches: while the total stays below the countdown TXFL stays set and
   * nothing is sent; once the total reaches it the transfer is over and the
   * send byte has been handed over exactly once.
   */
  lemma {:induction false} RunCompletesAtTotal(s: SerialState, batches: seq<int>)
    requires s.active && s.countdown > 0
    requires forall i | 0 <= i < |batches| :: batches[i] >= 0
    ensures Run(s, batches).after.active <==> Sum(batches) < s.countdown
    ensures Run(s, batches).sent == (if Sum(batches) < s.countdown then [] else [s.sendData])
    ensures Sum(batches) < s.countdown ==> Run(s, batches).after.countdown == s.countdown - Sum(batches)
    decreases |batches|
  {
    if batches != [] {
      var first := Advance(s, batches[0]);
      var tail := batches[1..];
      assert forall i | 0 <= i < |tail| :: tail[i] >= 0 by {
        forall i | 0 <= i < |tail| ensures tail[i] >= 0 {
          assert tail[i] == batches[i + 1];
        }
      }
      SumNonNegative(tail);
      if first.after.active {
        RunCompletesAtTotal(first.after, tail);
      }
    }
  }
}
