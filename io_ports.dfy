/**
 * The Game Gear I/O port controller (GameGearIOPorts): the register bank
 * behind ports $00-$06 and $3F, dispatch of the 8-bit port space to the
 * video, audio, input and memory devices, the serial link to a second
 * console, and the two bytes kept in a save state.
 *
 * The devices are not part of this model. What the controller reads from
 * them arrives as parameters (DeviceReads, the cartridge zone, whether a
 * processor is attached); what it asks of them is appended to the ghost
 * log `effects` of the controller that asks.
 */
module GameGearIOPorts {
  import opened Bits
  import opened SerialLink

  /** Port 5 status and control bits. */
  const TxflBit: BitIndex := 0  // transmit buffer full: a transfer is in progress
  const RxrdBit: BitIndex := 1  // receive data ready
  const IntBit: BitIndex := 3   // NMI on receive
  const TonBit: BitIndex := 4   // transmit enable
  const RonBit: BitIndex := 5   // receive enable

  /** A request made to a device or to the processor. */
  datatype Effect =
    | RequestNmi
    | LatchHCounter
    | SetMemoryControl(value: bv8)
    | WriteStereo(value: bv8)
    | WritePsg(value: bv8)
    | WriteVdpData(value: bv8)
    | WriteVdpControl(value: bv8)

  /** The values the devices would return if asked during one port read. */
  datatype DeviceReads = DeviceReads(
    port00: bv8,       // input pad, start button and region
    portDC: bv8,       // I/O port A/B
    portDD: bv8,       // I/O port B/misc.
    vCounter: bv8,
    hCounter: bv8,
    dataPort: bv8,     // VDP data port
    statusFlags: bv8)  // VDP status

  /** The controller's byte registers. */
  datatype RegisterBank = RegisterBank(
    port0: bv8, port1: bv8, port2: bv8, port3: bv8, port4: bv8, port5: bv8, port6: bv8,
    port3F: bv8, port3FHC: bv8)

  /** Register values after Reset. */
  const PowerOn: RegisterBank :=
    RegisterBank(0xC0, 0x7F, 0xFF, 0x00, 0xFF, 0xF8, 0xFF, 0x00, 0x00)

  /** Odd ports in $07-$3F: the I/O control register. */
  predicate IsIoControlPort(port: bv8)
  {
    0x07 <= port < 0x40 && port & 0x01 == 0x01
  }

  /** Even ports in $07-$3F: the memory control register. */
  predicate IsMemoryControlPort(port: bv8)
  {
    0x07 <= port < 0x40 && port & 0x01 == 0x00
  }

  /**
   * Whether an I/O control write of `value` latches the H counter, given the
   * previously stored latch bits: bit 0 or bit 3 goes from clear to set.
   */
  function LatchesHCounter(latchBits: bv8, value: bv8): (r: bool)
    ensures r <==> (GetBit(value, 0) && !GetBit(latchBits, 0)) || (GetBit(value, 3) && !GetBit(latchBits, 3))
  {
    (value & 0x01 != 0 && latchBits & 0x01 == 0) || (value & 0x08 != 0 && latchBits & 0x08 == 0)
  }

  /**
   * Only bits 0 and 2 of a written value are stored as latch bits, so once
   * the register has been written, every later write with bit 3 set latches.
   */
  lemma LatchAfterWrite(previous: bv8, value: bv8)
    ensures LatchesHCounter(previous & 0x05, value) <==> (GetBit(value, 0) && !GetBit(previous, 0)) || GetBit(value, 3)
  {
  }

  /**
   * The byte kept in Port3F after an I/O control write: bits 7 and 5 of the
   * value become bits 7 and 6, both inverted on a Japanese cartridge.
   */
  function Port3FFromValue(value: bv8, japanGG: bool): (r: bv8)
    ensures r & 0x3F == 0
    ensures GetBit(r, 7) == (GetBit(value, 7) != japanGG)
    ensures GetBit(r, 6) == (GetBit(value, 5) != japanGG)
  {
    var bits := ((value & 0x80) | ((value & 0x20) << 1)) & 0xC0;
    if japanGG then bits ^ 0xC0 else bits
  }

  /** Which pin of the peer's port 1 drives our bit `i`: 0<->2, 1<->3, 4<->5, 6. */
  function LinkWire(i: BitIndex): (j: BitIndex)
    requires i < 7
    ensures j < 7
  {
    match i
    case 0 => 2
    case 1 => 3
    case 2 => 0
    case 3 => 1
    case 4 => 5
    case 5 => 4
    case _ => 6
  }

  /** The cable's pair swap is its own inverse. */
  lemma {:induction false} LinkWireSwapsPairs(i: BitIndex)
    requires i < 7
    ensures LinkWire(LinkWire(i)) == i
  {
    if i == 0 {} else if i == 1 {} else if i == 2 {} else if i == 3 {}
    else if i == 4 {} else if i == 5 {} else {}
  }

  /** The two registers kept in a save state. */
  datatype Snapshot = Snapshot(port3F: bv8, port3FHC: bv8)

  /** The save-state image: Port3F, then Port3F_HC. */
  function Save(s: Snapshot): (bytes: seq<bv8>)
    ensures |bytes| == 2 && bytes[0] == s.port3F && bytes[1] == s.port3FHC
  {
    [s.port3F, s.port3FHC]
  }

  /**
   * Reading the two registers back from the front of `stream`, which holds
   * `current` beforehand. A stream that runs dry fills what it can; the
   * failed read leaves the other register as it was.
   */
  function Load(stream: seq<bv8>, current: Snapshot): (r: (Snapshot, seq<bv8>))
    ensures |stream| >= 2 ==> stream == Save(r.0) + r.1
    ensures |stream| < 2 ==> r.1 == [] && r.0.port3FHC == current.port3FHC
    ensures |stream| == 1 ==> r.0.port3F == stream[0]
    ensures |stream| == 0 ==> r.0 == current
  {
    if |stream| >= 2 then (Snapshot(stream[0], stream[1]), stream[2..])
    else if |stream| == 1 then (current.(port3F := stream[0]), [])
    else (current, [])
  }

  /** Loading what was saved restores it and consumes exactly its two bytes. */
  lemma {:induction false} LoadSave(s: Snapshot, rest: seq<bv8>, current: Snapshot)
    ensures Load(Save(s) + rest, current) == (s, rest)
  {
    assert (Save(s) + rest)[2..] == rest;
  }

  /** Port $00 as read: the input byte, with bit 6 forced on unless the cartridge is Japanese. */
  function RegionPort00(raw: bv8, japanGG: bool): (r: bv8)
    ensures GetBit(r, 6) == (GetBit(raw, 6) || !japanGG)
    ensures forall i: BitIndex | i != 6 :: GetBit(r, i) == GetBit(raw, i)
  {
    if japanGG then raw else raw | 0x40
  }

  /**
   * A read of a port at $07 or above, which the devices answer: $FF below
   * $40, the V or H counter up to $7F, the VDP data port or status flags up
   * to $BF, and above that the two input registers at $C0/$DC and $C1/$DD
   * (the latter with the region bits of Port3F) and $FF elsewhere.
   */
  function BusRead(port: bv8, devices: DeviceReads, port3F: bv8): (v: bv8)
    requires port >= 0x07
    ensures port < 0x40 ==> v == 0xFF
    ensures 0x40 <= port < 0x80 ==> v == if port & 0x01 == 0 then devices.vCounter else devices.hCounter
    ensures 0x80 <= port < 0xC0 ==> v == if port & 0x01 == 0 then devices.dataPort else devices.statusFlags
    ensures port == 0xC0 || port == 0xDC ==> v == devices.portDC
    ensures port == 0xC1 || port == 0xDD ==> v & 0x3F == devices.portDD & 0x3F && v & 0xC0 == port3F & 0xC0
    ensures 0xC0 <= port && port !in {0xC0, 0xC1, 0xDC, 0xDD} ==> v == 0xFF
  {
    if port < 0x40 then 0xFF
    else if port < 0x80 then (if port & 0x01 == 0x00 then devices.vCounter else devices.hCounter)
    else if port < 0xC0 then (if port & 0x01 == 0x00 then devices.dataPort else devices.statusFlags)
    else if port == 0xC0 || port == 0xDC then devices.portDC
    else if port == 0xC1 || port == 0xDD then (devices.portDD & 0x3F) | (port3F & 0xC0)
    else 0xFF
  }

  /**
   * The region bits written through the I/O control port are what a read of
   * $DD returns in bits 7 and 6, above the six low bits of the input register.
   */
  lemma RegionBitsReadBack(value: bv8, japanGG: bool, devices: DeviceReads)
    ensures var v := BusRead(0xDD, devices, Port3FFromValue(value, japanGG));
      && GetBit(v, 7) == (GetBit(value, 7) != japanGG)
      && GetBit(v, 6) == (GetBit(value, 5) != japanGG)
      && v & 0x3F == devices.portDD & 0x3F
  {
  }

  /** One conditional updateBit: bit `to` of `result` becomes `b` when `drive` holds. */
  method CopyBit(result: bv8, to: BitIndex, drive: bool, b: bool) returns (r: bv8)
    ensures GetBit(r, to) == if drive then b else GetBit(result, to)
    ensures forall j: BitIndex :: j != to ==> GetBit(r, j) == GetBit(result, j)
  {
    r := result;
    if drive {
      r := UpdateBit(result, to, b);
    }
  }

  /**
   * Port 1 of a linked console: starting from its own register, each bit
   * whose peer pin is driven (`drives`, indexed by the peer's bit) takes the
   * peer's level through the cable; bit 7 reads as 0.
   */
  method MergeLinkedPort1(own: bv8, peer: bv8, drives: seq<bool>) returns (v: bv8)
    requires |drives| == 7
    ensures v < 0x80
    ensures forall i: BitIndex | i < 7 ::
      GetBit(v, i) == if drives[LinkWire(i)] then GetBit(peer, LinkWire(i)) else GetBit(own, i)
  {
    var result := own;
    result := CopyBit(result, 0, drives[2], GetBit(peer, 2));
    result := CopyBit(result, 1, drives[3], GetBit(peer, 3));
    result := CopyBit(result, 2, drives[0], GetBit(peer, 0));
    result := CopyBit(result, 3, drives[1], GetBit(peer, 1));
    result := CopyBit(result, 4, drives[5], GetBit(peer, 5));
    result := CopyBit(result, 5, drives[4], GetBit(peer, 4));
    result := CopyBit(result, 6, drives[6], GetBit(peer, 6));
    v := result & 0x7F;
    assert forall i: BitIndex | i < 7 :: GetBit(v, i) == GetBit(result, i);
    forall i: BitIndex | i < 7
      ensures GetBit(v, i) == if drives[LinkWire(i)] then GetBit(peer, LinkWire(i)) else GetBit(own, i)
    {
      if i == 0 {} else if i == 1 {} else if i == 2 {} else if i == 3 {}
      else if i == 4 {} else if i == 5 {} else {}
    }
  }

  class Ports {
    var port0: bv8
    var port1: bv8
    var port2: bv8
    var port3: bv8
    var port4: bv8
    var port5: bv8
    var port6: bv8
    var port3F: bv8
    var port3FHC: bv8

    var currentBaudrate: int
    var clocksUntilTransferComplete: int
    var serialTransferActive: bool
    var serialSendData: bv8

    /** The console at the other end of the link cable, if any. */
    var linked: Ports?

    /** Requests made so far to this console's devices and processor. */
    ghost var effects: seq<Effect>

    ghost function Bank(): RegisterBank
      reads this
    {
      RegisterBank(port0, port1, port2, port3, port4, port5, port6, port3F, port3FHC)
    }

    ghost function Serial(): SerialState
      reads this
    {
      SerialState(serialTransferActive, clocksUntilTransferComplete, serialSendData)
    }

    /** The linked console, as a frame: empty when unlinked. */
    function Peer(): set<Ports>
      reads this
    {
      if linked == null then {} else {linked}
    }

    function Persisted(): Snapshot
      reads this
    {
      Snapshot(port3F, port3FHC)
    }

    /**
     * The part of the invariant that holds at every step: the active flag
     * mirrors TXFL, an active transfer sends what port 3 holds, the rate is
     * one of the table's and the controller is not linked to itself.
     */
    ghost predicate Consistent()
      reads this
    {
      && serialTransferActive == GetBit(port5, TxflBit)
      && (serialTransferActive ==> port3 == serialSendData)
      && currentBaudrate in BaudOptions
      && linked != this
    }

    /** The controller's invariant between calls: also, an active transfer has clocks left. */
    ghost predicate Valid()
      reads this
    {
      Consistent() && WellFormed(Serial())
    }

    /** A new controller: in-class initial values, no link, then Reset. */
    constructor()
      ensures Valid()
      ensures Bank() == PowerOn
      ensures Serial() == SerialState(false, 0, 0x00)
      ensures currentBaudrate == DefaultBaud && linked == null && effects == []
    {
      currentBaudrate := DefaultBaud;
      clocksUntilTransferComplete := 0;
      serialTransferActive := false;
      serialSendData := 0x00;
      linked := null;
      effects := [];
      new;
      Reset();
    }

    /**
     * Power-on register values; any transfer in flight is dropped. The rate,
     * the send byte, the link and the log are kept.
     */
    method Reset()
      requires currentBaudrate in BaudOptions && linked != this
      modifies this`port0, this`port1, this`port2, this`port3, this`port4, this`port5, this`port6
      modifies this`port3F, this`port3FHC, this`clocksUntilTransferComplete, this`serialTransferActive
      ensures Valid()
      ensures port0 == 0xC0 && port1 == 0x7F && port2 == 0xFF && port3 == 0x00 && port4 == 0xFF
      ensures port5 == 0xF8 && port6 == 0xFF && port3F == 0x00 && port3FHC == 0x00
      ensures !serialTransferActive && clocksUntilTransferComplete == 0
    {
      port3F := 0;
      port3FHC := 0;
      port0 := 0xC0;
      port1 := 0x7F;
      port2 := 0xFF;
      port3 := 0x00;
      port4 := 0xFF;
      port5 := 0xF8;
      port6 := 0xFF;
      clocksUntilTransferComplete := 0;
      serialTransferActive := false;
    }

    function GetBaudrate(): (b: int)
      reads this
      requires Valid()
      ensures b == currentBaudrate && b in BaudOptions
    {
      currentBaudrate
    }

    /** Selects one of the four table rates. */
    method SetBaudrate(selection: bv8)
      requires selection < 4
      modifies this`currentBaudrate
      ensures currentBaudrate == BaudOptions[selection as int]
      ensures currentBaudrate in BaudOptions
    {
      currentBaudrate := BaudOptions[selection as int];
    }

    /** TXFL: a byte is being sent. */
    function ActiveTransfer(): (r: bool)
      reads this
      ensures r <==> GetBit(port5, TxflBit)
      ensures Valid() ==> (r <==> serialTransferActive)
    {
      port5 & 0x01 != 0
    }

    function IsTransmitEnabled(): (r: bool)
      reads this
      ensures r <==> GetBit(port5, TonBit)
    {
      port5 & 0x10 != 0
    }

    function IsReceiveEnabled(): (r: bool)
      reads this
      ensures r <==> GetBit(port5, RonBit)
    {
      port5 & 0x20 != 0
    }

    function IsReceiveInterruptEnabled(): (r: bool)
      reads this
      ensures r <==> GetBit(port5, IntBit)
    {
      port5 & 0x08 != 0
    }

    /** Serial mode is on when transmit or receive is enabled. */
    function IsSerialModeEnabled(): (r: bool)
      reads this
      ensures r <==> IsTransmitEnabled() || IsReceiveEnabled()
    {
      port5 & 0x30 != 0
    }

    /**
     * Whether this console drives bit `bit` of port 1 as an output: bit 4
     * always while TON is set, bit 5 never while RON is set, and otherwise
     * exactly when the direction bit in port 2 is clear.
     */
    function IsOutputBit(bit: BitIndex): (out: bool)
      reads this
      ensures bit == TonBit && GetBit(port5, TonBit) ==> out
      ensures bit == RonBit && GetBit(port5, RonBit) ==> !out
      ensures !(bit == TonBit && GetBit(port5, TonBit)) && !(bit == RonBit && GetBit(port5, RonBit))
              ==> (out <==> !GetBit(port2, bit))
    {
      if bit == 4 && GetBit(port5, 4) then true
      else if bit == 5 && GetBit(port5, 5) then false
      else if GetBit(port2, bit) then false
      else true
    }

    /**
     * A port-2 write from `oldValue` to `newValue` raises the parallel-mode
     * NMI: NINT generation is enabled (bit 7 of port 2 clear) and bit 6
     * falls.
     */
    function HasTriggeredParallelNMI(oldValue: bv8, newValue: bv8): (r: bool)
      reads this
      ensures r <==> !GetBit(port2, 7) && GetBit(oldValue, 6) && !GetBit(newValue, 6)
    {
      if port2 & 0x80 == 0x00 then oldValue & 0x40 != 0 && newValue & 0x40 == 0
      else false
    }

    /** Bit `i` of a port-1 read `v` carries the peer's pin across the cable when the peer drives it. */
    ghost predicate PinMerged(v: bv8, i: BitIndex)
      reads this, linked
      requires linked != null && i < 7
    {
      GetBit(v, i) == if linked.IsOutputBit(LinkWire(i)) then GetBit(linked.port1, LinkWire(i)) else GetBit(port1, i)
    }

    /**
     * Port 1 as read by the CPU. Unlinked, the stored byte without bit 7.
     * Linked, each bit the peer drives as output comes from the peer's port 1
     * through the cable's pair swap; the others keep the stored value.
     */
    method ReadPort1() returns (v: bv8)
      ensures v < 0x80
      ensures linked == null ==> v == port1 & 0x7F
      ensures linked != null ==> forall i: BitIndex | i < 7 :: PinMerged(v, i)
    {
      if linked == null {
        return port1 & 0x7F;
      }
      var peer := linked;
      var drives := [peer.IsOutputBit(0), peer.IsOutputBit(1), peer.IsOutputBit(2), peer.IsOutputBit(3),
                     peer.IsOutputBit(4), peer.IsOutputBit(5), peer.IsOutputBit(6)];
      v := MergeLinkedPort1(port1, peer.port1, drives);
      forall i: BitIndex | i < 7 ensures PinMerged(v, i) {
        assert drives[LinkWire(i)] == peer.IsOutputBit(LinkWire(i));
      }
    }

    /** Reading the receive register clears RXRD. */
    method ReadReceiveRegister() returns (data: bv8)
      requires Valid()
      modifies this`port5
      ensures Valid()
      ensures data == port4
      ensures port5 == UpdateBit(old(port5), RxrdBit, false)
    {
      data := port4;
      port5 := port5 & !0x02;
    }

    /** A CPU read of `port`. Only a read of port 4 changes state: it clears RXRD. */
    method DoInput(port: bv8, devices: DeviceReads, japanGG: bool) returns (v: bv8)
      requires Valid()
      modifies this`port5
      ensures Valid()
      ensures port5 == if port == 0x04 then UpdateBit(old(port5), RxrdBit, false) else old(port5)
      ensures port == 0x00 ==> v == RegionPort00(devices.port00, japanGG)
      ensures port == 0x01 && linked == null ==> v == port1 & 0x7F
      ensures port == 0x01 && linked != null ==> v < 0x80 && forall i: BitIndex | i < 7 :: PinMerged(v, i)
      ensures port == 0x02 ==> v == port2
      ensures port == 0x03 ==> v == port3
      ensures port == 0x04 ==> v == port4
      ensures port == 0x05 ==> v == port5
      ensures port == 0x06 ==> v == 0xFF
      ensures port >= 0x07 ==> v == BusRead(port, devices, port3F)
    {
      if port < 0x07 {
        if port == 0x00 {
          return RegionPort00(devices.port00, japanGG);
        } else if port == 0x01 {
          v := ReadPort1();
        } else if port == 0x02 {
          return port2;
        } else if port == 0x03 {
          return port3;
        } else if port == 0x04 {
          v := ReadReceiveRegister();
        } else if port == 0x05 {
          return port5;
        } else {
          return 0xFF;
        }
      } else {
        v := BusRead(port, devices, port3F);
      }
    }

    /**
     * Begins sending the byte in port 3: sets TXFL and loads the countdown
     * for the current rate. Called only right after a port-3 write, which
     * has stored the same byte as the send byte.
     */
    method StartTransfer()
      requires Valid()
      requires port3 == serialSendData
      modifies this`clocksUntilTransferComplete, this`serialTransferActive, this`port5
      ensures Valid()
      ensures old(serialTransferActive) ==> unchanged(this)
      ensures !old(serialTransferActive) ==>
        && serialTransferActive
        && clocksUntilTransferComplete == TransferClocks(currentBaudrate)
        && port5 == UpdateBit(old(port5), TxflBit, true)
    {
      if serialTransferActive {
        return;
      }
      clocksUntilTransferComplete := TransferClocks(currentBaudrate);
      serialTransferActive := true;
      port5 := port5 | 0x01;
    }

    /** Port 2 write: with NINT generation enabled, a falling bit 6 requests an NMI. */
    method WriteParallelControl(value: bv8)
      requires Valid()
      modifies this`port2, this`effects
      ensures Valid()
      ensures port2 == value
      ensures effects == old(effects) + (if old(HasTriggeredParallelNMI(port2, value)) then [RequestNmi] else [])
    {
      if port2 & 0x80 == 0 {
        if port2 & 0x40 != 0 && value & 0x40 == 0 {
          effects := effects + [RequestNmi];
        }
      }
      port2 := value;
    }

    /**
     * Port 3 write: the value is both the register and the send byte; a
     * transfer starts unless one is in flight or serial mode is off.
     */
    method WriteSerialData(value: bv8)
      requires Valid()
      modifies this`port3, this`serialSendData, this`clocksUntilTransferComplete, this`serialTransferActive, this`port5
      ensures Valid()
      ensures port3 == value
      ensures Serial() ==
        if old(!ActiveTransfer() && IsSerialModeEnabled()) then SerialState(true, TransferClocks(currentBaudrate), value)
        else old(Serial()).(sendData := value)
      ensures port5 == if old(!ActiveTransfer() && IsSerialModeEnabled()) then UpdateBit(old(port5), TxflBit, true) else old(port5)
    {
      port3 := value;
      serialSendData := value;
      if ActiveTransfer() {
        return;
      }
      if IsSerialModeEnabled() {
        StartTransfer();
      }
    }

    /** Port 5 write: bits 3-7 take the value, status bits 0-2 stay; bits 6-7 select the rate. */
    method WriteSerialControl(value: bv8)
      requires Valid()
      modifies this`port5, this`currentBaudrate
      ensures Valid()
      ensures forall i: BitIndex :: GetBit(port5, i) == if i < 3 then old(GetBit(port5, i)) else GetBit(value, i)
      ensures currentBaudrate == BaudOptions[BaudSelector(value)]
    {
      var oldValue := port5;
      var controlMask: bv8 := 0xF8;
      port5 := (oldValue & !controlMask) | (value & controlMask);
      SetBaudrate((value >> 6) & 0x03);
    }

    /**
     * I/O control write: a rising bit 0 or 3 latches the H counter; bits 0
     * and 2 are kept as latch bits and the region bits go to Port3F.
     */
    method WriteIoControl(value: bv8, japanGG: bool)
      requires Valid()
      modifies this`port3F, this`port3FHC, this`effects
      ensures Valid()
      ensures port3FHC == value & 0x05
      ensures port3F == Port3FFromValue(value, japanGG)
      ensures effects == old(effects) + (if LatchesHCounter(old(port3FHC), value) then [LatchHCounter] else [])
    {
      if LatchesHCounter(port3FHC, value) {
        effects := effects + [LatchHCounter];
      }
      port3FHC := value & 0x05;
      port3F := Port3FFromValue(value, japanGG);
    }

    /**
     * A CPU write of `value` to `port`. Port 3 always takes the value as the
     * next send byte, but starts a transfer only when none is in flight and
     * serial mode is on; port 5 takes only its control bits.
     */
    method DoOutput(port: bv8, value: bv8, japanGG: bool)
      requires Valid()
      modifies this`port0, this`port1, this`port2, this`port3, this`port5, this`port3F, this`port3FHC
      modifies this`serialSendData, this`clocksUntilTransferComplete, this`serialTransferActive
      modifies this`currentBaudrate, this`effects
      ensures Valid()
      ensures port0 == if port == 0x00 then value else old(port0)
      ensures port1 == if port == 0x01 then value else old(port1)
      ensures port2 == if port == 0x02 then value else old(port2)
      ensures port3 == if port == 0x03 then value else old(port3)
      ensures port == 0x03 ==>
        port5 == if old(!ActiveTransfer() && IsSerialModeEnabled()) then UpdateBit(old(port5), TxflBit, true) else old(port5)
      ensures port == 0x05 ==> forall i: BitIndex :: GetBit(port5, i) == if i < 3 then old(GetBit(port5, i)) else GetBit(value, i)
      ensures port != 0x03 && port != 0x05 ==> port5 == old(port5)
      ensures IsIoControlPort(port) ==> port3F == Port3FFromValue(value, japanGG) && port3FHC == value & 0x05
      ensures !IsIoControlPort(port) ==> port3F == old(port3F) && port3FHC == old(port3FHC)
      ensures Serial() ==
        if port != 0x03 then old(Serial())
        else if old(!ActiveTransfer() && IsSerialModeEnabled()) then SerialState(true, TransferClocks(currentBaudrate), value)
        else old(Serial()).(sendData := value)
      ensures currentBaudrate == if port == 0x05 then BaudOptions[BaudSelector(value)] else old(currentBaudrate)
      ensures port == 0x02 ==> effects == old(effects) + (if old(HasTriggeredParallelNMI(port2, value)) then [RequestNmi] else [])
      ensures port == 0x06 ==> effects == old(effects) + [WriteStereo(value)]
      ensures IsMemoryControlPort(port) ==> effects == old(effects) + [SetMemoryControl(value)]
      ensures IsIoControlPort(port) ==> effects == old(effects) + (if LatchesHCounter(old(port3FHC), value) then [LatchHCounter] else [])
      ensures 0x40 <= port < 0x80 ==> effects == old(effects) + [WritePsg(value)]
      ensures 0x80 <= port < 0xC0 ==> effects == old(effects) + [if port & 0x01 == 0 then WriteVdpData(value) else WriteVdpControl(value)]
      ensures port in {0x00, 0x01, 0x03, 0x04, 0x05} || port >= 0xC0 ==> effects == old(effects)
    {
      if port < 0x07 {
        if port == 0x00 {
          port0 := value;
        } else if port == 0x01 {
          port1 := value;
        } else if port == 0x02 {
          WriteParallelControl(value);
        } else if port == 0x03 {
          WriteSerialData(value);
        } else if port == 0x04 {
          // read-only: the receive register is filled by the link
        } else if port == 0x05 {
          WriteSerialControl(value);
        } else {
          effects := effects + [WriteStereo(value)];
        }
      } else if port < 0x40 {
        if port & 0x01 == 0x00 {
          effects := effects + [SetMemoryControl(value)];
        } else {
          WriteIoControl(value, japanGG);
        }
      } else if port < 0x80 {
        effects := effects + [WritePsg(value)];
      } else if port < 0xC0 {
        if port & 0x01 == 0x00 {
          effects := effects + [WriteVdpData(value)];
        } else {
          effects := effects + [WriteVdpControl(value)];
        }
      }
    }

    /** What ReceiveSerial(data) does to this controller, as a relation between two states. */
    twostate predicate Received(data: bv8, processorPresent: bool)
      reads this
    {
      && port4 == (if old(IsReceiveEnabled()) then data else old(port4))
      && port5 == (if old(IsReceiveEnabled()) then UpdateBit(old(port5), RxrdBit, true) else old(port5))
      && effects == old(effects) +
           (if old(IsReceiveEnabled() && IsReceiveInterruptEnabled()) && processorPresent then [RequestNmi] else [])
    }

    /**
     * A byte arriving over the link. Dropped unless RON is set; otherwise it
     * lands in port 4, RXRD is set, and with INT set an NMI is requested of
     * the processor when there is one.
     */
    method ReceiveSerial(data: bv8, processorPresent: bool)
      requires Valid()
      modifies this`port4, this`port5, this`effects
      ensures Valid()
      ensures Received(data, processorPresent)
    {
      if !IsReceiveEnabled() {
        return;
      }
      port4 := data;
      port5 := port5 | 0x02;
      if IsReceiveInterruptEnabled() {
        if processorPresent {
          effects := effects + [RequestNmi];
        }
      }
    }

    /** The end of a transfer: clears TXFL and hands the send byte to the peer, if any. */
    method SendSerial(data: bv8, peerProcessorPresent: bool)
      requires Consistent()
      requires serialTransferActive && data == serialSendData
      requires linked != null ==> linked.Valid()
      modifies this`port5, this`serialTransferActive
      modifies Peer()`port4, Peer()`port5, Peer()`effects
      ensures Valid() && (linked != null ==> linked.Valid())
      ensures !serialTransferActive
      ensures port5 == UpdateBit(old(port5), TxflBit, false)
      ensures linked != null ==> linked.Received(old(serialSendData), peerProcessorPresent)
    {
      port5 := port5 & !0x01;
      serialTransferActive := false;
      if linked != null {
        linked.ReceiveSerial(serialSendData, peerProcessorPresent);
      }
    }

    /**
     * `clocks` CPU clocks have elapsed: the countdown of an active transfer
     * runs down, and when it expires the byte goes to the peer.
     */
    method UpdateSerial(clocks: int, peerProcessorPresent: bool)
      requires Valid()
      requires linked != null ==> linked.Valid()
      modifies this`clocksUntilTransferComplete, this`port5, this`serialTransferActive
      modifies Peer()`port4, Peer()`port5, Peer()`effects
      ensures Valid() && (linked != null ==> linked.Valid())
      ensures Serial() == Advance(old(Serial()), clocks).after
      ensures port5 == UpdateBit(old(port5), TxflBit, serialTransferActive)
      ensures linked != null ==>
        if Advance(old(Serial()), clocks).sent == [old(serialSendData)]
        then linked.Received(old(serialSendData), peerProcessorPresent)
        else unchanged(linked)
    {
      if !serialTransferActive {
        return;
      }
      if clocksUntilTransferComplete > 0 {
        clocksUntilTransferComplete := clocksUntilTransferComplete - clocks;
        if clocksUntilTransferComplete <= 0 {
          SendSerial(port3, peerProcessorPresent);
        }
      }
    }

    /** Links to `other` (or unlinks, for null); a link to itself is refused. */
    method SetLinkedPorts(other: Ports?)
      requires Valid()
      modifies this`linked
      ensures Valid()
      ensures linked == if other == this then old(linked) else other
    {
      if other == this {
        return;
      }
      linked := other;
    }

    /** Appends the save-state image to `stream`. */
    method SaveState(stream: seq<bv8>) returns (out: seq<bv8>)
      ensures out == stream + Save(Persisted())
      ensures |out| == |stream| + 2 && out[|stream|] == port3F && out[|stream| + 1] == port3FHC
    {
      out := stream + [port3F];
      out := out + [port3FHC];
    }

    /** Reads Port3F and Port3F_HC back from the front of `stream`. */
    method LoadState(stream: seq<bv8>) returns (rest: seq<bv8>)
      requires Valid()
      modifies this`port3F, this`port3FHC
      ensures Valid()
      ensures (Persisted(), rest) == Load(stream, old(Persisted()))
    {
      rest := stream;
      if |rest| == 0 {
        return;
      }
      port3F := rest[0];
      rest := rest[1..];
      if |rest| == 0 {
        return;
      }
      port3FHC := rest[0];
      rest := rest[1..];
    }
  }

  /**
   * Two linked consoles: A sends 0x7E at 1200 baud to B, which has receive
   * and its receive NMI enabled. One clock short of the transfer's length
   * nothing has arrived; with that clock B holds the byte with RXRD set and
   * has requested one NMI.
   */
  method LinkedTransferScenario()
  {
    var a := new Ports();
    var b := new Ports();
    a.SetLinkedPorts(b);
    a.DoOutput(0x05, 0xB0, false);  // rate selector 2 (1200 baud), TON and RON
    b.DoOutput(0x05, 0x28, false);  // RON and INT
    a.DoOutput(0x03, 0x7E, false);
    TransferClocksTable();
    assert a.clocksUntilTransferComplete == 23863;
    a.UpdateSerial(23862, true);
    assert a.serialTransferActive && b.effects == [];
    a.UpdateSerial(1, true);
    assert !a.serialTransferActive && !GetBit(a.port5, TxflBit);
    assert b.port4 == 0x7E && GetBit(b.port5, RxrdBit) && b.effects == [RequestNmi];
  }

  /** A received byte is read back from port 4, and the read clears RXRD in port 5. */
  method ReceiveThenReadScenario(devices: DeviceReads)
  {
    var c := new Ports();
    c.DoOutput(0x05, 0x20, false);  // RON only
    c.ReceiveSerial(0x5A, true);
    assert c.effects == [];
    var received := c.DoInput(0x04, devices, false);
    assert received == 0x5A;
    var status := c.DoInput(0x05, devices, false);
    assert !GetBit(status, RxrdBit);
  }

  /** Reset is idempotent: a second Reset leaves the controller exactly as the first one did. */
  method ResetTwice(p: Ports)
    requires p.currentBaudrate in BaudOptions && p.linked != p
    modifies p
  {
    p.Reset();
    label once:
    p.Reset();
    assert unchanged@once(p);
  }

  /**
   * A port-3 write while a transfer is in flight does not restart it, but it
   * does replace the byte that the transfer delivers when it completes.
   */
  method LateWriteScenario()
  {
    var a := new Ports();
    var b := new Ports();
    a.SetLinkedPorts(b);
    a.DoOutput(0x05, 0x10, false);  // 4800 baud, TON
    b.DoOutput(0x05, 0x20, false);  // RON
    a.DoOutput(0x03, 0x11, false);
    a.UpdateSerial(100, true);
    a.DoOutput(0x03, 0x22, false);
    TransferClocksTable();
    assert a.serialTransferActive && a.clocksUntilTransferComplete == 5865;
    a.UpdateSerial(5865, true);
    assert !a.serialTransferActive && b.port4 == 0x22;
  }
}
