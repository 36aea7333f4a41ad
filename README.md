# Game Gear I/O ports, modelled in Dafny

This project models the I/O port controller of a Game Gear emulator (class
`GameGearIOPorts` in `src/GameGearIOPorts.cpp` and `src/GameGearIOPorts.h`) and
proves properties of the model. The controller does the following:

- It decodes the Z80's 8-bit I/O port space into five ranges and holds the
  Game Gear registers `$00`-`$06` and the `$3F` region/latch register.
- It forwards other accesses to the video, audio, input and memory devices.
- It runs the serial half of the link cable between two consoles. A byte
  written to port 3 is timed out in CPU clocks at the selected baud rate and
  then delivered to the linked console's receive register.
- It wires port 1 across the cable in parallel mode.
- It saves and loads two bytes of state.

Files:

- `bits.dfy` (module `Bits`): `getBit` / `updateBit` on bytes (`bv8`).
- `parallel_bits.dfy` (module `ParallelBits`): the parallel-mode bit
  scrambling of the cable, and its inverse.
- `serial_link.dfy` (module `SerialLink`):
  - the baud table, the 2-bit rate selector and the transfer length in clocks;
  - the transfer countdown as a pure state machine (`Advance` is one
    `UpdateSerial` call, `Run` is a sequence of them).
- `io_ports.dfy` (module `GameGearIOPorts`):
  - the class `Ports`, with the source's fields and methods, and the pure
    helpers of the port decoding;
  - four short client methods that compose the operations:
    - `LinkedTransferScenario`: a 1200-baud transfer between two linked consoles;
    - `ReceiveThenReadScenario`: a received byte read back through port 4;
    - `ResetTwice`: a second Reset changes nothing;
    - `LateWriteScenario`: a port-3 write during a transfer replaces the byte
      that is delivered.

Collaborators are outside the model:

- Reads from them become parameters:
  - `DeviceReads` carries the input pad, the V/H counters and the VDP data/status;
  - `japanGG` is the cartridge zone;
  - `processorPresent` says whether the processor exists.
- Requests to them (NMI requests, H-counter latches, PSG/stereo/VDP/memory
  control writes) are appended to a ghost log, `Ports.effects`.

The class invariant `Ports.Valid()` says:

- the transfer-active flag mirrors TXFL (bit 0 of port 5);
- an active transfer has a positive countdown;
- while a transfer is active, the send byte equals port 3;
- the baud rate is one of the table's;
- a controller is never linked to itself.

Every state-changing method preserves it.

The model follows these details of the code:

- A port-3 write during a transfer still replaces `m_Port3` and
  `m_serialSendData`, so the byte delivered is the last one written.
- Transfer lengths are truncated, not rounded up: 5965, 11931, 23863 and 95454
  clocks.
- `m_Port3F_HC` keeps `value & 0x05`, while the latch test looks at bits 0
  and 3. So bit 3 is never stored, and every write with bit 3 set latches
  again (`LatchAfterWrite`).
- A port-6 read falls to the `default` of the switch and returns `$FF`.
- `sendSerial(data)` ignores its argument and delivers `m_serialSendData`.

## Model

| member | source | states |
|---|---|---|
| Bits.GetBit | src/GameGearIOPorts.cpp:45-47 | bit `bit` of the byte is set exactly when the byte masked with `1 << bit` is non-zero |
| Bits.UpdateBit | src/GameGearIOPorts.cpp:49-55 | the chosen bit takes the requested value and every other bit keeps its value |
| ParallelBits.WiresInverse | src/GameGearIOPorts.cpp:482-518 | the scrambling wire table and the unscrambling table are inverse permutations of bits 0-6 |
| ParallelBits.Scramble | src/GameGearIOPorts.cpp:482-502 | the result is below 0x80, and sent bit i appears at its wired position |
| ParallelBits.Unscramble | src/GameGearIOPorts.cpp:504-518 | the result is below 0x80, and received bit j returns to its original position |
| ParallelBits.UnscrambleScramble | src/GameGearIOPorts.cpp:482-518 | unscrambling a scrambled byte gives back its seven connected bits (x & 0x7F) |
| ParallelBits.ScrambleUnscramble | src/GameGearIOPorts.cpp:482-518 | scrambling an unscrambled byte gives back x & 0x7F |
| SerialLink.BaudSelector | src/GameGearIOPorts.cpp:380 | the rate selector of a port-5 write is the value's top two bits (value / 64), always a valid table index |
| SerialLink.TransferClocks | src/GameGearIOPorts.cpp:186-219 | the transfer length is positive and is the whole part of 8 bit-times at the rate, with unknown rates timed as 4800 baud |
| SerialLink.TransferClocksTable | src/GameGearIOPorts.cpp:186-219 | the four table rates take 5965, 11931, 23863 and 95454 clocks |
| SerialLink.Advance | src/GameGearIOPorts.cpp:113-128 | an inactive transfer is untouched; the send byte is never changed; a byte is delivered exactly when an active transfer ends; a positive countdown is kept while active |
| SerialLink.Run | src/GameGearIOPorts.cpp:113-128 | over any sequence of calls, at most one byte is delivered, it is the send byte, and it is delivered only when the transfer goes from active to inactive |
| SerialLink.RunCompletesAtTotal | src/GameGearIOPorts.cpp:113-140 | with non-negative clock batches, the transfer stays active with countdown minus total clocks left exactly while the total is below the countdown; once the total reaches it the send byte has been delivered once |
| GameGearIOPorts.LatchesHCounter | src/GameGearIOPorts.cpp:398-399 | an I/O control write latches the H counter when bit 0 or bit 3 rises against the stored latch bits |
| GameGearIOPorts.LatchAfterWrite | src/GameGearIOPorts.cpp:398-400 | because only bits 0 and 2 are stored, after a write any value with bit 3 set latches, and bit 0 latches only on a rise |
| GameGearIOPorts.Port3FFromValue | src/GameGearIOPorts.cpp:402-404 | Port3F holds bit 7 and bit 5 of the value as bits 7 and 6, each inverted for a Japanese cartridge, and nothing in bits 0-5 |
| GameGearIOPorts.LinkWireSwapsPairs | src/GameGearIOPorts.cpp:240-246 | the port-1 cable wiring (0-2, 1-3, 4-5, 6-6) is its own inverse |
| GameGearIOPorts.Save | src/GameGearIOPorts.cpp:441-447 | the save image is two bytes, Port3F then Port3F_HC |
| GameGearIOPorts.Load | src/GameGearIOPorts.cpp:449-455 | with two bytes available they are taken as Port3F and Port3F_HC and the rest is left; a short stream fills only what it holds and leaves the other register as it was |
| GameGearIOPorts.LoadSave | src/GameGearIOPorts.cpp:441-455 | loading a saved image restores both registers and consumes exactly two bytes |
| GameGearIOPorts.RegionPort00 | src/GameGearIOPorts.cpp:227-233 | port $00 reads the input byte with bit 6 forced on unless the cartridge is Japanese; other bits pass through |
| GameGearIOPorts.BusRead | src/GameGearIOPorts.cpp:268-316 | reads above $06: $FF to $3F; V/H counter (even/odd) to $7F; VDP data/status (even/odd) to $BF; $C0/$DC the A/B register; $C1/$DD the low six bits of the B/misc register under the region bits of Port3F; $FF elsewhere |
| GameGearIOPorts.RegionBitsReadBack | src/GameGearIOPorts.cpp:305-309 | after an I/O control write, a read of $DD shows the written region bits (7 and 5, region-inverted) in bits 7 and 6 |
| GameGearIOPorts.CopyBit | src/GameGearIOPorts.cpp:240 | one conditional updateBit: the target bit takes the given level when driven and is otherwise unchanged, all other bits unchanged |
| GameGearIOPorts.MergeLinkedPort1 | src/GameGearIOPorts.cpp:239-248 | every bit 0-6 of the result is the peer's wired pin when the peer drives that pin, else the own register's bit; bit 7 is 0 |
| GameGearIOPorts.Ports.constructor | src/GameGearIOPorts.h:61-65 | a new controller is valid, with power-on registers, an idle transfer with countdown 0 and send byte 0x00, 4800 baud, no link and an empty log |
| GameGearIOPorts.Ports.Reset | src/GameGearIOPorts.cpp:58-72 | the registers take their power-on values, the transfer is idle with countdown 0, and (by its frame) the rate, the send byte and the link are untouched |
| GameGearIOPorts.Ports.GetBaudrate | src/GameGearIOPorts.h:43 | returns the stored rate, which is always one of the table's |
| GameGearIOPorts.Ports.SetBaudrate | src/GameGearIOPorts.cpp:180-184 | the rate becomes the table entry for the selector |
| GameGearIOPorts.Ports.ActiveTransfer | src/GameGearIOPorts.cpp:74-77 | TXFL is bit 0 of port 5, and under the invariant it agrees with the transfer-active flag |
| GameGearIOPorts.Ports.IsSerialModeEnabled | src/GameGearIOPorts.cpp:458-462 | serial mode is on exactly when TON or RON is set |
| GameGearIOPorts.Ports.IsReceiveInterruptEnabled | src/GameGearIOPorts.cpp:464-468 | INT is bit 3 of port 5 |
| GameGearIOPorts.Ports.IsReceiveEnabled | src/GameGearIOPorts.cpp:469-473 | RON is bit 5 of port 5 |
| GameGearIOPorts.Ports.IsTransmitEnabled | src/GameGearIOPorts.cpp:475-478 | TON is bit 4 of port 5 |
| GameGearIOPorts.Ports.IsOutputBit | src/GameGearIOPorts.cpp:531-540 | pin 4 is an output while TON is set, pin 5 is an input while RON is set, and otherwise a pin is an output exactly when its port-2 direction bit is clear |
| GameGearIOPorts.Ports.HasTriggeredParallelNMI | src/GameGearIOPorts.cpp:522-529 | a parallel NMI fires when NINT generation is enabled (port 2 bit 7 clear) and bit 6 falls from old to new value |
| GameGearIOPorts.Ports.ReadPort1 | src/GameGearIOPorts.cpp:234-249 | unlinked, port 1 reads its register without bit 7; linked, each bit 0-6 comes from the peer's wired pin when the peer drives it and from the own register otherwise |
| GameGearIOPorts.Ports.ReadReceiveRegister | src/GameGearIOPorts.cpp:255-261 | returns port 4 and clears exactly RXRD (bit 1) of port 5 |
| GameGearIOPorts.Ports.DoInput | src/GameGearIOPorts.cpp:221-317 | the value read for each port range; only a port-4 read changes state, clearing RXRD, and the invariant is kept |
| GameGearIOPorts.Ports.StartTransfer | src/GameGearIOPorts.cpp:79-88 | an active transfer is left alone; otherwise TXFL is set, the transfer is active and the countdown is the transfer length at the current rate |
| GameGearIOPorts.Ports.WriteParallelControl | src/GameGearIOPorts.cpp:328-342 | port 2 takes the value, and one NMI is requested exactly when the parallel-mode NMI condition holds for the old and new value |
| GameGearIOPorts.Ports.WriteSerialData | src/GameGearIOPorts.cpp:346-363 | port 3 and the send byte always take the value; a transfer starts (TXFL set, countdown loaded) only when none is active and serial mode is on |
| GameGearIOPorts.Ports.WriteSerialControl | src/GameGearIOPorts.cpp:373-381 | bits 3-7 of port 5 take the value's bits and bits 0-2 keep theirs; the rate becomes the table entry selected by bits 6-7 |
| GameGearIOPorts.Ports.WriteIoControl | src/GameGearIOPorts.cpp:396-405 | the H counter is latched on a rising bit 0 or 3; Port3F_HC keeps bits 0 and 2 of the value and Port3F its region bits |
| GameGearIOPorts.Ports.DoOutput | src/GameGearIOPorts.cpp:319-439 | for each port range, which registers, serial fields, rate and device requests a write changes and that all others stay; the invariant is kept |
| GameGearIOPorts.Ports.ReceiveSerial | src/GameGearIOPorts.cpp:142-178 | with RON clear nothing changes; with RON set port 4 takes the byte and RXRD is set, and one NMI is requested exactly when INT is set and a processor exists |
| GameGearIOPorts.Ports.SendSerial | src/GameGearIOPorts.cpp:129-140 | TXFL and the active flag are cleared, other bits of port 5 kept, and the send byte is received by the linked console if there is one |
| GameGearIOPorts.Ports.UpdateSerial | src/GameGearIOPorts.cpp:113-128 | the serial fields follow `SerialLink.Advance`, TXFL tracks the active flag, and the peer receives the send byte exactly when the transfer ends in this call; otherwise the peer is untouched |
| GameGearIOPorts.Ports.SetLinkedPorts | src/GameGearIOPorts.cpp:90-112 | a link to itself is refused and leaves the old link; any other argument, null included, becomes the link |
| GameGearIOPorts.Ports.SaveState | src/GameGearIOPorts.cpp:441-447 | appends the save image of Port3F and Port3F_HC to the stream |
| GameGearIOPorts.Ports.LoadState | src/GameGearIOPorts.cpp:449-455 | the two registers and the remaining stream are as `Load` describes |

## Left out

- Logging (`log_cb`, `Log`) and the `DEBUG_GEARSYSTEM` branch of `DoOutput`: they are diagnostics with no effect on state.
- Audio, Video, Input, Cartridge, Memory and Processor are not part of this model. Their answers are parameters and their requests are entries of the ghost `effects` log.
- `src/IOPorts.h`, which declares `m_Port0`-`m_Port6`, is not part of this model. Those registers are fields of `Ports` with the same meaning.
- Floating point in `calculateTransferClocks`: it is replaced by the integer quotient `8 * 3579545 / baud`. For the four table rates this gives the same truncated values as the double computation.
- `std::ostream`/`std::istream`: a stream is a `seq<bv8>`. A short read stores what it can and leaves the other register unchanged.
- `UpdateParallelTransfers` and `isNINTEnabled`: they are declared in the header, but no body for them exists in the modelled source.
- `hasTriggeredParallelNMI` is not called by `DoOutput`, which repeats the same test inline. The model implements the inline test and states it through `HasTriggeredParallelNMI`.
- The port-2 NMI is requested with no null check on the processor. The model records the request unconditionally, as the code does.
- Concurrency between two emulator instances: a link is a plain sequential call into the peer object.
- `m_linkedGameGear` is not initialised by the constructor. The model starts it as null.
- Overflow of the `int` countdown, and rates or clock counts outside `int`: integers are unbounded here.
- Port 1 merging is computed from the peer's output pins sampled before the seven `updateBit` steps. No step changes the peer, so this is the same value.
- Bits.GetBit and Bits.UpdateBit take bit positions 0-7 only. The source is called with 0-6 only.
- Ports.SetBaudrate takes selectors 0-3 only; the source indexes its four-entry table without a check, so a larger selector is undefined behaviour there.
