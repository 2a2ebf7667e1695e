/** The interrupt handling PiRF24L01_Tx.py and PiRF24L01_Rx.py share.  Both
    programs' RF24L01_Interupt_Callback read and clear the latched flags,
    then test MAX_RT, TX_DS and RX_DR in that order, each independently:
    MAX_RT raises the error flag, flushes the unsent packet and swaps the
    two LEDs; TX_DS and RX_DR clear the error flag and light green.  The
    programs differ only in what the RX_DR branch does between fetching the
    packet and re-arming the receiver, so that branch is in their own
    modules; its first and last steps are here. */
module RadioCallback {
  import opened Gpio
  import opened RPiSpi
  import opened PyInt
  import opened RPiRF24L01

  const GPIO_LED_RED: Pin := 27
  const GPIO_LED_GREEN: Pin := 17

  const RF_CHANNEL: int := 100
  /** Both programs exchange packets of exactly this many bytes. */
  const DATA_PACKET_SIZE: int := 30

  /** time.sleep(1) of the main loops, in microseconds. */
  const ONE_SECOND_US: nat := 1000000

  // ---------------------------------------------------------------------
  // The three latch bits.

  /** IntFlags & mask for the three latch bits is bit 4, 5 or 6 of the
      flags byte. */
  lemma LatchBits(flags: nat)
    ensures IsSet(flags, RF24L01_STATUS_MAX_RT) <==> (flags / 16) % 2 == 1
    ensures IsSet(flags, RF24L01_STATUS_TX_DS) <==> (flags / 32) % 2 == 1
    ensures IsSet(flags, RF24L01_STATUS_RX_DR) <==> (flags / 64) % 2 == 1
  {
    assert Pow2(4) == 16 && Pow2(5) == 32 && Pow2(6) == 64;
    AndPow2(flags, 4);
    AndPow2(flags, 5);
    AndPow2(flags, 6);
  }

  // ---------------------------------------------------------------------
  // The error flag.

  /** RF24L01_ErrorFlag after the MAX_RT and TX_DS tests. */
  function LatchedErrorFlag(errorFlag: bool, intFlags: nat): bool
  {
    var afterMaxRt := if IsSet(intFlags, RF24L01_STATUS_MAX_RT) then true else errorFlag;
    if IsSet(intFlags, RF24L01_STATUS_TX_DS) then false else afterMaxRt
  }

  /** RF24L01_ErrorFlag after a whole callback. */
  function ErrorFlagAfter(errorFlag: bool, intFlags: nat): bool
  {
    if IsSet(intFlags, RF24L01_STATUS_RX_DR) then false else LatchedErrorFlag(errorFlag, intFlags)
  }

  /** After a callback the error flag is clear when a packet went out or
      came in, set when only the retransmit limit was hit, and as before
      when no latch bit was set. */
  lemma ErrorFlagOutcome(errorFlag: bool, intFlags: nat)
    ensures ErrorFlagAfter(errorFlag, intFlags) ==
      if (intFlags / 32) % 2 == 1 || (intFlags / 64) % 2 == 1 then false
      else if (intFlags / 16) % 2 == 1 then true
      else errorFlag
  {
    LatchBits(intFlags);
  }

  // ---------------------------------------------------------------------
  // The LEDs.

  /** The MAX_RT LED step: green was off, so green on and red off; green was
      on, so green off and red on. */
  function MaxRtLeds(level: map<Pin, Bit>): map<Pin, Bit>
  {
    if LevelIn(level, GPIO_LED_GREEN) == 0 then level[GPIO_LED_GREEN := 1][GPIO_LED_RED := 0]
    else level[GPIO_LED_GREEN := 0][GPIO_LED_RED := 1]
  }

  /** Red on, green off. */
  function RedLeds(level: map<Pin, Bit>): map<Pin, Bit>
  {
    level[GPIO_LED_RED := 1][GPIO_LED_GREEN := 0]
  }

  /** Red off, then green on. */
  function GreenLeds(level: map<Pin, Bit>): map<Pin, Bit>
  {
    level[GPIO_LED_RED := 0][GPIO_LED_GREEN := 1]
  }

  /** The levels after the MAX_RT and TX_DS tests. */
  function LatchedLeds(level: map<Pin, Bit>, intFlags: nat): map<Pin, Bit>
  {
    var afterMaxRt := if IsSet(intFlags, RF24L01_STATUS_MAX_RT) then MaxRtLeds(level) else level;
    if IsSet(intFlags, RF24L01_STATUS_TX_DS) then GreenLeds(afterMaxRt) else afterMaxRt
  }

  /** The levels after a whole callback (the RX_DR branch lights green
      before anything else it does). */
  function LedsAfter(level: map<Pin, Bit>, intFlags: nat): map<Pin, Bit>
  {
    if IsSet(intFlags, RF24L01_STATUS_RX_DR) then GreenLeds(LatchedLeds(level, intFlags))
    else LatchedLeds(level, intFlags)
  }

  /** A packet sent or received leaves green lit and red dark; the
      retransmit limit on its own swaps the two LEDs (so they flash across
      repeated failures); with any latch bit set exactly one LED is lit;
      no other pin changes. */
  lemma LedsOutcome(level: map<Pin, Bit>, intFlags: nat)
    ensures var green, after := LevelIn(level, GPIO_LED_GREEN), LedsAfter(level, intFlags);
      ((intFlags / 32) % 2 == 1 || (intFlags / 64) % 2 == 1 ==>
         LevelIn(after, GPIO_LED_RED) == 0 && LevelIn(after, GPIO_LED_GREEN) == 1)
      && ((intFlags / 32) % 2 == 0 && (intFlags / 64) % 2 == 0 && (intFlags / 16) % 2 == 1 ==>
         LevelIn(after, GPIO_LED_RED) == green && LevelIn(after, GPIO_LED_GREEN) == 1 - green)
      && ((intFlags / 16) % 2 == 1 || (intFlags / 32) % 2 == 1 || (intFlags / 64) % 2 == 1 ==>
         LevelIn(after, GPIO_LED_RED) + LevelIn(after, GPIO_LED_GREEN) == 1)
      && (forall p :: p != GPIO_LED_RED && p != GPIO_LED_GREEN ==> LevelIn(after, p) == LevelIn(level, p))
  {
    LatchBits(intFlags);
  }

  /** The LED pins are not bus lines: driving one reaches the off-bus
      levels, and its off-bus level is its level. */
  lemma OffBusLed(level: map<Pin, Bit>, p: Pin, v: Bit)
    requires p == GPIO_LED_RED || p == GPIO_LED_GREEN
    ensures OffBus(level[p := v]) == OffBus(level)[p := v]
    ensures LevelIn(OffBus(level), p) == LevelIn(level, p)
  {
    assert OffBus(level[p := v]).Keys == OffBus(level)[p := v].Keys;
  }

  // ---------------------------------------------------------------------
  // Pin and bus actions.

  /** The MAX_RT branch: FLUSH_TX, green read back, the two LED writes. */
  function MaxRtTrace(t: seq<Event>, green: Bit): seq<Event>
  {
    AfterFrame(t, [RF24L01_FLUSH_TX]) + [Read(GPIO_LED_GREEN)]
    + (if green == 0 then [Write(GPIO_LED_GREEN, 1), Write(GPIO_LED_RED, 0)]
       else [Write(GPIO_LED_GREEN, 0), Write(GPIO_LED_RED, 1)])
  }

  function GreenTrace(t: seq<Event>): seq<Event>
  {
    t + [Write(GPIO_LED_RED, 0), Write(GPIO_LED_GREEN, 1)]
  }

  function RedTrace(t: seq<Event>): seq<Event>
  {
    t + [Write(GPIO_LED_RED, 1), Write(GPIO_LED_GREEN, 0)]
  }

  /** The trace through the TX_DS test, for the flags read and the level of
      green when the callback starts. */
  function LatchedTrace(t: seq<Event>, intFlags: nat, green: Bit): seq<Event>
  {
    var afterRead := AfterFrames(t, IntFlagsCommands(intFlags));
    var afterMaxRt := if IsSet(intFlags, RF24L01_STATUS_MAX_RT) then MaxRtTrace(afterRead, green) else afterRead;
    if IsSet(intFlags, RF24L01_STATUS_TX_DS) then GreenTrace(afterMaxRt) else afterMaxRt
  }

  /** The MISO samples taken through the TX_DS test. */
  function LatchedSamples(s: nat, intFlags: nat): nat
  {
    s + 8 * WordCount(IntFlagsCommands(intFlags)) + (if IsSet(intFlags, RF24L01_STATUS_MAX_RT) then 8 else 0)
  }

  /** An interrupt with no latch bit set only reads the flags: one
      FIFO_STATUS read, no write, no flush, no LED change. */
  lemma LatchedTraceQuiet(t: seq<Event>, intFlags: nat, green: Bit)
    requires (intFlags / 16) % 8 == 0
    ensures LatchedTrace(t, intFlags, green) == AfterFrame(t, [0x17, 0x00])
    ensures LatchedSamples(0, intFlags) == 16
  {
    LatchBits(intFlags);
    assert (intFlags / 16) % 2 == 0 && (intFlags / 32) % 2 == 0 && (intFlags / 64) % 2 == 0 by {
      assert intFlags / 32 == (intFlags / 16) / 2 && intFlags / 64 == (intFlags / 16) / 4;
    }
    IntFlagsWords(intFlags);
    assert IntFlagsCommands(intFlags) == [[0x17, 0x00]];
    assert AfterFrames(t, [[0x17, 0x00]]) == AfterFrame(AfterFrames(t, []), [0x17, 0x00]);
    assert WordCount([[0x17, 0x00]]) == WordCount([]) + 2;
  }

  /** The MAX_RT branch of the callback. */
  method OnMaxRetries(io: Board)
    requires !io.IsOutput(GPIO_SPI_MISO) && io.IsOutput(GPIO_LED_GREEN)
    modifies io
    ensures io.trace == MaxRtTrace(old(io.trace), old(io.LevelOf(GPIO_LED_GREEN)))
    ensures io.samples == old(io.samples) + 8
    ensures io.mode == old(io.mode) && OffBus(io.level) == MaxRtLeds(OffBus(old(io.level)))
  {
    ghost var l0 := io.level;
    FlushTxBuffer(io);
    ghost var l1 := io.level;
    OffBusLed(l0, GPIO_LED_GREEN, 0);
    OffBusLed(l1, GPIO_LED_GREEN, 0);
    var green := io.Input(GPIO_LED_GREEN);
    assert green == LevelIn(OffBus(l0), GPIO_LED_GREEN);
    if green == 0 {
      io.Output(GPIO_LED_GREEN, 1);
      io.Output(GPIO_LED_RED, 0);
      OffBusLed(l1, GPIO_LED_GREEN, 1);
      OffBusLed(l1[GPIO_LED_GREEN := 1], GPIO_LED_RED, 0);
    } else {
      io.Output(GPIO_LED_GREEN, 0);
      io.Output(GPIO_LED_RED, 1);
      OffBusLed(l1[GPIO_LED_GREEN := 0], GPIO_LED_RED, 1);
    }
  }

  /** Red off, green on. */
  method ShowGreen(io: Board)
    modifies io
    ensures io.trace == GreenTrace(old(io.trace))
    ensures io.samples == old(io.samples) && io.mode == old(io.mode)
    ensures io.level == GreenLeds(old(io.level)) && OffBus(io.level) == GreenLeds(OffBus(old(io.level)))
  {
    ghost var l0 := io.level;
    io.Output(GPIO_LED_RED, 0);
    io.Output(GPIO_LED_GREEN, 1);
    OffBusLed(l0, GPIO_LED_RED, 0);
    OffBusLed(l0[GPIO_LED_RED := 0], GPIO_LED_GREEN, 1);
  }

  /** Red on, green off. */
  method ShowRed(io: Board)
    modifies io
    ensures io.trace == RedTrace(old(io.trace))
    ensures io.samples == old(io.samples) && io.mode == old(io.mode)
    ensures io.level == RedLeds(old(io.level)) && OffBus(io.level) == RedLeds(OffBus(old(io.level)))
  {
    ghost var l0 := io.level;
    io.Output(GPIO_LED_RED, 1);
    io.Output(GPIO_LED_GREEN, 0);
    OffBusLed(l0, GPIO_LED_RED, 1);
    OffBusLed(l0[GPIO_LED_RED := 1], GPIO_LED_GREEN, 0);
  }

  /** The callback up to its RX_DR test: GetIntFlags, then the MAX_RT and
      TX_DS branches.  Returns the flags read and the new error flag. */
  method HandleLatched(io: Board, errorFlag: bool) returns (intFlags: nat, newErrorFlag: bool)
    requires !io.IsOutput(GPIO_SPI_MISO) && io.IsOutput(GPIO_LED_GREEN)
    modifies io
    ensures intFlags == ReceivedWord(io.line, old(io.samples))
    ensures newErrorFlag == LatchedErrorFlag(errorFlag, intFlags)
    ensures io.trace == LatchedTrace(old(io.trace), intFlags, old(io.LevelOf(GPIO_LED_GREEN)))
    ensures io.samples == LatchedSamples(old(io.samples), intFlags)
    ensures io.mode == old(io.mode) && OffBus(io.level) == LatchedLeds(OffBus(old(io.level)), intFlags)
  {
    ghost var l0 := io.level;
    intFlags := GetIntFlags(io);
    OffBusLed(l0, GPIO_LED_GREEN, 0);
    OffBusLed(io.level, GPIO_LED_GREEN, 0);
    newErrorFlag := errorFlag;
    if IsSet(intFlags, RF24L01_STATUS_MAX_RT) {
      newErrorFlag := true;
      OnMaxRetries(io);
    }
    if IsSet(intFlags, RF24L01_STATUS_TX_DS) {
      newErrorFlag := false;
      ShowGreen(io);
    }
  }

  // ---------------------------------------------------------------------
  // The RX_DR branch: its first steps (green, fetch the packet) and its
  // last (re-arm the receiver).

  /** Green lit, then GetData, for the STATUS and width GetData reads. */
  function ReceiveTrace(t: seq<Event>, status: nat, width: nat): seq<Event>
  {
    GetDataTrace(GreenTrace(t) + [Write(GPIO_RF24L01_CSN, 0)], status, width)
  }

  function ReceiveSamples(s: nat, status: nat, width: nat): nat
  {
    s + 8 * (if RxPipeline(status) < 7 then 6 + width else 3)
  }

  /** The packet GetData returns when it starts at sample s. */
  function ReceivedPacket(line: Line, s: nat): seq<nat>
  {
    var status, width := ReceivedWord(line, s), ReceivedWord(line, s + 24);
    if RxPipeline(status) < 7 then Replies(line, s + 40, width) else []
  }

  /** Every word of a received packet is a byte. */
  lemma ReceivedPacketBytes(line: Line, s: nat)
    ensures var packet := ReceivedPacket(line, s);
      forall k :: 0 <= k < |packet| ==> packet[k] < 256
  {
    var status, width := ReceivedWord(line, s), ReceivedWord(line, s + 24);
    if RxPipeline(status) < 7 {
      var packet := Replies(line, s + 40, width);
      forall k | 0 <= k < |packet|
        ensures packet[k] < 256
      {
        RepliesAt(line, s + 40, width, k);
        ReceivedWordIsByte(line, s + 40 + 8 * k);
      }
    }
  }

  /** ConfigureRx(RF_CHANNEL, 1, DATA_PACKET_SIZE). */
  function RearmTrace(t: seq<Event>): seq<Event>
  {
    AfterFrames(t, ConfigureRxCommands(RF_CHANNEL, 1, DATA_PACKET_SIZE)) + [Write(GPIO_RF24L01_CSN, 1)]
  }

  function RearmSamples(s: nat): nat
  {
    s + 8 * WordCount(ConfigureRxCommands(RF_CHANNEL, 1, DATA_PACKET_SIZE))
  }

  /** Re-arming writes RF_CH = 100, RX_PW_P1 = 30, CONFIG = 0x0B and
      EN_RXADDR = 0x03 (pipes 0 and 1). */
  lemma RearmWords()
    ensures ConfigureRxCommands(RF_CHANNEL, 1, DATA_PACKET_SIZE) == [[0x25, 100], [0x32, 30], [0x20, 0x0B], [0x22, 0x03]]
  {
    ConfigureRxWords(RF_CHANNEL, 1, DATA_PACKET_SIZE);
  }

  /** The first steps of the RX_DR branch: green lit, then GetData. */
  method ReceivePacket(io: Board) returns (rxData: seq<nat>)
    requires !io.IsOutput(GPIO_SPI_MISO)
    modifies io
    ensures var status, width := ReceivedWord(io.line, old(io.samples)), ReceivedWord(io.line, old(io.samples) + 24);
            io.trace == ReceiveTrace(old(io.trace), status, width)
            && io.samples == ReceiveSamples(old(io.samples), status, width)
    ensures rxData == ReceivedPacket(io.line, old(io.samples))
    ensures io.mode == old(io.mode) && OffBus(io.level) == GreenLeds(OffBus(old(io.level)))
  {
    ShowGreen(io);
    rxData := GetData(io);
  }

  /** The last step of the RX_DR branch. */
  method Rearm(io: Board)
    requires !io.IsOutput(GPIO_SPI_MISO)
    modifies io
    ensures io.trace == RearmTrace(old(io.trace)) && io.samples == RearmSamples(old(io.samples))
    ensures io.mode == old(io.mode) && OffBus(io.level) == OffBus(old(io.level))
  {
    ConfigureRx(io, RF_CHANNEL, 1, DATA_PACKET_SIZE);
  }
}
