/** The nRF24L01 driver (RPiRF24L01.py).  Every operation is a sequence of
    SPI commands, each framed by CSN low ... CSN high, as the nRF24L01(+)
    Product Specification describes in section 8.3.1 (SPI commands) and
    section 9 (register map).  The chip is the MISO oracle of the board: the
    k-th word clocked back during a command that starts at sample s is
    ReceivedWord(line, s + 8k), and word 0 of every command is STATUS. */
module RPiRF24L01 {
  import opened Gpio
  import opened RPiSpi
  import opened PyText
  import opened PyInt

  const GPIO_RF24L01_CSN: Pin := 25
  const GPIO_RF24L01_INT: Pin := 24

  /** The five-byte base pipe address, least significant byte first. */
  const BASE_ADDRESS: seq<int> := [0x1C, 0x93, 0xB5, 0xFE, 0xD2]

  // SPI command opcodes.
  const RF24L01_R_REGISTER: nat := 0x00
  const RF24L01_W_REGISTER: nat := 0x20
  const RF24L01_R_RX_PAYLOAD: nat := 0x61
  const RF24L01_W_TX_PAYLOAD: nat := 0xA0
  const RF24L01_FLUSH_TX: nat := 0xE1
  const RF24L01_FLUSH_RX: nat := 0xE2
  const RF24L01_REUSE_TX_PL: nat := 0xE3
  const RF24L01_NOP: nat := 0xFF

  // Register addresses.
  const RF24L01_CONFIG: nat := 0x00
  const RF24L01_EN_AA: nat := 0x01
  const RF24L01_EN_RXADDR: nat := 0x02
  const RF24L01_SETUP_AW: nat := 0x03
  const RF24L01_SETUP_RETR: nat := 0x04
  const RF24L01_RF_CH: nat := 0x05
  const RF24L01_RF_SETUP: nat := 0x06
  const RF24L01_STATUS: nat := 0x07
  const RF24L01_OBSERVE_TX: nat := 0x08
  const RF24L01_CD: nat := 0x09
  const RF24L01_RX_ADDR_P0: nat := 0x0A
  const RF24L01_RX_ADDR_P1: nat := 0x0B
  const RF24L01_RX_ADDR_P2: nat := 0x0C
  const RF24L01_RX_ADDR_P3: nat := 0x0D
  const RF24L01_RX_ADDR_P4: nat := 0x0E
  const RF24L01_RX_ADDR_P5: nat := 0x0F
  const RF24L01_TX_ADDR: nat := 0x10
  const RF24L01_RX_PW_P0: nat := 0x11
  const RF24L01_FIFO_STATUS: nat := 0x17

  // Register bits.
  const RF24L01_CONFIG_EN_CRC: nat := 0x08
  const RF24L01_CONFIG_CRCO: nat := 0x04
  const RF24L01_CONFIG_PWR_UP: nat := 0x02
  const RF24L01_CONFIG_PRX: nat := 0x01
  const RF24L01_CONFIG_PTX: nat := 0x00
  const RF24L01_SETUP_RETR_ARD: nat := 0xF0
  const RF24L01_SETUP_RETR_ARC: nat := 0x0F
  const RF24L01_RF_SETUP_1MBPS: nat := 0x00
  const RF24L01_RF_SETUP_2MBPS: nat := 0x08
  const RF24L01_RF_SETUP_18DBM: nat := 0x00
  const RF24L01_RF_SETUP_12DBM: nat := 0x02
  const RF24L01_RF_SETUP_10DBM: nat := 0x04
  const RF24L01_RF_SETUP_0DBM: nat := 0x06
  const RF24L01_RF_SETUP_LNA_GAIN: nat := 0x01
  const RF24L01_STATUS_RX_DR: nat := 0x40
  const RF24L01_STATUS_TX_DS: nat := 0x20
  const RF24L01_STATUS_MAX_RT: nat := 0x10
  const RF24L01_STATUS_RX_P_NO: nat := 0x0E
  const RF24L01_STATUS_TX_FULL: nat := 0x01
  const RF24L01_OBSERVE_TX_PLOS_CNT: nat := 0xF0
  const RF24L01_OBSERVE_TX_ARC_CNT: nat := 0x0F
  const RF24L01_FIFO_STATUS_TX_REUSE: nat := 0x40
  const RF24L01_FIFO_STATUS_TX_FULL: nat := 0x20
  const RF24L01_FIFO_STATUS_TX_EMPTY: nat := 0x10
  const RF24L01_FIFO_STATUS_RX_FULL: nat := 0x02
  const RF24L01_FIFO_STATUS_RX_EMPTY: nat := 0x01

  /** The values of the flag combinations the driver writes. */
  lemma FlagWords()
    ensures Or(Or(RF24L01_CONFIG_PWR_UP, RF24L01_CONFIG_EN_CRC), RF24L01_CONFIG_PTX) == 0x0A
    ensures Or(Or(RF24L01_CONFIG_PWR_UP, RF24L01_CONFIG_EN_CRC), RF24L01_CONFIG_PRX) == 0x0B
    ensures Or(Or(RF24L01_RF_SETUP_1MBPS, RF24L01_RF_SETUP_0DBM), RF24L01_RF_SETUP_LNA_GAIN) == 0x07
    ensures Or(Or(RF24L01_STATUS_MAX_RT, RF24L01_STATUS_TX_DS), RF24L01_STATUS_RX_DR) == 0x70
  {
    assert Pow2(3) == 8 && Pow2(5) == 32 && Pow2(6) == 64;
    OrCommutes(2, 8);
    OrHigh(3, 2);
    OrOne(10);
    OrOne(6);
    OrCommutes(0x10, 0x20);
    OrHigh(5, 0x10);
    OrCommutes(0x30, 0x40);
    OrHigh(6, 0x30);
  }

  /** W_REGISTER | a for a register address a. */
  lemma WriteOpcode(address: nat)
    requires address < 32
    ensures RegisterWord(RF24L01_W_REGISTER, address) == 0x20 + address
  {
    assert Pow2(5) == 32;
    OrHigh(5, address);
  }

  lemma WriteWords(address: nat, writeData: seq<int>)
    requires address < 32
    ensures WriteCommand(address, writeData) == [0x20 + address] + writeData
  {
    WriteOpcode(address);
  }

  /** A register bit tested on a word read from the chip: `word & mask`. */
  predicate IsSet(w: int, mask: nat)
  {
    And(w, mask) != 0
  }

  // ---------------------------------------------------------------------
  // Words, frames and responses.

  function Zeros(n: nat): (ws: seq<int>)
    ensures |ws| == n && forall i :: 0 <= i < n ==> ws[i] == 0
  {
    seq(n, i => 0)
  }

  /** The trace t followed by the pin actions of the word transfers of a
      command, in order.  (Threading the trace so far through these
      functions keeps the verifier from unfolding the frames of constant
      commands in full.) */
  function AfterWords(t: seq<Event>, command: seq<int>): seq<Event>
  {
    if command == [] then t else AfterWord(AfterWords(t, command[..|command| - 1]), command[|command| - 1])
  }

  /** The trace t followed by SendCommand(command) on the pins: CSN low, one
      transfer per word, CSN high. */
  function AfterFrame(t: seq<Event>, command: seq<int>): seq<Event>
  {
    AfterWords(t + [Write(GPIO_RF24L01_CSN, 0)], command) + [Write(GPIO_RF24L01_CSN, 1)]
  }

  /** The trace t followed by a sequence of commands, one frame after another. */
  function AfterFrames(t: seq<Event>, commands: seq<seq<int>>): seq<Event>
  {
    if commands == [] then t else AfterFrame(AfterFrames(t, commands[..|commands| - 1]), commands[|commands| - 1])
  }

  /** The number of words a sequence of commands transfers. */
  function WordCount(commands: seq<seq<int>>): nat
  {
    if commands == [] then 0 else WordCount(commands[..|commands| - 1]) + |commands[|commands| - 1]|
  }

  /** The pins other than the three bus lines the driver drives.  No radio
      operation changes them (the LEDs keep their levels, for instance). */
  function OffBus(level: map<Pin, Bit>): map<Pin, Bit>
  {
    map p | p in level && p != GPIO_RF24L01_CSN && p != GPIO_SPI_MOSI && p != GPIO_SPI_SCK :: level[p]
  }

  lemma OffBusUpdate(level: map<Pin, Bit>, p: Pin, v: Bit)
    requires p == GPIO_RF24L01_CSN || p == GPIO_SPI_MOSI || p == GPIO_SPI_SCK
    ensures OffBus(level[p := v]) == OffBus(level)
  {
  }

  lemma FramesSnoc(t: seq<Event>, commands: seq<seq<int>>, command: seq<int>)
    ensures AfterFrames(t, commands + [command]) == AfterFrame(AfterFrames(t, commands), command)
    ensures WordCount(commands + [command]) == WordCount(commands) + |command|
  {
    assert (commands + [command])[..|commands|] == commands;
  }

  lemma WordsEventsSnoc(t: seq<Event>, command: seq<int>, i: nat)
    requires i < |command|
    ensures AfterWords(t, command[..i + 1]) == AfterWord(AfterWords(t, command[..i]), command[i])
  {
    assert command[..i + 1][..i] == command[..i];
  }

  lemma WordCountStep(commands: seq<seq<int>>, k: nat)
    requires k < |commands|
    ensures WordCount(commands[..k + 1]) == WordCount(commands[..k]) + |commands[k]|
  {
    assert commands[..k + 1][..k] == commands[..k];
  }

  // ---------------------------------------------------------------------
  // Command encodings.

  /** Element 0 of a register read or write: the opcode ORed with the
      register address. */
  function RegisterWord(opcode: nat, address: nat): nat
  {
    Or(opcode, address)
  }

  /** ReadRegister(a, n): [R_REGISTER | a] then n zero words (none when n < 0,
      as range(n) is then empty). */
  function ReadCommand(address: nat, dataWordCount: int): (c: seq<int>)
    ensures |c| == 1 + (if dataWordCount < 0 then 0 else dataWordCount)
    ensures c[0] == RegisterWord(RF24L01_R_REGISTER, address) && c[1..] == Zeros(|c| - 1)
  {
    [RegisterWord(RF24L01_R_REGISTER, address)] + Zeros(if dataWordCount < 0 then 0 else dataWordCount)
  }

  /** WriteRegister(a, d): [W_REGISTER | a] then the data words. */
  function WriteCommand(address: nat, writeData: seq<int>): (c: seq<int>)
    ensures |c| == 1 + |writeData|
    ensures c[0] == RegisterWord(RF24L01_W_REGISTER, address) && c[1..] == writeData
  {
    [RegisterWord(RF24L01_W_REGISTER, address)] + writeData
  }

  /** For a register address in the 5-bit map, element 0 of a read is the
      address itself and element 0 of a write is 0x20 plus the address: the
      opcode occupies bits 7..5 and the address bits 4..0. */
  lemma RegisterWordFields(address: nat, dataWordCount: int, writeData: seq<int>)
    requires address < 32
    ensures ReadCommand(address, dataWordCount)[0] == address
    ensures WriteCommand(address, writeData)[0] == 0x20 + address
    ensures WriteCommand(address, writeData)[0] / 32 == 1 && WriteCommand(address, writeData)[0] % 32 == address
  {
    assert Pow2(5) == 32;
    OrHigh(5, address);
  }

  // ---------------------------------------------------------------------
  // The bus operations.

  /** RPiRF24L01.Init: SPI pins, INT a pulled-up input, CSN an output at 0. */
  method Init(io: Board)
    modifies io
    ensures io.mode == old(io.mode)[GPIO_SPI_MISO := In(PullUp)][GPIO_SPI_CE := Out]
                                   [GPIO_SPI_MOSI := Out][GPIO_SPI_SCK := Out]
                                   [GPIO_RF24L01_INT := In(PullUp)][GPIO_RF24L01_CSN := Out]
    ensures io.level == old(io.level)[GPIO_SPI_CE := 1][GPIO_SPI_MOSI := 0][GPIO_SPI_SCK := 0][GPIO_RF24L01_CSN := 0]
    ensures io.trace == old(io.trace) + [ SetupInput(GPIO_SPI_MISO, PullUp), SetupOutput(GPIO_SPI_CE, 1),
                                          SetupOutput(GPIO_SPI_MOSI, 0), SetupOutput(GPIO_SPI_SCK, 0),
                                          SetupInput(GPIO_RF24L01_INT, PullUp), SetupOutput(GPIO_RF24L01_CSN, 0) ]
    ensures io.samples == old(io.samples)
    ensures !io.IsOutput(GPIO_SPI_MISO)
  {
    SpiInit(io);
    io.SetupInput(GPIO_RF24L01_INT, PullUp);
    io.SetupOutput(GPIO_RF24L01_CSN, 0);
  }

  /** The words the chip clocks back during n consecutive SPI transfers,
      the first starting at sample number start. */
  function Replies(line: Line, start: nat, n: nat): (r: seq<nat>)
    ensures |r| == n
  {
    if n == 0 then [] else Replies(line, start, n - 1) + [ReceivedWord(line, start + 8 * (n - 1))]
  }

  /** Reply k of a run of transfers is the word received in transfer k. */
  lemma {:induction false} RepliesAt(line: Line, start: nat, n: nat, k: nat)
    requires k < n
    ensures Replies(line, start, n)[k] == ReceivedWord(line, start + 8 * k)
  {
    if k < n - 1 {
      RepliesAt(line, start, n - 1, k);
    }
  }

  /** Dropping the first reply of a run leaves the run started one word later. */
  lemma {:induction false} RepliesTail(line: Line, start: nat, n: nat)
    ensures Replies(line, start, n + 1)[1..] == Replies(line, start + 8, n)
  {
    if n > 0 {
      RepliesTail(line, start, n - 1);
      assert Replies(line, start, n + 1)[1..] == Replies(line, start, n)[1..] + [ReceivedWord(line, start + 8 * n)];
    }
  }

  /** RPiRF24L01.SendCommand: CSN low, one SPI transfer per word in order,
      CSN high; the response is aligned word for word with the command. */
  method SendCommand(io: Board, command: seq<int>) returns (response: seq<nat>)
    requires !io.IsOutput(GPIO_SPI_MISO)
    modifies io
    ensures io.trace == AfterFrame(old(io.trace), command)
    ensures io.samples == old(io.samples) + 8 * |command|
    ensures response == Replies(io.line, old(io.samples), |command|)
    ensures io.mode == old(io.mode) && OffBus(io.level) == OffBus(old(io.level))
    ensures io.LevelOf(GPIO_RF24L01_CSN) == 1
  {
    ghost var t0, s0, l0 := io.trace, io.samples, io.level;
    io.Output(GPIO_RF24L01_CSN, 0);
    OffBusUpdate(l0, GPIO_RF24L01_CSN, 0);
    response := [];
    for i := 0 to |command|
      invariant io.trace == AfterWords(t0 + [Write(GPIO_RF24L01_CSN, 0)], command[..i])
      invariant io.samples == s0 + 8 * i
      invariant response == Replies(io.line, s0, i)
      invariant io.mode == old(io.mode) && OffBus(io.level) == OffBus(l0)
    {
      ghost var s1, l1 := io.samples, io.level;
      var thisResponse := SpiSendReceiveWord(io, command[i]);
      OffBusUpdate(l1, GPIO_SPI_MOSI, MosiLevel(command[i], SPI_WORD_BITS - 1));
      OffBusUpdate(l1[GPIO_SPI_MOSI := MosiLevel(command[i], SPI_WORD_BITS - 1)], GPIO_SPI_SCK, 0);
      assert thisResponse == ReceivedWord(io.line, s0 + 8 * i) by {
        assert s1 == s0 + 8 * i;
      }
      response := response + [thisResponse];
      WordsEventsSnoc(t0 + [Write(GPIO_RF24L01_CSN, 0)], command, i);
    }
    assert command[..|command|] == command;
    ghost var l2 := io.level;
    io.Output(GPIO_RF24L01_CSN, 1);
    OffBusUpdate(l2, GPIO_RF24L01_CSN, 1);
  }

  /** Ghost bookkeeping for the operations that issue several commands: the
      commands so far, extended by one. */
  ghost function Then(t0: seq<Event>, sent: seq<seq<int>>, command: seq<int>): (r: seq<seq<int>>)
    ensures r == sent + [command]
    ensures AfterFrames(t0, r) == AfterFrame(AfterFrames(t0, sent), command)
    ensures WordCount(r) == WordCount(sent) + |command|
  {
    FramesSnoc(t0, sent, command);
    sent + [command]
  }

  /** The same bookkeeping, extended by several commands. */
  ghost function ThenAll(t0: seq<Event>, sent: seq<seq<int>>, commands: seq<seq<int>>): (r: seq<seq<int>>)
    ensures r == sent + commands
    ensures AfterFrames(t0, r) == AfterFrames(AfterFrames(t0, sent), commands)
    ensures WordCount(r) == WordCount(sent) + WordCount(commands)
  {
    FramesAppend(t0, sent, commands);
    sent + commands
  }

  /** Commands sent one after another append their frames in order. */
  lemma {:induction false} FramesAppend(t: seq<Event>, first: seq<seq<int>>, second: seq<seq<int>>)
    ensures AfterFrames(t, first + second) == AfterFrames(AfterFrames(t, first), second)
    ensures WordCount(first + second) == WordCount(first) + WordCount(second)
  {
    if second == [] {
      assert first + second == first;
    } else {
      var init := second[..|second| - 1];
      FramesAppend(t, first, init);
      assert (first + second)[..|first + second| - 1] == first + init;
    }
  }

  /** RPiRF24L01.ReadRegister: build [R_REGISTER | a] + n zeros and send it. */
  method ReadRegister(io: Board, registerAddress: nat, dataWordCount: int) returns (response: seq<nat>)
    requires !io.IsOutput(GPIO_SPI_MISO)
    modifies io
    ensures io.trace == AfterFrame(old(io.trace), ReadCommand(registerAddress, dataWordCount))
    ensures io.samples == old(io.samples) + 8 * |ReadCommand(registerAddress, dataWordCount)|
    ensures response == Replies(io.line, old(io.samples), |ReadCommand(registerAddress, dataWordCount)|)
    ensures io.mode == old(io.mode) && OffBus(io.level) == OffBus(old(io.level))
    ensures io.LevelOf(GPIO_RF24L01_CSN) == 1
  {
    var command := [RegisterWord(RF24L01_R_REGISTER, registerAddress)];
    var n := if dataWordCount < 0 then 0 else dataWordCount;
    for count := 0 to n
      invariant command == [RegisterWord(RF24L01_R_REGISTER, registerAddress)] + Zeros(count)
    {
      command := command + [0x00];
    }
    assert command == ReadCommand(registerAddress, dataWordCount);
    ghost var s0 := io.samples;
    response := SendCommand(io, command);
  }

  /** RPiRF24L01.WriteRegister: build [W_REGISTER | a] + data and send it. */
  method WriteRegister(io: Board, registerAddress: nat, writeData: seq<int>) returns (response: seq<nat>)
    requires !io.IsOutput(GPIO_SPI_MISO)
    modifies io
    ensures io.trace == AfterFrame(old(io.trace), WriteCommand(registerAddress, writeData))
    ensures io.samples == old(io.samples) + 8 * (1 + |writeData|)
    ensures response == Replies(io.line, old(io.samples), 1 + |writeData|)
    ensures io.mode == old(io.mode) && OffBus(io.level) == OffBus(old(io.level))
    ensures io.LevelOf(GPIO_RF24L01_CSN) == 1
  {
    var command := [RegisterWord(RF24L01_W_REGISTER, registerAddress)];
    for i := 0 to |writeData|
      invariant command == [RegisterWord(RF24L01_W_REGISTER, registerAddress)] + writeData[..i]
    {
      command := command + [writeData[i]];
      assert writeData[..i + 1] == writeData[..i] + [writeData[i]];
    }
    assert writeData[..|writeData|] == writeData;
    ghost var s0 := io.samples;
    response := SendCommand(io, command);
  }

  /** RPiRF24L01.FlushTxBuffer: the single word FLUSH_TX. */
  method FlushTxBuffer(io: Board)
    requires !io.IsOutput(GPIO_SPI_MISO)
    modifies io
    ensures io.trace == AfterFrame(old(io.trace), [RF24L01_FLUSH_TX])
    ensures io.samples == old(io.samples) + SPI_WORD_BITS
    ensures io.mode == old(io.mode) && OffBus(io.level) == OffBus(old(io.level))
    ensures io.LevelOf(GPIO_RF24L01_CSN) == 1
  {
    var response := SendCommand(io, [RF24L01_FLUSH_TX]);
  }

  /** RPiRF24L01.FlushRxBuffer: the single word FLUSH_RX. */
  method FlushRxBuffer(io: Board)
    requires !io.IsOutput(GPIO_SPI_MISO)
    modifies io
    ensures io.trace == AfterFrame(old(io.trace), [RF24L01_FLUSH_RX])
    ensures io.samples == old(io.samples) + SPI_WORD_BITS
    ensures io.mode == old(io.mode) && OffBus(io.level) == OffBus(old(io.level))
    ensures io.LevelOf(GPIO_RF24L01_CSN) == 1
  {
    var response := SendCommand(io, [RF24L01_FLUSH_RX]);
  }

  // ---------------------------------------------------------------------
  // Configuration.

  /** BASE_ADDRESS with byte 0 increased by n. */
  function BaseAddressPlus(n: int): seq<int>
  {
    [BASE_ADDRESS[0] + n, BASE_ADDRESS[1], BASE_ADDRESS[2], BASE_ADDRESS[3], BASE_ADDRESS[4]]
  }

  /** Writing a five-byte address: the opcode word, then the base address
      with byte 0 increased by n. */
  lemma AddressWords(address: nat, n: int)
    requires address < 32
    ensures WriteCommand(address, BaseAddressPlus(n)) == [0x20 + address, 0x1C + n, 0x93, 0xB5, 0xFE, 0xD2]
  {
    WriteWords(address, BaseAddressPlus(n));
  }

  /** The commands of Configure, in order (written as the successive
      appends the method performs). */
  function ConfigureCommands(): seq<seq<int>>
  {
    [WriteCommand(RF24L01_TX_ADDR, BaseAddressPlus(0))]
    + [WriteCommand(RF24L01_RX_ADDR_P0, BaseAddressPlus(0))]
    + [WriteCommand(RF24L01_RX_ADDR_P1, BaseAddressPlus(1))]
    + [WriteCommand(RF24L01_RX_ADDR_P2, [BASE_ADDRESS[0] + 2])]
    + [WriteCommand(RF24L01_RX_ADDR_P3, [BASE_ADDRESS[0] + 3])]
    + [WriteCommand(RF24L01_RX_ADDR_P4, [BASE_ADDRESS[0] + 4])]
    + [WriteCommand(RF24L01_RX_ADDR_P5, [BASE_ADDRESS[0] + 5])]
    + [WriteCommand(RF24L01_RF_SETUP, [Or(Or(RF24L01_RF_SETUP_1MBPS, RF24L01_RF_SETUP_0DBM), RF24L01_RF_SETUP_LNA_GAIN)])]
    + [WriteCommand(RF24L01_CONFIG, [RF24L01_CONFIG_EN_CRC])]
  }

  /** RPiRF24L01.Configure: addresses, 1 Mb/s at 0 dBm with LNA gain, radio off. */
  method Configure(io: Board)
    requires !io.IsOutput(GPIO_SPI_MISO)
    modifies io
    ensures io.trace == AfterFrames(old(io.trace), ConfigureCommands())
    ensures io.samples == old(io.samples) + 8 * WordCount(ConfigureCommands())
    ensures io.mode == old(io.mode) && OffBus(io.level) == OffBus(old(io.level))
    ensures io.LevelOf(GPIO_RF24L01_CSN) == 1
  {
    ghost var t0 := io.trace;
    var response := WriteRegister(io, RF24L01_TX_ADDR, [BASE_ADDRESS[0], BASE_ADDRESS[1], BASE_ADDRESS[2], BASE_ADDRESS[3], BASE_ADDRESS[4]]);
    ghost var sent := Then(t0, [], WriteCommand(RF24L01_TX_ADDR, BaseAddressPlus(0)));
    assert io.trace == AfterFrames(t0, sent);
    assert sent == [WriteCommand(RF24L01_TX_ADDR, BaseAddressPlus(0))];
    response := WriteRegister(io, RF24L01_RX_ADDR_P0, [BASE_ADDRESS[0], BASE_ADDRESS[1], BASE_ADDRESS[2], BASE_ADDRESS[3], BASE_ADDRESS[4]]);
    sent := Then(t0, sent, WriteCommand(RF24L01_RX_ADDR_P0, BaseAddressPlus(0)));
    assert io.trace == AfterFrames(t0, sent);
    response := WriteRegister(io, RF24L01_RX_ADDR_P1, [BASE_ADDRESS[0] + 1, BASE_ADDRESS[1], BASE_ADDRESS[2], BASE_ADDRESS[3], BASE_ADDRESS[4]]);
    sent := Then(t0, sent, WriteCommand(RF24L01_RX_ADDR_P1, BaseAddressPlus(1)));
    assert io.trace == AfterFrames(t0, sent);
    response := WriteRegister(io, RF24L01_RX_ADDR_P2, [BASE_ADDRESS[0] + 2]);
    sent := Then(t0, sent, WriteCommand(RF24L01_RX_ADDR_P2, [BASE_ADDRESS[0] + 2]));
    assert io.trace == AfterFrames(t0, sent);
    response := WriteRegister(io, RF24L01_RX_ADDR_P3, [BASE_ADDRESS[0] + 3]);
    sent := Then(t0, sent, WriteCommand(RF24L01_RX_ADDR_P3, [BASE_ADDRESS[0] + 3]));
    assert io.trace == AfterFrames(t0, sent);
    response := WriteRegister(io, RF24L01_RX_ADDR_P4, [BASE_ADDRESS[0] + 4]);
    sent := Then(t0, sent, WriteCommand(RF24L01_RX_ADDR_P4, [BASE_ADDRESS[0] + 4]));
    assert io.trace == AfterFrames(t0, sent);
    response := WriteRegister(io, RF24L01_RX_ADDR_P5, [BASE_ADDRESS[0] + 5]);
    sent := Then(t0, sent, WriteCommand(RF24L01_RX_ADDR_P5, [BASE_ADDRESS[0] + 5]));
    assert io.trace == AfterFrames(t0, sent);
    var rfSetup := Or(Or(RF24L01_RF_SETUP_1MBPS, RF24L01_RF_SETUP_0DBM), RF24L01_RF_SETUP_LNA_GAIN);
    response := WriteRegister(io, RF24L01_RF_SETUP, [rfSetup]);
    sent := Then(t0, sent, WriteCommand(RF24L01_RF_SETUP, [rfSetup]));
    assert io.trace == AfterFrames(t0, sent);
    response := WriteRegister(io, RF24L01_CONFIG, [RF24L01_CONFIG_EN_CRC]);
    sent := Then(t0, sent, WriteCommand(RF24L01_CONFIG, [RF24L01_CONFIG_EN_CRC]));
    assert io.trace == AfterFrames(t0, sent);
    assert sent == ConfigureCommands();
    ConfigureWordCount();
  }

  /** Configure transfers 30 words. */
  lemma ConfigureWordCount()
    ensures WordCount(ConfigureCommands()) == 30
  {
    ConfigureWords();
    var c := ConfigureCommands();
    assert c[..0] == [];
    for k := 0 to |c|
      invariant WordCount(c[..k]) == [0, 6, 12, 18, 20, 22, 24, 26, 28, 30][k]
    {
      WordCountStep(c, k);
    }
    assert c[..|c|] == c;
  }

  /** The words Configure sends: TX_ADDR and RX_ADDR_P0 get the base address,
      RX_ADDR_P1 the base with byte 0 plus one, RX_ADDR_P2..P5 the single
      bytes 0x1E..0x21, RF_SETUP 0x07 and CONFIG 0x08. */
  lemma ConfigureWords()
    ensures ConfigureCommands() ==
      [[0x30, 0x1C, 0x93, 0xB5, 0xFE, 0xD2]]
      + [[0x2A, 0x1C, 0x93, 0xB5, 0xFE, 0xD2]]
      + [[0x2B, 0x1D, 0x93, 0xB5, 0xFE, 0xD2]]
      + [[0x2C, 0x1E]] + [[0x2D, 0x1F]] + [[0x2E, 0x20]] + [[0x2F, 0x21]]
      + [[0x26, 0x07]]
      + [[0x20, 0x08]]
  {
    FlagWords();
    AddressWords(RF24L01_TX_ADDR, 0);
    AddressWords(RF24L01_RX_ADDR_P0, 0);
    AddressWords(RF24L01_RX_ADDR_P1, 1);
    WriteWords(RF24L01_RX_ADDR_P2, [BASE_ADDRESS[0] + 2]);
    WriteWords(RF24L01_RX_ADDR_P3, [BASE_ADDRESS[0] + 3]);
    WriteWords(RF24L01_RX_ADDR_P4, [BASE_ADDRESS[0] + 4]);
    WriteWords(RF24L01_RX_ADDR_P5, [BASE_ADDRESS[0] + 5]);
    WriteWords(RF24L01_RF_SETUP, [Or(Or(RF24L01_RF_SETUP_1MBPS, RF24L01_RF_SETUP_0DBM), RF24L01_RF_SETUP_LNA_GAIN)]);
    WriteWords(RF24L01_CONFIG, [RF24L01_CONFIG_EN_CRC]);
    assert WriteCommand(RF24L01_RX_ADDR_P2, [BASE_ADDRESS[0] + 2]) == [0x2C, 0x1E];
    assert WriteCommand(RF24L01_RX_ADDR_P3, [BASE_ADDRESS[0] + 3]) == [0x2D, 0x1F];
    assert WriteCommand(RF24L01_RX_ADDR_P4, [BASE_ADDRESS[0] + 4]) == [0x2E, 0x20];
    assert WriteCommand(RF24L01_RX_ADDR_P5, [BASE_ADDRESS[0] + 5]) == [0x2F, 0x21];
    assert WriteCommand(RF24L01_RF_SETUP, [Or(Or(RF24L01_RF_SETUP_1MBPS, RF24L01_RF_SETUP_0DBM), RF24L01_RF_SETUP_LNA_GAIN)]) == [0x26, 0x07];
    assert WriteCommand(RF24L01_CONFIG, [RF24L01_CONFIG_EN_CRC]) == [0x20, 0x08];
  }

  // ---------------------------------------------------------------------
  // Radio modes and reset.

  /** CONFIG for transmitting: PWR_UP | EN_CRC | PTX. */
  const CONFIG_TX: nat := Or(Or(RF24L01_CONFIG_PWR_UP, RF24L01_CONFIG_EN_CRC), RF24L01_CONFIG_PTX)
  /** CONFIG for receiving: PWR_UP | EN_CRC | PRX. */
  const CONFIG_RX: nat := Or(Or(RF24L01_CONFIG_PWR_UP, RF24L01_CONFIG_EN_CRC), RF24L01_CONFIG_PRX)

  function ConfigureTxCommands(channel: int): seq<seq<int>>
  {
    [WriteCommand(RF24L01_RF_CH, [channel])] + [WriteCommand(RF24L01_CONFIG, [CONFIG_TX])]
  }

  /** RPiRF24L01.ConfigureTx: channel, power up as a transmitter, CSN left low. */
  method ConfigureTx(io: Board, channel: int)
    requires !io.IsOutput(GPIO_SPI_MISO)
    modifies io
    ensures io.trace == AfterFrames(old(io.trace), ConfigureTxCommands(channel)) + [Write(GPIO_RF24L01_CSN, 0)]
    ensures io.samples == old(io.samples) + 8 * WordCount(ConfigureTxCommands(channel))
    ensures io.mode == old(io.mode) && OffBus(io.level) == OffBus(old(io.level))
    ensures io.LevelOf(GPIO_RF24L01_CSN) == 0
  {
    ghost var t0, s0 := io.trace, io.samples;
    var response := WriteRegister(io, RF24L01_RF_CH, [channel]);
    ghost var sent := Then(t0, [], WriteCommand(RF24L01_RF_CH, [channel]));
    assert io.trace == AfterFrames(t0, sent);
    response := WriteRegister(io, RF24L01_CONFIG, [Or(Or(RF24L01_CONFIG_PWR_UP, RF24L01_CONFIG_EN_CRC), RF24L01_CONFIG_PTX)]);
    sent := Then(t0, sent, WriteCommand(RF24L01_CONFIG, [CONFIG_TX]));
    assert io.trace == AfterFrames(t0, sent);
    assert sent == ConfigureTxCommands(channel);
    ghost var l := io.level;
    io.Output(GPIO_RF24L01_CSN, 0);
    OffBusUpdate(l, GPIO_RF24L01_CSN, 0);
  }

  /** ConfigureTx writes RF_CH = channel, then CONFIG = 0x0A. */
  lemma ConfigureTxWords(channel: int)
    ensures ConfigureTxCommands(channel) == [[0x25, channel], [0x20, 0x0A]]
  {
    FlagWords();
    WriteWords(RF24L01_RF_CH, [channel]);
    WriteWords(RF24L01_CONFIG, [CONFIG_TX]);
    assert CONFIG_TX == 0x0A;
    assert WriteCommand(RF24L01_RF_CH, [channel]) == [0x25, channel];
    assert WriteCommand(RF24L01_CONFIG, [CONFIG_TX]) == [0x20, 0x0A];
  }

  function ConfigureRxCommands(channel: int, pipeline: nat, byteCount: int): seq<seq<int>>
  {
    [WriteCommand(RF24L01_RF_CH, [channel])]
    + [WriteCommand(RF24L01_RX_PW_P0 + pipeline, [byteCount])]
    + [WriteCommand(RF24L01_CONFIG, [CONFIG_RX])]
    + [WriteCommand(RF24L01_EN_RXADDR, [Or(1, Pow2(pipeline))])]
  }

  /** RPiRF24L01.ConfigureRx: channel, payload width of the pipeline, power
      up as a receiver, enable pipe 0 and the pipeline, CSN high. */
  method ConfigureRx(io: Board, channel: int, pipeline: nat, byteCount: int)
    requires !io.IsOutput(GPIO_SPI_MISO)
    modifies io
    ensures io.trace == AfterFrames(old(io.trace), ConfigureRxCommands(channel, pipeline, byteCount)) + [Write(GPIO_RF24L01_CSN, 1)]
    ensures io.samples == old(io.samples) + 8 * WordCount(ConfigureRxCommands(channel, pipeline, byteCount))
    ensures io.mode == old(io.mode) && OffBus(io.level) == OffBus(old(io.level))
    ensures io.LevelOf(GPIO_RF24L01_CSN) == 1
  {
    ghost var t0 := io.trace;
    var response := WriteRegister(io, RF24L01_RF_CH, [channel]);
    ghost var sent := Then(t0, [], WriteCommand(RF24L01_RF_CH, [channel]));
    assert io.trace == AfterFrames(t0, sent);
    response := WriteRegister(io, RF24L01_RX_PW_P0 + pipeline, [byteCount]);
    sent := Then(t0, sent, WriteCommand(RF24L01_RX_PW_P0 + pipeline, [byteCount]));
    assert io.trace == AfterFrames(t0, sent);
    response := WriteRegister(io, RF24L01_CONFIG, [Or(Or(RF24L01_CONFIG_PWR_UP, RF24L01_CONFIG_EN_CRC), RF24L01_CONFIG_PRX)]);
    sent := Then(t0, sent, WriteCommand(RF24L01_CONFIG, [CONFIG_RX]));
    assert io.trace == AfterFrames(t0, sent);
    response := WriteRegister(io, RF24L01_EN_RXADDR, [Or(1, Pow2(pipeline))]);
    sent := Then(t0, sent, WriteCommand(RF24L01_EN_RXADDR, [Or(1, Pow2(pipeline))]));
    assert io.trace == AfterFrames(t0, sent);
    assert sent == ConfigureRxCommands(channel, pipeline, byteCount);
    ghost var l := io.level;
    io.Output(GPIO_RF24L01_CSN, 1);
    OffBusUpdate(l, GPIO_RF24L01_CSN, 1);
  }

  /** 1 | (1 << p): pipe 0 always, and pipe p. */
  lemma {:induction false} EnabledPipes(pipeline: nat)
    ensures Or(1, Pow2(pipeline)) == if pipeline == 0 then 1 else 1 + Pow2(pipeline)
  {
    if pipeline > 0 {
      var h := Pow2(pipeline - 1);
      assert Pow2(pipeline) == 2 * h;
      assert Or(1, 2 * h) == 2 * Or(0, h) + 1;
    }
  }

  /** ConfigureRx(ch, p, n) writes RF_CH = ch, RX_PW_Pp = n, CONFIG = 0x0B
      and EN_RXADDR = 1 | (1 << p), in that order. */
  lemma ConfigureRxWords(channel: int, pipeline: nat, byteCount: int)
    requires pipeline <= 5
    ensures ConfigureRxCommands(channel, pipeline, byteCount) ==
      [[0x25, channel], [0x31 + pipeline, byteCount], [0x20, 0x0B],
       [0x22, if pipeline == 0 then 1 else 1 + Pow2(pipeline)]]
  {
    FlagWords();
    EnabledPipes(pipeline);
    WriteWords(RF24L01_RF_CH, [channel]);
    WriteWords(RF24L01_RX_PW_P0 + pipeline, [byteCount]);
    WriteWords(RF24L01_CONFIG, [CONFIG_RX]);
    WriteWords(RF24L01_EN_RXADDR, [Or(1, Pow2(pipeline))]);
    assert CONFIG_RX == 0x0B;
    assert WriteCommand(RF24L01_RF_CH, [channel]) == [0x25, channel];
    assert WriteCommand(RF24L01_RX_PW_P0 + pipeline, [byteCount]) == [0x31 + pipeline, byteCount];
    assert WriteCommand(RF24L01_CONFIG, [CONFIG_RX]) == [0x20, 0x0B];
    assert WriteCommand(RF24L01_EN_RXADDR, [Or(1, Pow2(pipeline))]) == [0x22, if pipeline == 0 then 1 else 1 + Pow2(pipeline)];
  }

  /** RPiRF24L01.ConfigureOff: power down (CONFIG = EN_CRC), CSN left low. */
  method ConfigureOff(io: Board)
    requires !io.IsOutput(GPIO_SPI_MISO)
    modifies io
    ensures io.trace == AfterFrame(old(io.trace), WriteCommand(RF24L01_CONFIG, [RF24L01_CONFIG_EN_CRC])) + [Write(GPIO_RF24L01_CSN, 0)]
    ensures io.samples == old(io.samples) + 8 * 2
    ensures io.mode == old(io.mode) && OffBus(io.level) == OffBus(old(io.level))
    ensures io.LevelOf(GPIO_RF24L01_CSN) == 0
  {
    var response := WriteRegister(io, RF24L01_CONFIG, [RF24L01_CONFIG_EN_CRC]);
    ghost var l := io.level;
    io.Output(GPIO_RF24L01_CSN, 0);
    OffBusUpdate(l, GPIO_RF24L01_CSN, 0);
  }

  function ResetCommands(): seq<seq<int>>
  {
    [[RF24L01_FLUSH_TX]] + [[RF24L01_FLUSH_RX]]
    + [WriteCommand(RF24L01_STATUS, [Or(Or(RF24L01_STATUS_MAX_RT, RF24L01_STATUS_TX_DS), RF24L01_STATUS_RX_DR)])]
  }

  /** RPiRF24L01.Reset: flush both FIFOs, then clear the three latch bits. */
  method Reset(io: Board)
    requires !io.IsOutput(GPIO_SPI_MISO)
    modifies io
    ensures io.trace == AfterFrames(old(io.trace), ResetCommands())
    ensures io.samples == old(io.samples) + 8 * WordCount(ResetCommands())
    ensures io.mode == old(io.mode) && OffBus(io.level) == OffBus(old(io.level))
    ensures io.LevelOf(GPIO_RF24L01_CSN) == 1
  {
    ghost var t0 := io.trace;
    FlushTxBuffer(io);
    ghost var sent := Then(t0, [], [RF24L01_FLUSH_TX]);
    assert io.trace == AfterFrames(t0, sent);
    FlushRxBuffer(io);
    sent := Then(t0, sent, [RF24L01_FLUSH_RX]);
    assert io.trace == AfterFrames(t0, sent);
    var response := WriteRegister(io, RF24L01_STATUS, [Or(Or(RF24L01_STATUS_MAX_RT, RF24L01_STATUS_TX_DS), RF24L01_STATUS_RX_DR)]);
    sent := Then(t0, sent, WriteCommand(RF24L01_STATUS, [Or(Or(RF24L01_STATUS_MAX_RT, RF24L01_STATUS_TX_DS), RF24L01_STATUS_RX_DR)]));
    assert io.trace == AfterFrames(t0, sent);
    assert sent == ResetCommands();
  }

  /** Reset sends exactly FLUSH_TX, FLUSH_RX, then 0x70 to STATUS. */
  lemma ResetWords()
    ensures ResetCommands() == [[0xE1], [0xE2], [0x27, 0x70]]
  {
    FlagWords();
    WriteWords(RF24L01_STATUS, [Or(Or(RF24L01_STATUS_MAX_RT, RF24L01_STATUS_TX_DS), RF24L01_STATUS_RX_DR)]);
    assert WriteCommand(RF24L01_STATUS, [Or(Or(RF24L01_STATUS_MAX_RT, RF24L01_STATUS_TX_DS), RF24L01_STATUS_RX_DR)]) == [0x27, 0x70];
  }

  // ---------------------------------------------------------------------
  // Interrupt flags.

  /** The STATUS write that clears latch bit `bit`, if it is set in flags. */
  function ClearIf(flags: nat, bit: nat): seq<seq<int>>
  {
    if IsSet(flags, bit) then [WriteCommand(RF24L01_STATUS, [bit])] else []
  }

  /** The commands of GetIntFlags: the FIFO_STATUS read, then the writes
      clearing MAX_RT, TX_DS and RX_DR, each only when set. */
  function IntFlagsCommands(flags: nat): seq<seq<int>>
  {
    [ReadCommand(RF24L01_FIFO_STATUS, 1)]
    + ClearIf(flags, RF24L01_STATUS_MAX_RT) + ClearIf(flags, RF24L01_STATUS_TX_DS) + ClearIf(flags, RF24L01_STATUS_RX_DR)
  }

  /** RPiRF24L01.GetIntFlags: read STATUS (word 0 of a FIFO_STATUS read),
      clear each latch bit found set, return the byte as read. */
  method GetIntFlags(io: Board) returns (intFlags: nat)
    requires !io.IsOutput(GPIO_SPI_MISO)
    modifies io
    ensures intFlags == ReceivedWord(io.line, old(io.samples))
    ensures io.trace == AfterFrames(old(io.trace), IntFlagsCommands(intFlags))
    ensures io.samples == old(io.samples) + 8 * WordCount(IntFlagsCommands(intFlags))
    ensures io.mode == old(io.mode) && OffBus(io.level) == OffBus(old(io.level))
    ensures io.LevelOf(GPIO_RF24L01_CSN) == 1
  {
    ghost var t0, s0 := io.trace, io.samples;
    var response := ReadRegister(io, RF24L01_FIFO_STATUS, 1);
    RepliesAt(io.line, s0, |response|, 0);
    intFlags := response[0];
    ghost var sent := Then(t0, [], ReadCommand(RF24L01_FIFO_STATUS, 1));
    assert io.trace == AfterFrames(t0, sent) && io.samples == s0 + 8 * WordCount(sent);
    ClearIfSet(io, intFlags, RF24L01_STATUS_MAX_RT);
    sent := ThenAll(t0, sent, ClearIf(intFlags, RF24L01_STATUS_MAX_RT));
    assert io.trace == AfterFrames(t0, sent) && io.samples == s0 + 8 * WordCount(sent);
    ClearIfSet(io, intFlags, RF24L01_STATUS_TX_DS);
    sent := ThenAll(t0, sent, ClearIf(intFlags, RF24L01_STATUS_TX_DS));
    assert io.trace == AfterFrames(t0, sent) && io.samples == s0 + 8 * WordCount(sent);
    ClearIfSet(io, intFlags, RF24L01_STATUS_RX_DR);
    sent := ThenAll(t0, sent, ClearIf(intFlags, RF24L01_STATUS_RX_DR));
    assert sent == IntFlagsCommands(intFlags);
  }

  /** One `if IntFlags & bit:` step of GetIntFlags: write `bit` to STATUS
      when it is set in the flags read. */
  method ClearIfSet(io: Board, flags: nat, bit: nat)
    requires !io.IsOutput(GPIO_SPI_MISO) && io.LevelOf(GPIO_RF24L01_CSN) == 1
    modifies io
    ensures io.trace == AfterFrames(old(io.trace), ClearIf(flags, bit))
    ensures io.samples == old(io.samples) + 8 * WordCount(ClearIf(flags, bit))
    ensures io.mode == old(io.mode) && OffBus(io.level) == OffBus(old(io.level))
    ensures io.LevelOf(GPIO_RF24L01_CSN) == 1
  {
    if IsSet(flags, bit) {
      ghost var t0 := io.trace;
      var response := WriteRegister(io, RF24L01_STATUS, [bit]);
      ghost var sent := Then(t0, [], WriteCommand(RF24L01_STATUS, [bit]));
      assert sent == ClearIf(flags, bit);
    }
  }

  /** The latch bits GetIntFlags clears, in the order it clears them. */
  function ClearedBits(flags: nat): seq<nat>
  {
    (if IsSet(flags, RF24L01_STATUS_MAX_RT) then [RF24L01_STATUS_MAX_RT] else [])
    + (if IsSet(flags, RF24L01_STATUS_TX_DS) then [RF24L01_STATUS_TX_DS] else [])
    + (if IsSet(flags, RF24L01_STATUS_RX_DR) then [RF24L01_STATUS_RX_DR] else [])
  }

  function Sum(xs: seq<nat>): nat
  {
    if xs == [] then 0 else Sum(xs[..|xs| - 1]) + xs[|xs| - 1]
  }

  /** GetIntFlags reads FIFO_STATUS ([0x17, 0]); each write after the read
      is [0x27, b], STATUS written with the single latch bit b. */
  lemma IntFlagsWords(flags: nat)
    ensures IntFlagsCommands(flags)[0] == [0x17, 0x00]
    ensures |IntFlagsCommands(flags)| == 1 + |ClearedBits(flags)| <= 4
    ensures forall i :: 0 <= i < |ClearedBits(flags)| ==> IntFlagsCommands(flags)[i + 1] == [0x27, ClearedBits(flags)[i]]
  {
    WriteWords(RF24L01_STATUS, [RF24L01_STATUS_MAX_RT]);
    WriteWords(RF24L01_STATUS, [RF24L01_STATUS_TX_DS]);
    WriteWords(RF24L01_STATUS, [RF24L01_STATUS_RX_DR]);
  }

  /** GetIntFlags clears exactly the latch bits it observed: a latch bit is
      written back iff it was set, no other bit is ever written, and each
      at most once, in increasing order. */
  lemma ClearedBitsExact(flags: nat)
    ensures forall b :: b in ClearedBits(flags) <==> b in {RF24L01_STATUS_MAX_RT, RF24L01_STATUS_TX_DS, RF24L01_STATUS_RX_DR} && IsSet(flags, b)
    ensures forall i, j :: 0 <= i < j < |ClearedBits(flags)| ==> ClearedBits(flags)[i] < ClearedBits(flags)[j]
  {
  }

  /** Together the bits GetIntFlags writes back are flags & 0x70. */
  lemma ClearedBitsSum(flags: nat)
    ensures Sum(ClearedBits(flags)) == And(flags, 0x70)
  {
    LatchBitsSum(flags);
    var a := if IsSet(flags, 0x10) then [0x10] else [];
    var b := if IsSet(flags, 0x20) then [0x20] else [];
    var c := if IsSet(flags, 0x40) then [0x40] else [];
    assert ClearedBits(flags) == a + b + c;
    SumAppend(a + b, c);
    SumAppend(a, b);
  }

  /** flags & 0x70 is the sum of its three latch bits, each of which is
      either clear or the bit's own value. */
  lemma LatchBitsSum(a: int)
    ensures And(a, 0x70) == And(a, 0x10) + And(a, 0x20) + And(a, 0x40)
    ensures And(a, 0x10) in {0, 0x10} && And(a, 0x20) in {0, 0x20} && And(a, 0x40) in {0, 0x40}
  {
    assert Pow2(3) == 8 && Pow2(4) == 16 && Pow2(5) == 32 && Pow2(6) == 64;
    var q := a / 16;
    AndShift(a, 7, 4);
    AndLowBits(q, 3);
    AndPow2(a, 4);
    AndPow2(a, 5);
    AndPow2(a, 6);
    DivHalf(a, 4);
    DivHalf(a, 5);
    ModDouble(q, 2);
    ModDouble(q / 2, 1);
  }

  lemma {:induction false} SumAppend(xs: seq<nat>, ys: seq<nat>)
    ensures Sum(xs + ys) == Sum(xs) + Sum(ys)
  {
    if ys != [] {
      SumAppend(xs, ys[..|ys| - 1]);
      assert (xs + ys)[..|xs + ys| - 1] == xs + ys[..|ys| - 1];
    } else {
      assert xs + ys == xs;
    }
  }

  // ---------------------------------------------------------------------
  // Sending and receiving packets.

  /** ord(c) for each character of a packet, in order. */
  function Ords(data: string): (ws: seq<int>)
    ensures |ws| == |data| && forall k :: 0 <= k < |data| ==> ws[k] == data[k] as int
  {
    seq(|data|, k requires 0 <= k < |data| => data[k] as int)
  }

  lemma OrdsSnoc(data: string, i: nat)
    requires i < |data|
    ensures [RF24L01_W_TX_PAYLOAD] + Ords(data[..i + 1]) == [RF24L01_W_TX_PAYLOAD] + Ords(data[..i]) + [data[i] as int]
  {
  }

  /** [W_TX_PAYLOAD] followed by the packet's character codes. */
  function PayloadCommand(data: string): seq<int>
  {
    [RF24L01_W_TX_PAYLOAD] + Ords(data)
  }

  function SendDataCommands(channel: int, pipeline: int, data: string): seq<seq<int>>
  {
    [WriteCommand(RF24L01_TX_ADDR, BaseAddressPlus(pipeline))]
    + [WriteCommand(RF24L01_RX_ADDR_P0, BaseAddressPlus(pipeline))]
    + [WriteCommand(RF24L01_RF_CH, [channel])]
    + [[RF24L01_FLUSH_TX]]
    + [WriteCommand(RF24L01_CONFIG, [CONFIG_TX])]
    + [PayloadCommand(data)]
  }

  /** SendData's loop building Command: W_TX_PAYLOAD, then ord(c) appended
      for each character c of the packet. */
  method BuildPayload(data: string) returns (command: seq<int>)
    ensures command == PayloadCommand(data)
  {
    command := [RF24L01_W_TX_PAYLOAD];
    for i := 0 to |data|
      invariant command == [RF24L01_W_TX_PAYLOAD] + Ords(data[..i])
    {
      OrdsSnoc(data, i);
      command := command + [data[i] as int];
    }
    assert data[..|data|] == data;
  }

  /** RPiRF24L01.SendData: address the pipeline, set the channel, flush,
      power up as a transmitter, load the payload, then a CSN pulse of one
      microsecond starts the transmission. */
  method SendData(io: Board, channel: int, pipeline: int, data: string)
    requires !io.IsOutput(GPIO_SPI_MISO)
    modifies io
    ensures io.trace == AfterFrames(old(io.trace), SendDataCommands(channel, pipeline, data))
                        + [Write(GPIO_RF24L01_CSN, 1), Sleep(1), Write(GPIO_RF24L01_CSN, 0)]
    ensures io.samples == old(io.samples) + 8 * WordCount(SendDataCommands(channel, pipeline, data))
    ensures io.mode == old(io.mode) && OffBus(io.level) == OffBus(old(io.level))
    ensures io.LevelOf(GPIO_RF24L01_CSN) == 0
  {
    ghost var t0, s0 := io.trace, io.samples;
    var response := WriteRegister(io, RF24L01_TX_ADDR, [BASE_ADDRESS[0] + pipeline, BASE_ADDRESS[1], BASE_ADDRESS[2], BASE_ADDRESS[3], BASE_ADDRESS[4]]);
    ghost var sent := Then(t0, [], WriteCommand(RF24L01_TX_ADDR, BaseAddressPlus(pipeline)));
    assert io.trace == AfterFrames(t0, sent) && io.samples == s0 + 8 * WordCount(sent);
    assert sent == [WriteCommand(RF24L01_TX_ADDR, BaseAddressPlus(pipeline))];
    response := WriteRegister(io, RF24L01_RX_ADDR_P0, [BASE_ADDRESS[0] + pipeline, BASE_ADDRESS[1], BASE_ADDRESS[2], BASE_ADDRESS[3], BASE_ADDRESS[4]]);
    sent := Then(t0, sent, WriteCommand(RF24L01_RX_ADDR_P0, BaseAddressPlus(pipeline)));
    assert io.trace == AfterFrames(t0, sent) && io.samples == s0 + 8 * WordCount(sent);
    response := WriteRegister(io, RF24L01_RF_CH, [channel]);
    sent := Then(t0, sent, WriteCommand(RF24L01_RF_CH, [channel]));
    assert io.trace == AfterFrames(t0, sent) && io.samples == s0 + 8 * WordCount(sent);
    FlushTxBuffer(io);
    sent := Then(t0, sent, [RF24L01_FLUSH_TX]);
    assert io.trace == AfterFrames(t0, sent) && io.samples == s0 + 8 * WordCount(sent);
    response := WriteRegister(io, RF24L01_CONFIG, [Or(Or(RF24L01_CONFIG_PWR_UP, RF24L01_CONFIG_EN_CRC), RF24L01_CONFIG_PTX)]);
    sent := Then(t0, sent, WriteCommand(RF24L01_CONFIG, [CONFIG_TX]));
    assert io.trace == AfterFrames(t0, sent) && io.samples == s0 + 8 * WordCount(sent);
    var command := BuildPayload(data);
    response := SendCommand(io, command);
    sent := Then(t0, sent, PayloadCommand(data));
    assert io.trace == AfterFrames(t0, sent) && io.samples == s0 + 8 * WordCount(sent);
    assert sent == SendDataCommands(channel, pipeline, data);
    ghost var t2, l := io.trace, io.level;
    io.Output(GPIO_RF24L01_CSN, 1);
    io.Sleep(1);
    io.Output(GPIO_RF24L01_CSN, 0);
    OffBusUpdate(l, GPIO_RF24L01_CSN, 1);
    OffBusUpdate(l[GPIO_RF24L01_CSN := 1], GPIO_RF24L01_CSN, 0);
    AppendThree(t2, Write(GPIO_RF24L01_CSN, 1), Sleep(1), Write(GPIO_RF24L01_CSN, 0));
  }

  lemma AppendThree(t: seq<Event>, a: Event, b: Event, c: Event)
    ensures t + [a] + [b] + [c] == t + [a, b, c]
  {
  }

  /** SendData(ch, p, d) writes TX_ADDR and RX_ADDR_P0 with the base address
      plus p in byte 0, RF_CH = ch, FLUSH_TX, CONFIG = 0x0A, then 0xA0 and
      the packet's character codes. */
  lemma SendDataWords(channel: int, pipeline: int, data: string)
    ensures SendDataCommands(channel, pipeline, data) ==
      [[0x30, 0x1C + pipeline, 0x93, 0xB5, 0xFE, 0xD2]]
      + [[0x2A, 0x1C + pipeline, 0x93, 0xB5, 0xFE, 0xD2]]
      + [[0x25, channel]]
      + [[0xE1]]
      + [[0x20, 0x0A]]
      + [[0xA0] + Ords(data)]
  {
    FlagWords();
    AddressWords(RF24L01_TX_ADDR, pipeline);
    AddressWords(RF24L01_RX_ADDR_P0, pipeline);
    WriteWords(RF24L01_RF_CH, [channel]);
    WriteWords(RF24L01_CONFIG, [CONFIG_TX]);
    assert WriteCommand(RF24L01_RF_CH, [channel]) == [0x25, channel];
    assert WriteCommand(RF24L01_CONFIG, [CONFIG_TX]) == [0x20, 0x0A];
  }

  /** The pipeline number in bits 3..1 of STATUS: (status & 0x0E) >> 1. */
  function RxPipeline(status: int): nat
  {
    And(status, RF24L01_STATUS_RX_P_NO) / 2
  }

  /** R_RX_PAYLOAD followed by one zero word per payload byte. */
  function PayloadReadCommand(width: nat): seq<int>
  {
    [RF24L01_R_RX_PAYLOAD] + Zeros(width)
  }

  /** The commands of GetData for the STATUS it reads and the width it reads
      from RX_PW_Pn (unused when no pipeline has data). */
  function GetDataCommands(status: nat, width: nat): seq<seq<int>>
  {
    if RxPipeline(status) < 7 then
      [ReadCommand(RF24L01_FIFO_STATUS, 1)]
      + [ReadCommand(RF24L01_RX_PW_P0 + RxPipeline(status), 1)]
      + [PayloadReadCommand(width)]
      + [[RF24L01_FLUSH_RX]]
    else
      [ReadCommand(RF24L01_FIFO_STATUS, 1)] + [[RF24L01_FLUSH_RX]]
  }

  /** The pin actions of GetData after its STATUS read: when a pipeline
      holds data, the width read and the payload read, then FLUSH_RX. */
  function PayloadTrace(t: seq<Event>, status: nat, width: nat): seq<Event>
  {
    var afterPayload :=
      if RxPipeline(status) < 7 then
        AfterFrame(AfterFrame(t, ReadCommand(RF24L01_RX_PW_P0 + RxPipeline(status), 1)), PayloadReadCommand(width))
      else t;
    AfterFrame(afterPayload, [RF24L01_FLUSH_RX])
  }

  /** The pin actions of GetData after its first CSN write. */
  function GetDataTrace(t: seq<Event>, status: nat, width: nat): seq<Event>
  {
    PayloadTrace(AfterFrame(t, ReadCommand(RF24L01_FIFO_STATUS, 1)), status, width)
  }

  /** GetData's Command = [0] * (RxBytes + 1), then Command[0] = R_RX_PAYLOAD. */
  method BuildPayloadRead(rxBytes: nat) returns (command: seq<int>)
    ensures command == PayloadReadCommand(rxBytes)
  {
    command := Zeros(rxBytes + 1);
    command := command[0 := RF24L01_R_RX_PAYLOAD];
    assert command == PayloadReadCommand(rxBytes);
  }

  /** The branch of GetData taken when pipeline p holds data: read its
      payload width w from RX_PW_Pp, then clock in the payload with
      R_RX_PAYLOAD and w zero words. */
  method ReadPayload(io: Board, rxPipeline: nat) returns (received: seq<nat>)
    requires !io.IsOutput(GPIO_SPI_MISO)
    modifies io
    ensures var width := ReceivedWord(io.line, old(io.samples) + 8);
            io.trace == AfterFrame(AfterFrame(old(io.trace), ReadCommand(RF24L01_RX_PW_P0 + rxPipeline, 1)), PayloadReadCommand(width))
            && io.samples == old(io.samples) + 8 * (3 + width)
            && SliceFrom(received, 1) == Replies(io.line, old(io.samples) + 24, width)
    ensures io.mode == old(io.mode) && OffBus(io.level) == OffBus(old(io.level))
    ensures io.LevelOf(GPIO_RF24L01_CSN) == 1
  {
    ghost var s0 := io.samples;
    var widthResponse := ReadRegister(io, RF24L01_RX_PW_P0 + rxPipeline, 1);
    ghost var t1, s1 := io.trace, io.samples;
    assert |ReadCommand(RF24L01_RX_PW_P0 + rxPipeline, 1)| == 2;
    assert s1 == s0 + 16;
    var rxBytes := widthResponse[1];
    RepliesAt(io.line, s0, 2, 1);
    assert rxBytes == ReceivedWord(io.line, s0 + 8);
    var command := BuildPayloadRead(rxBytes);
    assert |command| == 1 + rxBytes;
    received := SendCommand(io, command);
    assert io.samples == s1 + 8 * (1 + rxBytes);
    assert io.trace == AfterFrame(t1, PayloadReadCommand(rxBytes));
    RepliesTail(io.line, s1, rxBytes);
    assert SliceFrom(received, 1) == received[1..];
  }

  /** The part of GetData after the STATUS read: with p = the pipeline
      field of the status word, read the payload when p < 7, then flush RX.
      The payload is the R_RX_PAYLOAD response without its STATUS word. */
  method FetchPayload(io: Board, status: nat) returns (rxData: seq<nat>)
    requires !io.IsOutput(GPIO_SPI_MISO)
    modifies io
    ensures var width := ReceivedWord(io.line, old(io.samples) + 8);
            io.trace == PayloadTrace(old(io.trace), status, width)
            && io.samples == old(io.samples) + 8 * (if RxPipeline(status) < 7 then 4 + width else 1)
            && rxData == (if RxPipeline(status) < 7 then Replies(io.line, old(io.samples) + 24, width) else [])
    ensures io.mode == old(io.mode) && OffBus(io.level) == OffBus(old(io.level))
    ensures io.LevelOf(GPIO_RF24L01_CSN) == 1
  {
    ghost var t0, s0 := io.trace, io.samples;
    var received: seq<nat> := [];
    var rxPipeline := RxPipeline(status);
    if rxPipeline < 7 {
      received := ReadPayload(io, rxPipeline);
    } else {
      assert SliceFrom(received, 1) == [];
    }
    ghost var t1 := io.trace;
    FlushRxBuffer(io);
    assert io.trace == AfterFrame(t1, [RF24L01_FLUSH_RX]);
    rxData := SliceFrom(received, 1);
  }

  /** RPiRF24L01.GetData: CSN low, read STATUS; if a pipeline holds data,
      read its payload width and then the payload; always flush RX. */
  method GetData(io: Board) returns (rxData: seq<nat>)
    requires !io.IsOutput(GPIO_SPI_MISO)
    modifies io
    ensures var status, width := ReceivedWord(io.line, old(io.samples)), ReceivedWord(io.line, old(io.samples) + 24);
            io.trace == GetDataTrace(old(io.trace) + [Write(GPIO_RF24L01_CSN, 0)], status, width)
            && io.samples == old(io.samples) + 8 * (if RxPipeline(status) < 7 then 6 + width else 3)
            && rxData == (if RxPipeline(status) < 7 then Replies(io.line, old(io.samples) + 40, width) else [])
    ensures io.mode == old(io.mode) && OffBus(io.level) == OffBus(old(io.level))
    ensures io.LevelOf(GPIO_RF24L01_CSN) == 1
  {
    ghost var s0, l0 := io.samples, io.level;
    io.Output(GPIO_RF24L01_CSN, 0);
    OffBusUpdate(l0, GPIO_RF24L01_CSN, 0);
    var thisStatus := ReadRegister(io, RF24L01_FIFO_STATUS, 1);
    assert thisStatus[0] == ReceivedWord(io.line, s0);
    rxData := FetchPayload(io, thisStatus[0]);
  }

  /** The pipeline number is bits 3..1 of STATUS, so it is below 8, and it is
      7 exactly when all three bits are set. */
  lemma RxPipelineBits(status: int)
    ensures RxPipeline(status) == (status / 2) % 8
    ensures RxPipeline(status) == 7 <==> And(status, RF24L01_STATUS_RX_P_NO) == 0x0E
  {
    assert Pow2(1) == 2 && Pow2(3) == 8;
    AndShift(status, 7, 1);
    AndLowBits(status / 2, 3);
  }

  /** GetData's commands: with data in pipeline p < 7 and width w, the
      STATUS read [0x17, 0], the width read [0x11 + p, 0], R_RX_PAYLOAD with
      w zero words, then FLUSH_RX; with pipeline 7, only the STATUS read and
      FLUSH_RX. */
  lemma GetDataWords(status: nat, width: nat)
    ensures RxPipeline(status) < 7 ==>
      GetDataCommands(status, width) ==
        [[0x17, 0]] + [[0x11 + RxPipeline(status), 0]] + [[0x61] + Zeros(width)] + [[0xE2]]
    ensures RxPipeline(status) == 7 ==>
      GetDataCommands(status, width) == [[0x17, 0]] + [[0xE2]]
  {
    var p := RxPipeline(status);
    assert ReadCommand(RF24L01_FIFO_STATUS, 1) == [0x17, 0];
    if p < 7 {
      assert ReadCommand(RF24L01_RX_PW_P0 + p, 1) == [0x11 + p, 0];
    }
  }

  /** GetData transfers 6 + w words when pipeline p < 7 holds a payload of
      w bytes, and 3 words when no pipeline has data. */
  lemma GetDataWordCount(status: nat, width: nat)
    ensures WordCount(GetDataCommands(status, width)) == if RxPipeline(status) < 7 then 6 + width else 3
  {
    var p := RxPipeline(status);
    var first := ReadCommand(RF24L01_FIFO_STATUS, 1);
    FramesSnoc([], [], first);
    assert [] + [first] == [first];
    if p < 7 {
      var second := ReadCommand(RF24L01_RX_PW_P0 + p, 1);
      FramesSnoc([], [first], second);
      FramesSnoc([], [first] + [second], PayloadReadCommand(width));
      FramesSnoc([], [first] + [second] + [PayloadReadCommand(width)], [RF24L01_FLUSH_RX]);
    } else {
      FramesSnoc([], [first], [RF24L01_FLUSH_RX]);
    }
  }

  /** GetData's pin actions are exactly its commands, one frame each. */
  lemma GetDataTraceFrames(t: seq<Event>, status: nat, width: nat)
    ensures GetDataTrace(t, status, width) == AfterFrames(t, GetDataCommands(status, width))
  {
    var p := RxPipeline(status);
    var first := ReadCommand(RF24L01_FIFO_STATUS, 1);
    FramesSnoc(t, [], first);
    assert [] + [first] == [first];
    if p < 7 {
      var second := ReadCommand(RF24L01_RX_PW_P0 + p, 1);
      FramesSnoc(t, [first], second);
      FramesSnoc(t, [first] + [second], PayloadReadCommand(width));
      FramesSnoc(t, [first] + [second] + [PayloadReadCommand(width)], [RF24L01_FLUSH_RX]);
    } else {
      FramesSnoc(t, [first], [RF24L01_FLUSH_RX]);
    }
  }
}
