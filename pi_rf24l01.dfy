/** The diagnostic program (PiRF24L01.py): its own copy of the bit-banged
    word transfer, which also echoes each bit it drives on MOSI to standard
    output, and the loop that sends the NOP command and prints the STATUS
    byte the chip returns.  The program's pin numbers (CE 8, MOSI 10,
    MISO 9, SCK 11, CSN 25, INT 24) are those of RPiSPI and RPiRF24L01.
    Standard output is the text a method returns. */
module PiRF24L01 {
  import opened Gpio
  import opened RPiSpi
  import opened PyText
  import opened PyInt
  import opened RPiRF24L01

  /** time.sleep(0.1) at the end of each pass of the loop, in microseconds. */
  const NOP_PERIOD_US: nat := 100000

  /** The character echoed for a level driven on MOSI. */
  function BitChar(b: Bit): char
  {
    if b == 0 then '0' else '1'
  }

  /** The characters echoed for a sequence of MOSI levels, in order. */
  function Echo(bits: seq<Bit>): (s: string)
    ensures |s| == |bits|
  {
    if bits == [] then "" else Echo(bits[..|bits| - 1]) + [BitChar(bits[|bits| - 1])]
  }

  /** The number a text of binary digits denotes, most significant first. */
  function BinaryValue(s: string): nat
  {
    if s == [] then 0 else BinaryValue(s[..|s| - 1]) * 2 + (if s[|s| - 1] == '1' then 1 else 0)
  }

  /** Character i of an echo is the digit of level i. */
  lemma {:induction false} EchoAt(bits: seq<Bit>, i: nat)
    requires i < |bits|
    ensures Echo(bits)[i] == BitChar(bits[i])
  {
    if i < |bits| - 1 {
      EchoAt(bits[..|bits| - 1], i);
    }
  }

  /** Read back as binary, an echo denotes the levels it echoes. */
  lemma {:induction false} EchoValue(bits: seq<Bit>)
    ensures BinaryValue(Echo(bits)) == BitsValue(bits)
  {
    if bits != [] {
      var s := Echo(bits);
      assert s[..|s| - 1] == Echo(bits[..|bits| - 1]);
      EchoValue(bits[..|bits| - 1]);
    }
  }

  /** The echo of a transfer of w: the eight MOSI levels as '0'/'1'. */
  function WordEcho(w: int): string
  {
    Echo(MosiBits(w, SPI_WORD_BITS))
  }

  /** The echo of a transfer of w is w's low byte written in binary with
      eight digits, most significant first, and each digit is the level
      driven on MOSI just before the corresponding rising clock edge. */
  lemma WordEchoIsBinary(w: int, n: nat)
    requires n < SPI_WORD_BITS
    ensures |WordEcho(w)| == 8 && BinaryValue(WordEcho(w)) == w % 256
    ensures WordEcho(w)[n] == '0' || WordEcho(w)[n] == '1'
    ensures |WordEvents(w)| == 48
    ensures WordEvents(w)[6 * n] == Write(GPIO_SPI_MOSI, if WordEcho(w)[n] == '1' then 1 else 0)
  {
    EchoValue(MosiBits(w, SPI_WORD_BITS));
    MosiRoundTrip(w);
    EchoAt(MosiBits(w, SPI_WORD_BITS), n);
    WordEventsMosi(w, n);
  }

  /** PiRF24L01.SpiSendReceiveWord: the transfer of RPiSPI, writing "0" or
      "1" to standard output as each bit is driven. */
  method SpiSendReceiveWord(io: Board, dataWord: int) returns (receiveDataWord: nat, echo: string)
    requires !io.IsOutput(GPIO_SPI_MISO)
    modifies io
    ensures io.trace == AfterWord(old(io.trace), dataWord)
    ensures io.samples == old(io.samples) + SPI_WORD_BITS
    ensures receiveDataWord == ReceivedWord(io.line, old(io.samples))
    ensures echo == WordEcho(dataWord)
    ensures io.mode == old(io.mode)
    ensures io.level == old(io.level)[GPIO_SPI_MOSI := MosiLevel(dataWord, SPI_WORD_BITS - 1)][GPIO_SPI_SCK := 0]
  {
    ghost var t0, s0, l0 := io.trace, io.samples, io.level;
    var received: nat := 0;
    var bitMask: nat := Pow2(SPI_WORD_BITS - 1);
    echo := "";
    for count := 0 to SPI_WORD_BITS
      invariant bitMask == Mask(count)
      invariant received == ReceivedBits(io.line, s0, count)
      invariant echo == Echo(MosiBits(dataWord, count))
      invariant io.trace == AfterBits(t0, dataWord, count)
      invariant io.samples == s0 + count
      invariant io.mode == old(io.mode)
      invariant count == 0 ==> io.level == l0
      invariant count > 0 ==> io.level == l0[GPIO_SPI_MOSI := MosiLevel(dataWord, count - 1)][GPIO_SPI_SCK := 0]
    {
      if count > 0 {
        LevelsOverwrite(l0, MosiLevel(dataWord, count - 1), MosiLevel(dataWord, count));
      }
      var spiReadBit, digit := EchoBit(io, dataWord, count, bitMask);
      echo := echo + [digit];
      bitMask := bitMask / 2;
      received := received * 2 + spiReadBit;
      assert MosiBits(dataWord, count + 1)[..count] == MosiBits(dataWord, count);
    }
    receiveDataWord := received;
  }

  /** Iteration `count` of the transfer: the masked bit echoed and driven
      on MOSI, then one SCK pulse. */
  method EchoBit(io: Board, dataWord: int, count: nat, bitMask: nat) returns (spiReadBit: Bit, digit: char)
    requires count < SPI_WORD_BITS && bitMask == Mask(count)
    requires !io.IsOutput(GPIO_SPI_MISO)
    modifies io
    ensures digit == BitChar(MosiLevel(dataWord, count))
    ensures io.trace == old(io.trace) + BitEvents(dataWord, count)
    ensures io.samples == old(io.samples) + 1 && spiReadBit == Sample(io.line, old(io.samples))
    ensures io.mode == old(io.mode)
    ensures io.level == old(io.level)[GPIO_SPI_MOSI := MosiLevel(dataWord, count)][GPIO_SPI_SCK := 0]
  {
    if And(dataWord, bitMask) == 0 {
      digit := '0';
      io.Output(GPIO_SPI_MOSI, 0);
    } else {
      digit := '1';
      io.Output(GPIO_SPI_MOSI, 1);
    }
    spiReadBit := ClockPulse(io);
  }

  /** What the loop over a command prints for its first n words: for each
      word its echo, " = ", the reply in two hexadecimal digits and a
      space. */
  function EchoLines(line: Line, s: nat, command: seq<int>, n: nat): string
    requires n <= |command|
  {
    if n == 0 then ""
    else
      var k := n - 1;
      ReceivedWordIsByte(line, s + 8 * k);
      EchoLines(line, s, command, k) + WordLine(command[k], ReceivedWord(line, s + 8 * k))
  }

  /** The (n+1)-th word adds its line, whose reply is the word read from
      sample si = s + 8n on. */
  lemma EchoLinesStep(line: Line, s: nat, command: seq<int>, n: nat, si: nat)
    requires n < |command| && si == s + 8 * n
    ensures ReceivedWord(line, si) < 256
    ensures EchoLines(line, s, command, n + 1)
            == EchoLines(line, s, command, n) + WordLine(command[n], ReceivedWord(line, si))
  {
    ReceivedWordIsByte(line, si);
    assert EchoLines(line, s, command, n + 1)
           == EchoLines(line, s, command, n) + WordLine(command[n], ReceivedWord(line, s + 8 * n));
  }

  /** What one word of the command prints: its echo, then " = {:2X} " of
      the reply. */
  function WordLine(w: int, reply: nat): string
    requires reply < 256
  {
    WordEcho(w) + " = " + Hex2(reply) + " "
  }

  /** for ThisWord in Command: one transfer per word, each followed by
      " = {:2X} " of its reply. */
  method EchoCommand(io: Board, command: seq<int>) returns (out: string)
    requires !io.IsOutput(GPIO_SPI_MISO)
    modifies io
    ensures io.trace == AfterWords(old(io.trace), command)
    ensures io.samples == old(io.samples) + 8 * |command|
    ensures out == EchoLines(io.line, old(io.samples), command, |command|)
    ensures io.mode == old(io.mode) && OffBus(io.level) == OffBus(old(io.level))
  {
    ghost var t0, s0, l0 := io.trace, io.samples, io.level;
    out := "";
    for i := 0 to |command|
      invariant io.trace == AfterWords(t0, command[..i])
      invariant io.samples == s0 + 8 * i
      invariant out == EchoLines(io.line, s0, command, i)
      invariant io.mode == old(io.mode) && OffBus(io.level) == OffBus(l0)
    {
      ghost var s1 := io.samples;
      var wordLine := EchoWord(io, command[i]);
      out := out + wordLine;
      WordsEventsSnoc(t0, command, i);
      EchoLinesStep(io.line, s0, command, i, s1);
    }
    assert command[..|command|] == command;
  }

  /** One word of the command: its transfer, then " = {:2X} " of the reply. */
  method EchoWord(io: Board, w: int) returns (wordLine: string)
    requires !io.IsOutput(GPIO_SPI_MISO)
    modifies io
    ensures io.trace == AfterWord(old(io.trace), w)
    ensures io.samples == old(io.samples) + 8
    ensures ReceivedWord(io.line, old(io.samples)) < 256
            && wordLine == WordLine(w, ReceivedWord(io.line, old(io.samples)))
    ensures io.mode == old(io.mode) && OffBus(io.level) == OffBus(old(io.level))
  {
    ghost var l1 := io.level;
    ReceivedWordIsByte(io.line, io.samples);
    var response, echo := SpiSendReceiveWord(io, w);
    OffBusUpdate(l1, GPIO_SPI_MOSI, MosiLevel(w, SPI_WORD_BITS - 1));
    OffBusUpdate(l1[GPIO_SPI_MOSI := MosiLevel(w, SPI_WORD_BITS - 1)], GPIO_SPI_SCK, 0);
    wordLine := echo + " = " + Hex2(response) + " ";
  }

  /** CE is off the bus: driving it changes only its own level there. */
  lemma OffBusCe(level: map<Pin, Bit>, v: Bit)
    ensures OffBus(level[GPIO_SPI_CE := v]) == OffBus(level)[GPIO_SPI_CE := v]
  {
    assert OffBus(level[GPIO_SPI_CE := v]).Keys == OffBus(level)[GPIO_SPI_CE := v].Keys;
  }

  /** RPi.GPIO setup at the top of the program: INT and MISO pulled-up
      inputs, CSN and CE driven high, MOSI and SCK low. */
  method Setup(io: Board)
    modifies io
    ensures io.mode == old(io.mode)[GPIO_RF24L01_INT := In(PullUp)][GPIO_SPI_MISO := In(PullUp)]
                                   [GPIO_RF24L01_CSN := Out][GPIO_SPI_CE := Out]
                                   [GPIO_SPI_MOSI := Out][GPIO_SPI_SCK := Out]
    ensures io.level == old(io.level)[GPIO_RF24L01_CSN := 1][GPIO_SPI_CE := 1][GPIO_SPI_MOSI := 0][GPIO_SPI_SCK := 0]
    ensures io.trace == old(io.trace) + [ SetupInput(GPIO_RF24L01_INT, PullUp), SetupInput(GPIO_SPI_MISO, PullUp),
                                          SetupOutput(GPIO_RF24L01_CSN, 1), SetupOutput(GPIO_SPI_CE, 1),
                                          SetupOutput(GPIO_SPI_MOSI, 0), SetupOutput(GPIO_SPI_SCK, 0) ]
    ensures io.samples == old(io.samples)
  {
    io.SetupInput(GPIO_RF24L01_INT, PullUp);
    io.SetupInput(GPIO_SPI_MISO, PullUp);
    io.SetupOutput(GPIO_RF24L01_CSN, 1);
    io.SetupOutput(GPIO_SPI_CE, 1);
    io.SetupOutput(GPIO_SPI_MOSI, 0);
    io.SetupOutput(GPIO_SPI_SCK, 0);
  }

  /** The pin actions of one pass of the loop after the trace t, for the
      command it sends (Command = RF24L01_NOP in the program). */
  function PassTrace(t: seq<Event>, command: seq<int>): seq<Event>
  {
    AfterWords(t + [Write(GPIO_SPI_CE, 0), Write(GPIO_RF24L01_CSN, 0)], command)
    + [Write(GPIO_RF24L01_CSN, 1), Write(GPIO_SPI_CE, 1), Sleep(NOP_PERIOD_US)]
  }

  /** One pass of the loop for the command it sends: CE and CSN low, one
      transfer per word, a newline, CSN and CE high, a 100 ms sleep;
      returns what it prints. */
  method LoopPass(io: Board, command: seq<int>) returns (out: string)
    requires !io.IsOutput(GPIO_SPI_MISO)
    modifies io
    ensures io.trace == PassTrace(old(io.trace), command)
    ensures io.samples == old(io.samples) + 8 * |command|
    ensures out == EchoLines(io.line, old(io.samples), command, |command|) + "\n"
    ensures io.mode == old(io.mode) && OffBus(io.level) == OffBus(old(io.level))[GPIO_SPI_CE := 1]
    ensures io.LevelOf(GPIO_RF24L01_CSN) == 1 && io.LevelOf(GPIO_SPI_CE) == 1
  {
    Select(io);
    ghost var t1 := io.trace;
    out := EchoCommand(io, command);
    out := out + "\n";
    Deselect(io);
    assert io.trace == AfterWords(t1, command) + [Write(GPIO_RF24L01_CSN, 1), Write(GPIO_SPI_CE, 1), Sleep(NOP_PERIOD_US)];
  }

  /** One pass of the program's loop, whose Command is the single NOP
      word; NopPassTrace and NopPassPrints spell out what it does. */
  method NopIteration(io: Board) returns (out: string)
    requires !io.IsOutput(GPIO_SPI_MISO)
    modifies io
    ensures io.trace == PassTrace(old(io.trace), [RF24L01_NOP])
    ensures io.samples == old(io.samples) + 8
    ensures out == EchoLines(io.line, old(io.samples), [RF24L01_NOP], 1) + "\n"
    ensures io.mode == old(io.mode) && OffBus(io.level) == OffBus(old(io.level))[GPIO_SPI_CE := 1]
    ensures io.LevelOf(GPIO_RF24L01_CSN) == 1 && io.LevelOf(GPIO_SPI_CE) == 1
  {
    out := LoopPass(io, [RF24L01_NOP]);
  }

  /** On the pins, a NOP pass lowers CE and CSN, makes one 48-action
      transfer of 0xFF, then raises CSN and CE and sleeps 100 ms. */
  lemma NopPassTrace(t: seq<Event>)
    ensures PassTrace(t, [RF24L01_NOP])
            == t + [Write(GPIO_SPI_CE, 0), Write(GPIO_RF24L01_CSN, 0)] + WordEvents(RF24L01_NOP)
               + [Write(GPIO_RF24L01_CSN, 1), Write(GPIO_SPI_CE, 1), Sleep(NOP_PERIOD_US)]
    ensures |WordEvents(RF24L01_NOP)| == 48
  {
    OneWordTrace(t, RF24L01_NOP);
  }

  /** A NOP pass prints "11111111 = ", the STATUS reply in hexadecimal and
      a space. */
  lemma NopPassPrints(line: Line, s: nat)
    ensures ReceivedWord(line, s) < 256
            && EchoLines(line, s, [RF24L01_NOP], 1) == "11111111 = " + Hex2(ReceivedWord(line, s)) + " "
  {
    forall n | 0 <= n < SPI_WORD_BITS
      ensures MosiLevel(RF24L01_NOP, n) == 1
    {
      NopMosiHigh(n);
    }
    AllOnesLine(line, s, RF24L01_NOP);
  }

  /** A pass sending one word that drives MOSI high on every bit prints
      "11111111 = ", the reply in hexadecimal and a space. */
  lemma AllOnesLine(line: Line, s: nat, w: int)
    requires forall n :: 0 <= n < SPI_WORD_BITS ==> MosiLevel(w, n) == 1
    ensures ReceivedWord(line, s) < 256
            && EchoLines(line, s, [w], 1) == "11111111 = " + Hex2(ReceivedWord(line, s)) + " "
  {
    OneWordLine(line, s, w);
    AllOnesEcho(w);
  }

  /** The start of a pass: CE low, then CSN low. */
  method Select(io: Board)
    modifies io
    ensures io.trace == old(io.trace) + [Write(GPIO_SPI_CE, 0), Write(GPIO_RF24L01_CSN, 0)]
    ensures io.samples == old(io.samples)
    ensures io.mode == old(io.mode) && OffBus(io.level) == OffBus(old(io.level))[GPIO_SPI_CE := 0]
  {
    ghost var l0 := io.level;
    io.Output(GPIO_SPI_CE, 0);
    OffBusCe(l0, 0);
    ghost var l1 := io.level;
    io.Output(GPIO_RF24L01_CSN, 0);
    OffBusUpdate(l1, GPIO_RF24L01_CSN, 0);
  }

  /** The end of a pass: CSN high, CE high, then the 100 ms sleep. */
  method Deselect(io: Board)
    modifies io
    ensures io.trace == old(io.trace) + [Write(GPIO_RF24L01_CSN, 1), Write(GPIO_SPI_CE, 1), Sleep(NOP_PERIOD_US)]
    ensures io.samples == old(io.samples)
    ensures io.mode == old(io.mode) && OffBus(io.level) == OffBus(old(io.level))[GPIO_SPI_CE := 1]
    ensures io.LevelOf(GPIO_RF24L01_CSN) == 1 && io.LevelOf(GPIO_SPI_CE) == 1
  {
    ghost var l2 := io.level;
    io.Output(GPIO_RF24L01_CSN, 1);
    OffBusUpdate(l2, GPIO_RF24L01_CSN, 1);
    ghost var l3 := io.level;
    io.Output(GPIO_SPI_CE, 1);
    OffBusCe(l3, 1);
    io.Sleep(NOP_PERIOD_US);
  }

  /** A pass that sends a single word w prints w's echo, " = ", the reply
      in hexadecimal and a space, then the newline. */
  lemma OneWordLine(line: Line, s: nat, w: int)
    ensures ReceivedWord(line, s) < 256
            && EchoLines(line, s, [w], 1) == WordEcho(w) + " = " + Hex2(ReceivedWord(line, s)) + " "
  {
    ReceivedWordIsByte(line, s);
    assert [w][..0] == [];
    assert EchoLines(line, s, [w], 1) == EchoLines(line, s, [w], 0) + WordLine(w, ReceivedWord(line, s));
  }

  /** On the pins, a pass that sends a single word w lowers CE and CSN,
      makes one 48-action transfer, then raises CSN and CE and sleeps
      100 ms. */
  lemma OneWordTrace(t: seq<Event>, w: int)
    ensures PassTrace(t, [w]) == t + [Write(GPIO_SPI_CE, 0), Write(GPIO_RF24L01_CSN, 0)] + WordEvents(w)
                                 + [Write(GPIO_RF24L01_CSN, 1), Write(GPIO_SPI_CE, 1), Sleep(NOP_PERIOD_US)]
    ensures |WordEvents(w)| == 48
  {
    var t1 := t + [Write(GPIO_SPI_CE, 0), Write(GPIO_RF24L01_CSN, 0)];
    assert [w][..0] == [];
    assert AfterWords(t1, [w]) == AfterWord(t1, w);
    AfterWordAppends(t1, w);
    BitsEventsLength(w, SPI_WORD_BITS);
  }

  /** 0xFF shifted right by j is 2^(8-j) - 1. */
  lemma {:induction false} NopShifted(j: nat)
    requires j <= SPI_WORD_BITS
    ensures RF24L01_NOP / Pow2(j) == Pow2(SPI_WORD_BITS - j) - 1
  {
    if j > 0 {
      NopShifted(j - 1);
      DivHalf(RF24L01_NOP, j - 1);
      var p := Pow2(SPI_WORD_BITS - j);
      assert Pow2(SPI_WORD_BITS - (j - 1)) == 2 * p;
      DivModUnique(2 * p - 1, 2, p - 1, 1);
    } else {
      assert Pow2(SPI_WORD_BITS) == 256;
    }
  }

  /** Every bit of NOP (0xFF) drives MOSI high. */
  lemma NopMosiHigh(n: nat)
    requires n < SPI_WORD_BITS
    ensures MosiLevel(RF24L01_NOP, n) == 1
  {
    MosiIsMsbFirst(RF24L01_NOP, n);
    var j := SPI_WORD_BITS - 1 - n;
    NopShifted(j);
    var p := Pow2(SPI_WORD_BITS - j - 1);
    assert Pow2(SPI_WORD_BITS - j) == 2 * p;
    DivModUnique(2 * p - 1, 2, p - 1, 1);
  }

  /** A word that drives MOSI high on every bit is echoed as eight '1's. */
  lemma AllOnesEcho(w: int)
    requires forall n :: 0 <= n < SPI_WORD_BITS ==> MosiLevel(w, n) == 1
    ensures WordEcho(w) == "11111111"
  {
    forall n | 0 <= n < SPI_WORD_BITS
      ensures WordEcho(w)[n] == '1'
    {
      EchoAt(MosiBits(w, SPI_WORD_BITS), n);
      MosiBitsAt(w, SPI_WORD_BITS, n);
    }
  }

  /** NOP (0xFF) is echoed as eight '1's. */
  lemma NopEcho()
    ensures WordEcho(RF24L01_NOP) == "11111111"
  {
    forall n | 0 <= n < SPI_WORD_BITS
      ensures MosiLevel(RF24L01_NOP, n) == 1
    {
      NopMosiHigh(n);
    }
    AllOnesEcho(RF24L01_NOP);
  }
}
