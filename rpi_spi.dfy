/** Bit-banged SPI on four GPIO lines (RPiSPI.py).  A word goes out MSB
    first: MOSI is set, SCK rises, MISO is sampled while SCK is high, SCK
    falls; SCK idles low (SPI mode 0) and each half period is a 1 us sleep.
    Words are Python ints: only bits 7..0 of the word sent reach MOSI, and
    the word received is built as ReceiveDataWord * 2 + bit. */
module RPiSpi {
  import opened Gpio
  import opened PyInt

  const GPIO_SPI_CE: Pin := 8
  const GPIO_SPI_MOSI: Pin := 10
  const GPIO_SPI_MISO: Pin := 9
  const GPIO_SPI_SCK: Pin := 11

  const SPI_WORD_BITS: nat := 8
  /** SPI_CLOCK_PERIOD, 0.000001 s, in microseconds. */
  const SPI_CLOCK_PERIOD_US: nat := 1

  /** The value of BitMask during iteration n: it starts at 1 << 7 and is
      halved (integer division) after every iteration. */
  function Mask(n: nat): nat
    requires n <= SPI_WORD_BITS
  {
    if n == 0 then Pow2(SPI_WORD_BITS - 1) else Mask(n - 1) / 2
  }

  /** The level driven on MOSI in iteration n for the word w. */
  function MosiLevel(w: int, n: nat): Bit
    requires n < SPI_WORD_BITS
  {
    if And(w, Mask(n)) == 0 then 0 else 1
  }

  /** The pin actions of iteration n of the transfer of w. */
  function BitEvents(w: int, n: nat): seq<Event>
    requires n < SPI_WORD_BITS
  {
    [ Write(GPIO_SPI_MOSI, MosiLevel(w, n)),
      Write(GPIO_SPI_SCK, 1), Sleep(SPI_CLOCK_PERIOD_US),
      Read(GPIO_SPI_MISO),
      Write(GPIO_SPI_SCK, 0), Sleep(SPI_CLOCK_PERIOD_US) ]
  }

  /** The trace t followed by the pin actions of the first k iterations.
      (Threading the trace so far through keeps the verifier from expanding
      the transfer of a constant word in full.) */
  function AfterBits(t: seq<Event>, w: int, k: nat): seq<Event>
    requires k <= SPI_WORD_BITS
  {
    if k == 0 then t else AfterBits(t, w, k - 1) + BitEvents(w, k - 1)
  }

  /** The trace t followed by everything one call of SpiSendReceiveWord(w)
      does to the pins. */
  function AfterWord(t: seq<Event>, w: int): seq<Event>
  {
    AfterBits(t, w, SPI_WORD_BITS)
  }

  /** The pin actions of one transfer of w on their own. */
  function WordEvents(w: int): seq<Event>
  {
    AfterWord([], w)
  }

  /** The number a sequence of bits denotes, most significant first. */
  function BitsValue(bits: seq<Bit>): nat
  {
    if bits == [] then 0 else BitsValue(bits[..|bits| - 1]) * 2 + bits[|bits| - 1]
  }

  /** The accumulator after k iterations of a transfer that starts at
      sample `start`: ReceiveDataWord * 2 + bit. */
  function ReceivedBits(line: Line, start: nat, k: nat): nat
    requires k <= SPI_WORD_BITS
  {
    if k == 0 then 0 else ReceivedBits(line, start, k - 1) * 2 + Sample(line, start + k - 1)
  }

  /** The word received when the transfer starts at sample `start`. */
  function ReceivedWord(line: Line, start: nat): nat
  {
    ReceivedBits(line, start, SPI_WORD_BITS)
  }

  /** RPiSPI.SpiInit: MISO a pulled-up input, CE high, MOSI and SCK low. */
  method SpiInit(io: Board)
    modifies io
    ensures io.mode == old(io.mode)[GPIO_SPI_MISO := In(PullUp)][GPIO_SPI_CE := Out]
                                   [GPIO_SPI_MOSI := Out][GPIO_SPI_SCK := Out]
    ensures io.level == old(io.level)[GPIO_SPI_CE := 1][GPIO_SPI_MOSI := 0][GPIO_SPI_SCK := 0]
    ensures io.trace == old(io.trace) + [ SetupInput(GPIO_SPI_MISO, PullUp), SetupOutput(GPIO_SPI_CE, 1),
                                          SetupOutput(GPIO_SPI_MOSI, 0), SetupOutput(GPIO_SPI_SCK, 0) ]
    ensures io.samples == old(io.samples)
  {
    io.SetupInput(GPIO_SPI_MISO, PullUp);
    io.SetupOutput(GPIO_SPI_CE, 1);
    io.SetupOutput(GPIO_SPI_MOSI, 0);
    io.SetupOutput(GPIO_SPI_SCK, 0);
  }

  /** RPiSPI.SpiSendReceiveWord: shift dataWord out on MOSI and the reply in
      from MISO, MSB first, with eight SCK pulses. */
  method SpiSendReceiveWord(io: Board, dataWord: int) returns (receiveDataWord: nat)
    requires !io.IsOutput(GPIO_SPI_MISO)
    modifies io
    ensures io.trace == AfterWord(old(io.trace), dataWord)
    ensures io.samples == old(io.samples) + SPI_WORD_BITS
    ensures receiveDataWord == ReceivedWord(io.line, old(io.samples))
    ensures io.mode == old(io.mode)
    ensures io.level == old(io.level)[GPIO_SPI_MOSI := MosiLevel(dataWord, SPI_WORD_BITS - 1)][GPIO_SPI_SCK := 0]
  {
    ghost var t0, s0, l0 := io.trace, io.samples, io.level;
    var received: nat := 0;
    var bitMask: nat := Pow2(SPI_WORD_BITS - 1);
    for count := 0 to SPI_WORD_BITS
      invariant bitMask == Mask(count)
      invariant received == ReceivedBits(io.line, s0, count)
      invariant io.trace == AfterBits(t0, dataWord, count)
      invariant io.samples == s0 + count
      invariant io.mode == old(io.mode)
      invariant count == 0 ==> io.level == l0
      invariant count > 0 ==> io.level == l0[GPIO_SPI_MOSI := MosiLevel(dataWord, count - 1)][GPIO_SPI_SCK := 0]
    {
      if count > 0 {
        LevelsOverwrite(l0, MosiLevel(dataWord, count - 1), MosiLevel(dataWord, count));
      }
      var spiReadBit := TransferBit(io, dataWord, count, bitMask);
      bitMask := bitMask / 2;
      received := received * 2 + spiReadBit;
    }
    receiveDataWord := received;
  }

  /** Iteration `count` of the transfer: MOSI set to the masked bit, then one
      SCK pulse. */
  method TransferBit(io: Board, dataWord: int, count: nat, bitMask: nat) returns (spiReadBit: Bit)
    requires count < SPI_WORD_BITS && bitMask == Mask(count)
    requires !io.IsOutput(GPIO_SPI_MISO)
    modifies io
    ensures io.trace == old(io.trace) + BitEvents(dataWord, count)
    ensures io.samples == old(io.samples) + 1 && spiReadBit == Sample(io.line, old(io.samples))
    ensures io.mode == old(io.mode)
    ensures io.level == old(io.level)[GPIO_SPI_MOSI := MosiLevel(dataWord, count)][GPIO_SPI_SCK := 0]
  {
    if And(dataWord, bitMask) == 0 {
      io.Output(GPIO_SPI_MOSI, 0);
    } else {
      io.Output(GPIO_SPI_MOSI, 1);
    }
    spiReadBit := ClockPulse(io);
  }

  /** One SCK pulse: SCK high, a half period, MISO sampled, SCK low, a
      half period. */
  method ClockPulse(io: Board) returns (spiReadBit: Bit)
    requires !io.IsOutput(GPIO_SPI_MISO)
    modifies io
    ensures io.trace == old(io.trace) + [ Write(GPIO_SPI_SCK, 1), Sleep(SPI_CLOCK_PERIOD_US),
                                          Read(GPIO_SPI_MISO),
                                          Write(GPIO_SPI_SCK, 0), Sleep(SPI_CLOCK_PERIOD_US) ]
    ensures io.samples == old(io.samples) + 1 && spiReadBit == Sample(io.line, old(io.samples))
    ensures io.mode == old(io.mode) && io.level == old(io.level)[GPIO_SPI_SCK := 0]
  {
    io.Output(GPIO_SPI_SCK, 1);
    io.Sleep(SPI_CLOCK_PERIOD_US);
    spiReadBit := io.Input(GPIO_SPI_MISO);
    io.Output(GPIO_SPI_SCK, 0);
    io.Sleep(SPI_CLOCK_PERIOD_US);
  }

  /** Driving MOSI and SCK again overrides the previous iteration's levels. */
  lemma LevelsOverwrite(l: map<Pin, Bit>, a: Bit, b: Bit)
    ensures l[GPIO_SPI_MOSI := a][GPIO_SPI_SCK := 0][GPIO_SPI_MOSI := b][GPIO_SPI_SCK := 0]
         == l[GPIO_SPI_MOSI := b][GPIO_SPI_SCK := 0]
  {
  }

  // ---------------------------------------------------------------------
  // Properties of the transfer.

  /** BitMask in iteration n is 1 << (7 - n). */
  lemma {:induction false} MaskIsPow2(n: nat)
    requires n < SPI_WORD_BITS
    ensures Mask(n) == Pow2(SPI_WORD_BITS - 1 - n)
  {
    if n > 0 {
      MaskIsPow2(n - 1);
    }
  }

  /** In iteration n MOSI carries bit 7-n of the word: the word goes out MSB
      first, and bits above bit 7 are never sent. */
  lemma MosiIsMsbFirst(w: int, n: nat)
    requires n < SPI_WORD_BITS
    ensures MosiLevel(w, n) == (w / Pow2(SPI_WORD_BITS - 1 - n)) % 2
  {
    MaskIsPow2(n);
    AndPow2(w, SPI_WORD_BITS - 1 - n);
  }

  /** The levels put on MOSI in the first k iterations. */
  function MosiBits(w: int, k: nat): (bits: seq<Bit>)
    requires k <= SPI_WORD_BITS
    ensures |bits| == k
  {
    if k == 0 then [] else MosiBits(w, k - 1) + [MosiLevel(w, k - 1)]
  }

  /** Event j of iteration n is event 6n+j of the pin trace. */
  lemma {:induction false} BitsEventsAt(w: int, k: nat, n: nat, j: nat)
    requires n < k <= SPI_WORD_BITS && j < 6
    ensures |AfterBits([], w, k)| == 6 * k
    ensures AfterBits([], w, k)[6 * n + j] == BitEvents(w, n)[j]
  {
    BitsEventsLength(w, k - 1);
    if n < k - 1 {
      BitsEventsAt(w, k - 1, n, j);
    }
  }

  /** The events of the first k iterations are appended to the trace so far. */
  lemma {:induction false} AfterBitsAppends(t: seq<Event>, w: int, k: nat)
    requires k <= SPI_WORD_BITS
    ensures AfterBits(t, w, k) == t + AfterBits([], w, k)
  {
    if k > 0 {
      AfterBitsAppends(t, w, k - 1);
    }
  }

  /** A call of SpiSendReceiveWord(w) appends WordEvents(w) to the trace. */
  lemma AfterWordAppends(t: seq<Event>, w: int)
    ensures AfterWord(t, w) == t + WordEvents(w)
  {
    AfterBitsAppends(t, w, SPI_WORD_BITS);
  }

  lemma {:induction false} BitsEventsLength(w: int, k: nat)
    requires k <= SPI_WORD_BITS
    ensures |AfterBits([], w, k)| == 6 * k
  {
    if k > 0 {
      BitsEventsLength(w, k - 1);
    }
  }

  /** A transfer is 48 pin actions, six per bit: in iteration n SCK rises
      at 6n+1, MISO is read at 6n+3 and SCK falls at 6n+4, so there are
      exactly eight clock pulses with one sample each. */
  lemma WordEventsClock(w: int, n: nat)
    requires n < SPI_WORD_BITS
    ensures |WordEvents(w)| == 48
    ensures WordEvents(w)[6 * n + 1] == Write(GPIO_SPI_SCK, 1)
    ensures WordEvents(w)[6 * n + 3] == Read(GPIO_SPI_MISO)
    ensures WordEvents(w)[6 * n + 4] == Write(GPIO_SPI_SCK, 0)
  {
    BitsEventsAt(w, SPI_WORD_BITS, n, 1);
    BitsEventsAt(w, SPI_WORD_BITS, n, 3);
    BitsEventsAt(w, SPI_WORD_BITS, n, 4);
  }

  /** In iteration n, before the clock rises, MOSI is driven to the n-th
      level of MosiBits. */
  lemma WordEventsMosi(w: int, n: nat)
    requires n < SPI_WORD_BITS
    ensures |WordEvents(w)| == 48
    ensures WordEvents(w)[6 * n] == Write(GPIO_SPI_MOSI, MosiBits(w, SPI_WORD_BITS)[n])
  {
    BitsEventsAt(w, SPI_WORD_BITS, n, 0);
    MosiBitsAt(w, SPI_WORD_BITS, n);
  }

  lemma {:induction false} MosiBitsAt(w: int, k: nat, n: nat)
    requires n < k <= SPI_WORD_BITS
    ensures MosiBits(w, k)[n] == MosiLevel(w, n)
  {
    if n < k - 1 {
      MosiBitsAt(w, k - 1, n);
    }
  }

  /** The first k levels on MOSI denote bits 7..8-k of w. */
  lemma {:induction false} MosiBitsValue(w: int, k: nat)
    requires k <= SPI_WORD_BITS
    ensures BitsValue(MosiBits(w, k)) == (w / Pow2(SPI_WORD_BITS - k)) % Pow2(k)
  {
    if k > 0 {
      MosiBitsValue(w, k - 1);
      assert MosiBits(w, k)[..k - 1] == MosiBits(w, k - 1);
      MosiIsMsbFirst(w, k - 1);
      var q := w / Pow2(SPI_WORD_BITS - k);
      DivHalf(w, SPI_WORD_BITS - k);
      ModDouble(q, k - 1);
    }
  }

  /** A device that samples MOSI on each rising SCK edge and collects the
      bits MSB first receives the word sent, reduced to its low eight bits. */
  lemma MosiRoundTrip(w: int)
    ensures BitsValue(MosiBits(w, SPI_WORD_BITS)) == w % 256
  {
    MosiBitsValue(w, SPI_WORD_BITS);
    assert Pow2(SPI_WORD_BITS) == 256;
  }

  /** After k iterations the accumulator holds a k-bit number. */
  lemma {:induction false} ReceivedBitsBound(line: Line, start: nat, k: nat)
    requires k <= SPI_WORD_BITS
    ensures ReceivedBits(line, start, k) < Pow2(k)
  {
    if k > 0 {
      ReceivedBitsBound(line, start, k - 1);
    }
  }

  /** The received word is always a byte. */
  lemma ReceivedWordIsByte(line: Line, start: nat)
    ensures ReceivedWord(line, start) < 256
  {
    ReceivedBitsBound(line, start, SPI_WORD_BITS);
    assert Pow2(SPI_WORD_BITS) == 256;
  }

  /** Bit k-1-i of the accumulator after k iterations is the i-th sample. */
  lemma {:induction false} ReceivedBitsBit(line: Line, start: nat, k: nat, i: nat)
    requires i < k <= SPI_WORD_BITS
    ensures (ReceivedBits(line, start, k) / Pow2(k - 1 - i)) % 2 == Sample(line, start + i)
  {
    var x, b := ReceivedBits(line, start, k - 1), Sample(line, start + k - 1);
    if i < k - 1 {
      ShiftInBit(ReceivedBits(line, start, k), x, b, k - 2 - i);
      ReceivedBitsBit(line, start, k - 1, i);
      assert k - 1 - i == (k - 2 - i) + 1;
    } else {
      ShiftInBit(ReceivedBits(line, start, k), x, b, 0);
    }
  }

  /** The reply is read MSB first: bit 7-i of the received word is the level
      MISO had at the i-th rising SCK edge of the transfer. */
  lemma ReceivedIsMsbFirst(line: Line, start: nat, i: nat)
    requires i < SPI_WORD_BITS
    ensures (ReceivedWord(line, start) / Pow2(SPI_WORD_BITS - 1 - i)) % 2 == Sample(line, start + i)
  {
    ReceivedBitsBit(line, start, SPI_WORD_BITS, i);
  }
}
