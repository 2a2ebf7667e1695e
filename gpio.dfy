/** A model of what the programs use of the RPi.GPIO library (and of
    time.sleep): pins set up as inputs or outputs, the level each output pin
    is driven to, and the ordered trace of every setup, write, read and delay
    the program performs.  Whatever the Pi reads on a pin that is not an
    output (in this program only MISO) comes from `line`, an oracle indexed by
    the number of such reads made so far. */
module Gpio {

  /** A Broadcom (BCM) GPIO number. */
  type Pin = int

  /** A logic level: 0 is low, 1 is high. */
  type Bit = b: int | 0 <= b <= 1

  datatype Pull = PullUp | PullOff

  datatype Mode = Out | In(pull: Pull)

  /** One observable action on the pins or the clock. */
  datatype Event =
    | SetupOutput(pin: Pin, initial: Bit)
    | SetupInput(pin: Pin, pull: Pull)
    | Write(pin: Pin, level: Bit)
    | Read(pin: Pin)
    | Sleep(micros: nat)

  /** The level of `pin` in a level map; a pin never driven reads as low. */
  function LevelIn(level: map<Pin, Bit>, pin: Pin): Bit
  {
    if pin in level then level[pin] else 0
  }

  /** The levels an input line takes, by sample number; a sample the map
      does not cover reads low. */
  type Line = imap<nat, Bit>

  function Sample(line: Line, n: nat): Bit
  {
    if n in line then line[n] else 0
  }

  /** The Raspberry Pi's GPIO header as the program sees it. */
  class Board {
    var mode: map<Pin, Mode>
    var level: map<Pin, Bit>
    var trace: seq<Event>
    /** The level of the input line at its n-th sample. */
    const line: Line
    var samples: nat

    constructor (line: Line)
      ensures mode == map[] && level == map[] && trace == []
      ensures this.line == line && samples == 0
    {
      this.line := line;
      mode, level, trace, samples := map[], map[], [], 0;
    }

    function LevelOf(pin: Pin): Bit
      reads this
    {
      LevelIn(level, pin)
    }

    predicate IsOutput(pin: Pin)
      reads this
    {
      pin in mode && mode[pin] == Out
    }

    /** RPi.GPIO.setup(pin, OUT, initial=v) */
    method SetupOutput(pin: Pin, initial: Bit)
      modifies this
      ensures mode == old(mode)[pin := Out] && level == old(level)[pin := initial]
      ensures trace == old(trace) + [Event.SetupOutput(pin, initial)] && samples == old(samples)
    {
      mode := mode[pin := Out];
      level := level[pin := initial];
      trace := trace + [Event.SetupOutput(pin, initial)];
    }

    /** RPi.GPIO.setup(pin, IN, pull_up_down=pull) */
    method SetupInput(pin: Pin, pull: Pull)
      modifies this
      ensures mode == old(mode)[pin := In(pull)] && level == old(level)
      ensures trace == old(trace) + [Event.SetupInput(pin, pull)] && samples == old(samples)
    {
      mode := mode[pin := In(pull)];
      trace := trace + [Event.SetupInput(pin, pull)];
    }

    /** RPi.GPIO.output(pin, v) */
    method Output(pin: Pin, v: Bit)
      modifies this
      ensures mode == old(mode) && level == old(level)[pin := v]
      ensures trace == old(trace) + [Write(pin, v)] && samples == old(samples)
    {
      level := level[pin := v];
      trace := trace + [Write(pin, v)];
    }

    /** RPi.GPIO.input(pin): an output pin reads back the level it is
        driven to; any other pin takes the next sample of the input line. */
    method Input(pin: Pin) returns (v: Bit)
      modifies this
      ensures mode == old(mode) && level == old(level) && trace == old(trace) + [Read(pin)]
      ensures old(IsOutput(pin)) ==> v == old(LevelOf(pin)) && samples == old(samples)
      ensures !old(IsOutput(pin)) ==> v == Sample(line, old(samples)) && samples == old(samples) + 1
    {
      if IsOutput(pin) {
        v := LevelOf(pin);
      } else {
        v := Sample(line, samples);
        samples := samples + 1;
      }
      trace := trace + [Read(pin)];
    }

    /** time.sleep(micros / 1000000) */
    method Sleep(micros: nat)
      modifies this
      ensures mode == old(mode) && level == old(level) && samples == old(samples)
      ensures trace == old(trace) + [Event.Sleep(micros)]
    {
      trace := trace + [Event.Sleep(micros)];
    }
  }
}
