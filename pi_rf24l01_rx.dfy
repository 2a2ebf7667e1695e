/** The receiver program (PiRF24L01_Rx.py): the radio interrupt callback
    fetches each packet the transmitter sends, converts it to a line of a
    comma-separated log (speed in miles per hour, latitude and longitude in
    signed decimal degrees) and appends the line when the packet's fields
    are all present; the main loop lights red when nothing has arrived for
    ten seconds. */
module PiRF24L01Rx {
  import opened Gpio
  import opened RPiSpi
  import opened PyText
  import opened RPiRF24L01
  import opened RadioCallback
  import opened PiRF24L01Tx

  /** The silence after which the main loop lights red: ten seconds. */
  const RECEIVE_TIMEOUT_US: nat := 10000000

  // ---------------------------------------------------------------------
  // WriteLogLine: the log line built from a received line.

  /** A piece of a log line.  Floating-point arithmetic and its formatting
      are not computed: a Speed piece stands for "{:3.2f}MPH," of
      float(knots) * 1.15078, a Minutes piece for
      "{:5.5f}".format(float(minutes) / 60) followed by `end`, stripped of
      leading '0's. */
  datatype Piece = Text(text: string) | Speed(knots: string) | Minutes(minutes: string, end: string)

  /** The log line built so far (LogData) and whether it is still worth
      writing (ValidData). */
  datatype LogData = LogData(valid: bool, pieces: seq<Piece>)

  /** strip() leaves nothing; by StripEmptyIffBlank, every character is
      white space. */
  predicate Blank(field: string)
  {
    Strip(field) == []
  }

  /** A hemisphere field: "-" for the negative one, nothing for the
      positive one, anything else invalidates the line. */
  function SignStep(d: LogData, field: string, negative: string, positive: string): LogData
  {
    if field == negative then d.(pieces := d.pieces + [Text("-")])
    else if field != positive then d.(valid := false)
    else d
  }

  /** A degrees field, copied as it is unless blank. */
  function DegreesStep(d: LogData, field: string): LogData
  {
    if Blank(field) then d.(valid := false) else d.(pieces := d.pieces + [Text(field)])
  }

  /** A minutes field: blank invalidates the line, otherwise float() of it
      must succeed. */
  function MinutesStep(d: LogData, field: string, end: string): Outcome<LogData>
  {
    if Blank(field) then Ok(d.(valid := false))
    else if !IsFloatText(field) then ValueError
    else Ok(d.(pieces := d.pieces + [Minutes(field, end)]))
  }

  /** The number of fields WriteLogLine reads. */
  const LOG_FIELD_COUNT: nat := 7

  /** Field k of WriteLogLine: the speed at [0:7], then latitude
      hemisphere [7:8], degrees [8:10] and minutes [10:18], then longitude
      hemisphere [18:19], degrees [19:22] and minutes [22:30]. */
  function FieldStep(logLine: string, k: nat, d: LogData): Outcome<LogData>
    requires k < LOG_FIELD_COUNT
  {
    match k
    case 0 =>
      var knots := Slice(logLine, 0, 7);
      if IsFloatText(knots) then Ok(d.(pieces := d.pieces + [Speed(knots)])) else ValueError
    case 1 => Ok(SignStep(d, Slice(logLine, 7, 8), "S", "N"))
    case 2 => Ok(DegreesStep(d, Slice(logLine, 8, 10)))
    case 3 => MinutesStep(d, Slice(logLine, 10, 18), ",")
    case 4 => Ok(SignStep(d, Slice(logLine, 18, 19), "W", "E"))
    case 5 => Ok(DegreesStep(d, Slice(logLine, 19, 22)))
    case _ => MinutesStep(d, Slice(logLine, 22, 30), "\n")
  }

  /** Fields k onwards, in order; a ValueError ends the conversion. */
  function Convert(logLine: string, k: nat, d: LogData): Outcome<LogData>
    requires k <= LOG_FIELD_COUNT
    decreases LOG_FIELD_COUNT - k, 1
  {
    if k == LOG_FIELD_COUNT then Ok(d) else Apply(logLine, k, d)
  }

  /** Field k, then the fields after it when field k converted. */
  function Apply(logLine: string, k: nat, d: LogData): Outcome<LogData>
    requires k < LOG_FIELD_COUNT
    decreases LOG_FIELD_COUNT - k, 0
  {
    var r := FieldStep(logLine, k, d);
    if r.Ok? then Convert(logLine, k + 1, r.value) else ValueError
  }

  /** WriteLogLine(logLine) up to the file write. */
  function LogEntry(logLine: string): Outcome<LogData>
  {
    Convert(logLine, 0, LogData(true, []))
  }

  /** The "-" a hemisphere field adds. */
  function Sign(field: string, negative: string): seq<Piece>
  {
    if field == negative then [Text("-")] else []
  }

  /** A hemisphere, degrees and minutes group: it raises exactly when its
      minutes are not blank and float() rejects them; it keeps the line
      valid exactly when the hemisphere is one of its two letters and
      neither degrees nor minutes are blank, and adds sign, degrees and
      minutes. */
  lemma CoordinateOutcome(d: LogData, hemisphere: string, negative: string, positive: string,
                          degrees: string, minutes: string, end: string)
    requires negative != positive
    ensures var r := MinutesStep(DegreesStep(SignStep(d, hemisphere, negative, positive), degrees), minutes, end);
      !r.IndexError?
      && (r.ValueError? <==> !Blank(minutes) && !IsFloatText(minutes))
      && (r.Ok? ==> (r.value.valid <==> d.valid && (hemisphere == negative || hemisphere == positive)
                                         && !Blank(degrees) && !Blank(minutes)))
      && (r.Ok? && r.value.valid ==>
            r.value.pieces == d.pieces + Sign(hemisphere, negative) + [Text(degrees), Minutes(minutes, end)])
  {
  }

  /** WriteLogLine raises ValueError exactly when float() rejects the
      speed field, or a minutes field that is not blank; slicing never
      raises.  The line is valid exactly when both hemisphere fields are
      one of their two letters and no degrees or minutes field is blank,
      and then it reads speed, sign, degrees, minutes, sign, degrees,
      minutes. */
  lemma LogEntryOutcome(logLine: string)
    ensures var knots, ns, latDegrees, latMinutes, ew, longDegrees, longMinutes :=
              Slice(logLine, 0, 7), Slice(logLine, 7, 8), Slice(logLine, 8, 10), Slice(logLine, 10, 18),
              Slice(logLine, 18, 19), Slice(logLine, 19, 22), Slice(logLine, 22, 30);
      var entry := LogEntry(logLine);
      !entry.IndexError?
      && (entry.ValueError? <==>
            !IsFloatText(knots) || (!Blank(latMinutes) && !IsFloatText(latMinutes))
            || (!Blank(longMinutes) && !IsFloatText(longMinutes)))
      && (entry.Ok? ==>
            (entry.value.valid <==>
               (ns == "N" || ns == "S") && (ew == "E" || ew == "W")
               && !Blank(latDegrees) && !Blank(latMinutes) && !Blank(longDegrees) && !Blank(longMinutes)))
      && (entry.Ok? && entry.value.valid ==>
            entry.value.pieces == [Speed(knots)] + Sign(ns, "S") + [Text(latDegrees), Minutes(latMinutes, ",")]
                                  + Sign(ew, "W") + [Text(longDegrees), Minutes(longMinutes, "\n")])
  {
    var knots, ns, latDegrees, latMinutes, ew, longDegrees, longMinutes :=
      Slice(logLine, 0, 7), Slice(logLine, 7, 8), Slice(logLine, 8, 10), Slice(logLine, 10, 18),
      Slice(logLine, 18, 19), Slice(logLine, 19, 22), Slice(logLine, 22, 30);
    var d0 := LogData(true, []);
    if IsFloatText(knots) {
      var d1 := d0.(pieces := d0.pieces + [Speed(knots)]);
      assert d1.pieces == [Speed(knots)];
      assert Convert(logLine, 0, d0) == Apply(logLine, 0, d0);
      assert Apply(logLine, 0, d0) == Convert(logLine, 1, d1);
      LatitudeFields(logLine, d1);
      CoordinateOutcome(d1, ns, "S", "N", latDegrees, latMinutes, ",");
      var latitude := MinutesStep(DegreesStep(SignStep(d1, ns, "S", "N"), latDegrees), latMinutes, ",");
      if latitude.Ok? {
        LongitudeFields(logLine, latitude.value);
        CoordinateOutcome(latitude.value, ew, "W", "E", longDegrees, longMinutes, "\n");
      }
    } else {
      assert Convert(logLine, 0, d0) == Apply(logLine, 0, d0);
      assert Apply(logLine, 0, d0) == ValueError;
    }
  }

  /** Fields 1 to 3: the latitude's hemisphere, degrees and minutes. */
  lemma LatitudeFields(logLine: string, d: LogData)
    ensures var r := MinutesStep(DegreesStep(SignStep(d, Slice(logLine, 7, 8), "S", "N"), Slice(logLine, 8, 10)),
                                 Slice(logLine, 10, 18), ",");
      Convert(logLine, 1, d) == if r.Ok? then Convert(logLine, 4, r.value) else ValueError
  {
    var d2 := SignStep(d, Slice(logLine, 7, 8), "S", "N");
    assert Convert(logLine, 1, d) == Apply(logLine, 1, d);
    assert Apply(logLine, 1, d) == Convert(logLine, 2, d2);
    var d3 := DegreesStep(d2, Slice(logLine, 8, 10));
    assert Convert(logLine, 2, d2) == Apply(logLine, 2, d2);
    assert Apply(logLine, 2, d2) == Convert(logLine, 3, d3);
  }

  /** Fields 4 to 6: the longitude's hemisphere, degrees and minutes. */
  lemma LongitudeFields(logLine: string, d: LogData)
    ensures Convert(logLine, 4, d)
            == MinutesStep(DegreesStep(SignStep(d, Slice(logLine, 18, 19), "W", "E"), Slice(logLine, 19, 22)),
                           Slice(logLine, 22, 30), "\n")
  {
    var d5 := SignStep(d, Slice(logLine, 18, 19), "W", "E");
    assert Convert(logLine, 4, d) == Apply(logLine, 4, d);
    assert Apply(logLine, 4, d) == Convert(logLine, 5, d5);
    var d6 := DegreesStep(d5, Slice(logLine, 19, 22));
    assert Convert(logLine, 5, d5) == Apply(logLine, 5, d5);
    assert Apply(logLine, 5, d5) == Convert(logLine, 6, d6);
    var r := MinutesStep(d6, Slice(logLine, 22, 30), "\n");
    if r.Ok? {
      assert Convert(logLine, 6, d6) == Apply(logLine, 6, d6);
      assert Apply(logLine, 6, d6) == Convert(logLine, 7, r.value);
    }
  }

  // ---------------------------------------------------------------------
  // The packet round trip.

  /** "".join(chr(c) for c in codes) + "\n", the line the callback builds
      from the codes of a packet, one character per code. */
  function LogLine(codes: seq<int>): (s: string)
    requires forall k :: 0 <= k < |codes| ==> 0 <= codes[k] < 256
    ensures |s| == |codes| + 1
  {
    if codes == [] then "\n" else [codes[0] as char] + LogLine(codes[1..])
  }

  /** Each character of the line is the code at its place, and the line
      ends in its newline. */
  lemma {:induction false} LogLineChars(codes: seq<int>)
    requires forall k :: 0 <= k < |codes| ==> 0 <= codes[k] < 256
    ensures var s := LogLine(codes);
      s[|codes|] == '\n' && forall k :: 0 <= k < |codes| ==> s[k] as int == codes[k]
  {
    if codes != [] {
      LogLineChars(codes[1..]);
      var s := LogLine(codes);
      assert s == [codes[0] as char] + LogLine(codes[1..]);
      forall k | 0 <= k < |codes|
        ensures s[k] as int == codes[k]
      {
        if k > 0 {
          assert s[k] == LogLine(codes[1..])[k - 1];
        }
      }
    }
  }

  /** chr() undoes ord() on the characters a packet holds: the line built
      from a received copy of a packet is the packet and its newline. */
  lemma LogLineOrds(data: string)
    requires forall k :: 0 <= k < |data| ==> data[k] as int < 256
    ensures LogLine(Ords(data)) == data + "\n"
  {
    LogLineChars(Ords(data));
  }

  /** The receiver's fields of a transmitted packet whose latitude and
      longitude fill their widths: the packet's own speed and hemisphere
      fields, the latitude split after its two degree digits and the
      longitude after its three. */
  lemma PacketSlices(speed: string, ns: string, lat: string, ew: string, long: string)
    requires |speed| <= 7 && |lat| == 10 && |long| == 11
    ensures var line := PacketText(speed, ns, lat, ew, long) + "\n";
      Slice(line, 0, 7) == RJust(speed, 7) && Slice(line, 7, 8) == Fmt1(ns)
      && Slice(line, 8, 10) == lat[..2] && Slice(line, 10, 18) == lat[2..]
      && Slice(line, 18, 19) == Fmt1(ew)
      && Slice(line, 19, 22) == long[..3] && Slice(line, 22, 30) == long[3..]
  {
    PacketFields(speed, ns, lat, ew, long);
    assert RJust(lat, 10) == lat && RJust(long, 11) == long;
    LineFields(PacketText(speed, ns, lat, ew, long), "\n", lat, long);
  }

  /** The receiver's slices of a 30-character line followed by anything. */
  lemma LineFields(p: string, q: string, lat: string, long: string)
    requires |p| == 30 && p[8..18] == lat && p[19..30] == long
    ensures var line := p + q;
      Slice(line, 0, 7) == p[0..7] && Slice(line, 7, 8) == p[7..8]
      && Slice(line, 8, 10) == lat[..2] && Slice(line, 10, 18) == lat[2..]
      && Slice(line, 18, 19) == p[18..19]
      && Slice(line, 19, 22) == long[..3] && Slice(line, 22, 30) == long[3..]
  {
    var line := p + q;
    assert line[..30] == p;
    assert line[8..10] == p[8..18][..2] && line[10..18] == p[8..18][2..];
    assert line[19..22] == p[19..30][..3] && line[22..30] == p[19..30][3..];
  }

  /** A packet built from a fix whose speed is a number of at most 7
      characters, whose hemispheres are single letters, whose latitude and
      longitude fill their 10 and 11 characters with non-blank degrees and
      numeric minutes is logged, and its log line carries exactly those
      fields: speed, "-" for S, latitude degrees and minutes, "-" for W,
      longitude degrees and minutes. */
  lemma PacketLogged(speed: string, ns: string, lat: string, ew: string, long: string)
    requires |speed| <= 7 && |lat| == 10 && |long| == 11
    requires IsFloatText(speed) && IsFloatText(lat[2..]) && IsFloatText(long[3..])
    requires !Blank(lat[..2]) && !Blank(long[..3])
    requires (ns == "N" || ns == "S") && (ew == "E" || ew == "W")
    ensures LogEntry(PacketText(speed, ns, lat, ew, long) + "\n")
            == Ok(LogData(true, [Speed(RJust(speed, 7))] + Sign(ns, "S") + [Text(lat[..2]), Minutes(lat[2..], ",")]
                                + Sign(ew, "W") + [Text(long[..3]), Minutes(long[3..], "\n")]))
  {
    PacketSlices(speed, ns, lat, ew, long);
    RJustFloat(speed, 7);
    FloatNotBlank(lat[2..]);
    FloatNotBlank(long[3..]);
    assert Fmt1(ns) == ns && Fmt1(ew) == ew;
    LogEntryOutcome(PacketText(speed, ns, lat, ew, long) + "\n");
  }

  /** End to end: the character codes the transmitter sends for such a
      fix, turned back into a line by the receiver, log exactly the fix's
      fields. */
  lemma SentPacketLogged(speed: string, ns: string, lat: string, ew: string, long: string)
    requires |speed| <= 7 && |lat| == 10 && |long| == 11
    requires IsFloatText(speed) && IsFloatText(lat[2..]) && IsFloatText(long[3..])
    requires !Blank(lat[..2]) && !Blank(long[..3])
    requires (ns == "N" || ns == "S") && (ew == "E" || ew == "W")
    requires var p := PacketText(speed, ns, lat, ew, long); forall k :: 0 <= k < |p| ==> p[k] as int < 256
    ensures var codes := Ords(PacketText(speed, ns, lat, ew, long));
      LogLine(codes) == PacketText(speed, ns, lat, ew, long) + "\n"
      && LogEntry(LogLine(codes))
         == Ok(LogData(true, [Speed(RJust(speed, 7))] + Sign(ns, "S") + [Text(lat[..2]), Minutes(lat[2..], ",")]
                             + Sign(ew, "W") + [Text(long[..3]), Minutes(long[3..], "\n")]))
  {
    LogLineOrds(PacketText(speed, ns, lat, ew, long));
    PacketLogged(speed, ns, lat, ew, long);
  }

  // ---------------------------------------------------------------------
  // The interrupt callback and the main loop.

  /** The line the callback passes to WriteLogLine for the packet GetData
      fetches from sample s on. */
  function RxLogLine(line: Line, s: nat): string
  {
    ReceivedPacketBytes(line, s);
    LogLine(ReceivedPacket(line, s))
  }

  /** What WriteLogLine makes of the packet GetData fetches from sample s
      on. */
  function PacketEntry(line: Line, s: nat): Outcome<LogData>
  {
    LogEntry(RxLogLine(line, s))
  }

  /** The lines WriteLogLine appends to the log: one, for an entry that is
      converted and valid. */
  function Written(entry: Outcome<LogData>): seq<seq<Piece>>
  {
    if entry.Ok? && entry.value.valid then [entry.value.pieces] else []
  }

  /** The RX_DR branch from sample s on, for the entry it converts: green,
      GetData, then ConfigureRx unless WriteLogLine raised. */
  function ReceivedTrace(t: seq<Event>, line: Line, s: nat, converted: bool): seq<Event>
  {
    var received := ReceiveTrace(t, ReceivedWord(line, s), ReceivedWord(line, s + 24));
    if converted then RearmTrace(received) else received
  }

  function ReceivedSamples(line: Line, s: nat, converted: bool): nat
  {
    var received := ReceiveSamples(s, ReceivedWord(line, s), ReceivedWord(line, s + 24));
    if converted then RearmSamples(received) else received
  }

  /** The callback after its TX_DS test, from sample s on, for the flags
      it read: the RX_DR branch when that flag is set, nothing otherwise. */
  function FlagsTrace(t: seq<Event>, line: Line, s: nat, intFlags: nat): seq<Event>
  {
    if IsSet(intFlags, RF24L01_STATUS_RX_DR) then ReceivedTrace(t, line, s, PacketEntry(line, s).Ok?) else t
  }

  function FlagsSamples(line: Line, s: nat, intFlags: nat): nat
  {
    if IsSet(intFlags, RF24L01_STATUS_RX_DR) then ReceivedSamples(line, s, PacketEntry(line, s).Ok?) else s
  }

  function FlagsLog(line: Line, s: nat, intFlags: nat): seq<seq<Piece>>
  {
    if IsSet(intFlags, RF24L01_STATUS_RX_DR) then Written(PacketEntry(line, s)) else []
  }

  predicate FlagsRaise(line: Line, s: nat, intFlags: nat)
  {
    IsSet(intFlags, RF24L01_STATUS_RX_DR) && !PacketEntry(line, s).Ok?
  }

  /** The receiver's globals RF24L01_ErrorFlag and RF24L01_ReceiveTime, and
      the log file's lines.  Times are microseconds on the caller's clock. */
  class Receiver {
    var errorFlag: bool
    var receiveTime: nat
    var log: seq<seq<Piece>>

    /** The values when the program starts at time `now`. */
    constructor (now: nat)
      ensures !errorFlag && receiveTime == now && log == []
    {
      errorFlag, receiveTime, log := false, now, [];
    }

    /** PiRF24L01_Rx.RF24L01_Interupt_Callback, called at time `now`.
        Returns whether WriteLogLine raised ValueError, which ends the
        callback before ConfigureRx. */
    method Callback(io: Board, now: nat) returns (raised: bool)
      requires !io.IsOutput(GPIO_SPI_MISO) && io.IsOutput(GPIO_LED_GREEN)
      modifies this, io
      ensures var intFlags := ReceivedWord(io.line, old(io.samples));
              errorFlag == ErrorFlagAfter(old(errorFlag), intFlags)
              && receiveTime == (if IsSet(intFlags, RF24L01_STATUS_RX_DR) then now else old(receiveTime))
              && OffBus(io.level) == LedsAfter(OffBus(old(io.level)), intFlags)
      ensures var intFlags := ReceivedWord(io.line, old(io.samples));
              var s1 := LatchedSamples(old(io.samples), intFlags);
              raised == FlagsRaise(io.line, s1, intFlags)
              && log == old(log) + FlagsLog(io.line, s1, intFlags)
              && io.trace == FlagsTrace(LatchedTrace(old(io.trace), intFlags, old(io.LevelOf(GPIO_LED_GREEN))), io.line, s1, intFlags)
              && io.samples == FlagsSamples(io.line, s1, intFlags)
      ensures io.mode == old(io.mode)
    {
      ghost var t0, s0, l0, e0, green := io.trace, io.samples, OffBus(io.level), errorFlag, io.LevelOf(GPIO_LED_GREEN);
      var intFlags, newErrorFlag := HandleLatched(io, errorFlag);
      errorFlag := newErrorFlag;
      raised := OnFlags(io, now, intFlags, t0, s0, l0, e0, green);
    }

    /** The callback after its TX_DS test, for the flags it read from
        sample s0 on, with the trace t0, the levels l0 off the bus, the
        error flag e0 and the green level the callback started from. */
    method OnFlags(io: Board, now: nat, intFlags: nat,
                   ghost t0: seq<Event>, ghost s0: nat, ghost l0: map<Pin, Bit>, ghost e0: bool, ghost green: Bit)
        returns (raised: bool)
      requires !io.IsOutput(GPIO_SPI_MISO)
      requires intFlags == ReceivedWord(io.line, s0) && errorFlag == LatchedErrorFlag(e0, intFlags)
      requires io.trace == LatchedTrace(t0, intFlags, green) && io.samples == LatchedSamples(s0, intFlags)
      requires OffBus(io.level) == LatchedLeds(l0, intFlags)
      modifies this, io
      ensures errorFlag == ErrorFlagAfter(e0, intFlags)
              && receiveTime == (if IsSet(intFlags, RF24L01_STATUS_RX_DR) then now else old(receiveTime))
              && OffBus(io.level) == LedsAfter(l0, intFlags)
      ensures var s1 := LatchedSamples(s0, intFlags);
              raised == FlagsRaise(io.line, s1, intFlags)
              && log == old(log) + FlagsLog(io.line, s1, intFlags)
              && io.trace == FlagsTrace(LatchedTrace(t0, intFlags, green), io.line, s1, intFlags)
              && io.samples == FlagsSamples(io.line, s1, intFlags)
      ensures io.mode == old(io.mode)
    {
      raised := false;
      if IsSet(intFlags, RF24L01_STATUS_RX_DR) {
        raised := OnReceived(io, now);
      } else {
        assert log == old(log) + [];
      }
    }

    /** The RX_DR branch: error flag cleared, time recorded, green lit, the
        packet fetched and passed to WriteLogLine, then, unless that
        raised, the receiver re-armed. */
    method OnReceived(io: Board, now: nat) returns (raised: bool)
      requires !io.IsOutput(GPIO_SPI_MISO)
      modifies this, io
      ensures var entry := PacketEntry(io.line, old(io.samples));
              raised == !entry.Ok? && log == old(log) + Written(entry)
              && io.trace == ReceivedTrace(old(io.trace), io.line, old(io.samples), !raised)
              && io.samples == ReceivedSamples(io.line, old(io.samples), !raised)
      ensures !errorFlag && receiveTime == now
      ensures io.mode == old(io.mode) && OffBus(io.level) == GreenLeds(OffBus(old(io.level)))
    {
      errorFlag := false;
      receiveTime := now;
      ghost var s0 := io.samples;
      var response := ReceivePacket(io);
      ReceivedPacketBytes(io.line, s0);
      var logLine := LogLine(response);
      raised := WriteLogLine(logLine);
      if !raised {
        Rearm(io);
      }
    }

    /** PiRF24L01_Rx.WriteLogLine: the line converted, appended to the log
        when valid; returns whether the conversion raised ValueError. */
    method WriteLogLine(logLine: string) returns (raised: bool)
      modifies this
      ensures raised == !LogEntry(logLine).Ok? && log == old(log) + Written(LogEntry(logLine))
      ensures errorFlag == old(errorFlag) && receiveTime == old(receiveTime)
    {
      var entry := LogEntry(logLine);
      raised := !entry.Ok?;
      if !raised && entry.value.valid {
        log := log + [entry.value.pieces];
        assert Written(entry) == [entry.value.pieces];
      } else {
        assert Written(entry) == [];
        assert log == old(log) + [];
      }
    }

    /** One iteration of the main loop, with the clock reading `now` after
        its one-second sleep: red on and green off when nothing has been
        received for ten seconds. */
    method Watch(io: Board, now: nat)
      modifies io
      ensures var stale := receiveTime + RECEIVE_TIMEOUT_US < now;
              io.trace == (if stale then RedTrace(old(io.trace) + [Sleep(ONE_SECOND_US)]) else old(io.trace) + [Sleep(ONE_SECOND_US)])
              && OffBus(io.level) == (if stale then RedLeds(OffBus(old(io.level))) else OffBus(old(io.level)))
      ensures io.samples == old(io.samples) && io.mode == old(io.mode)
    {
      io.Sleep(ONE_SECOND_US);
      if receiveTime + RECEIVE_TIMEOUT_US < now {
        ShowRed(io);
      }
    }
  }
}
