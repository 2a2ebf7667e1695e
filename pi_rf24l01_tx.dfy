/** The transmitter program (PiRF24L01_Tx.py): once a second it reads the
    GPS, and when it holds a valid fix it sends speed and position to the
    receiver as a 30-character packet.  The radio interrupt callback keeps
    an error flag that decides whether the held fix is re-acquired or
    resent, and drives a red and a green LED. */
module PiRF24L01Tx {
  import opened Gpio
  import opened RPiSpi
  import opened PyText
  import opened RPiRF24L01
  import opened GpsNeo6
  import opened RadioCallback

  // ---------------------------------------------------------------------
  // The data packet.

  /** The packet for the texts of the five slots it uses: speed
      right-justified in 7, the first character of N/S, latitude
      right-justified in 10, the first character of E/W, longitude
      right-justified in 11. */
  function PacketText(speed: string, ns: string, lat: string, ew: string, long: string): string
  {
    RJust(speed, 7) + Fmt1(ns) + RJust(lat, 10) + Fmt1(ew) + RJust(long, 11)
  }

  /** The packet built from a fix.  A slot still holding the integer 0
      cannot be formatted with "s" and raises ValueError. */
  function Packet(fix: seq<Slot>): (r: Outcome<string>)
    requires |fix| == GPS_STRUCT_ELEMENT_COUNT
  {
    var speed, ns, lat, ew, long := fix[GPS_STRUCT_SPEED], fix[GPS_STRUCT_N_S], fix[GPS_STRUCT_LAT],
                                    fix[GPS_STRUCT_E_W], fix[GPS_STRUCT_LONG];
    if speed.Zero? || ns.Zero? || lat.Zero? || ew.Zero? || long.Zero? then ValueError
    else Ok(PacketText(speed.text, ns.text, lat.text, ew.text, long.text))
  }

  /** The packet is built exactly when the five slots it uses hold text. */
  lemma PacketDefined(fix: seq<Slot>)
    requires |fix| == GPS_STRUCT_ELEMENT_COUNT
    ensures Packet(fix).Ok? <==> forall j :: j in {2, 4, 5, 6, 7} ==> fix[j].Text?
    ensures !Packet(fix).IndexError?
  {
    if !Packet(fix).Ok? {
      assert exists j :: j in {2, 4, 5, 6, 7} && fix[j].Zero?;
    }
  }

  /** Right-justification never truncates, so the packet has at least 30
      characters, and exactly 30 when speed, latitude and longitude fit
      their widths of 7, 10 and 11. */
  lemma PacketLength(speed: string, ns: string, lat: string, ew: string, long: string)
    ensures var p := PacketText(speed, ns, lat, ew, long);
      |p| >= 30 && (|p| == 30 <==> |speed| <= 7 && |lat| <= 10 && |long| <= 11)
  {
  }

  /** Slicing a packet whose fields fit at [0:7], [7:8], [8:18], [18:19]
      and [19:30], the offsets the receiver uses, gives back each field as
      formatted. */
  lemma PacketFields(speed: string, ns: string, lat: string, ew: string, long: string)
    requires |speed| <= 7 && |lat| <= 10 && |long| <= 11
    ensures var p := PacketText(speed, ns, lat, ew, long);
      |p| == 30
      && p[0..7] == RJust(speed, 7) && p[7..8] == Fmt1(ns) && p[8..18] == RJust(lat, 10)
      && p[18..19] == Fmt1(ew) && p[19..30] == RJust(long, 11)
  {
    FiveParts(RJust(speed, 7), Fmt1(ns), RJust(lat, 10), Fmt1(ew), RJust(long, 11));
  }

  /** Each field of the packet ends with its text, right-aligned at the
      field's end after spaces, and the hemisphere characters are the first
      characters of the N/S and E/W texts. */
  lemma PacketAlignment(speed: string, ns: string, lat: string, ew: string, long: string)
    requires |speed| <= 7 && |lat| <= 10 && |long| <= 11
    ensures var p := PacketText(speed, ns, lat, ew, long);
      |p| == 30
      && p[7 - |speed|..7] == speed && p[18 - |lat|..18] == lat && p[30 - |long|..30] == long
      && (forall i :: 0 <= i < 7 - |speed| ==> p[i] == ' ')
      && (ns != [] ==> p[7] == ns[0])
      && (ew != [] ==> p[18] == ew[0])
  {
    PacketFields(speed, ns, lat, ew, long);
    var p := PacketText(speed, ns, lat, ew, long);
    var a, c, e := p[0..7], p[8..18], p[19..30];
    assert p[7 - |speed|..7] == speed by {
      RJustParts(speed, 7);
      assert p[7 - |speed|..7] == a[7 - |speed|..];
    }
    assert p[18 - |lat|..18] == lat by {
      RJustParts(lat, 10);
      assert p[18 - |lat|..18] == c[10 - |lat|..];
    }
    assert p[30 - |long|..30] == long by {
      RJustParts(long, 11);
      assert p[30 - |long|..30] == e[11 - |long|..];
    }
    assert p[7] == p[7..8][0] && p[18] == p[18..19][0];
    forall i | 0 <= i < 7 - |speed|
      ensures p[i] == ' '
    {
      RJustParts(speed, 7);
      assert p[i] == a[i];
    }
  }

  /** The five parts of a concatenation sliced back out at their offsets. */
  lemma FiveParts<T>(a: seq<T>, b: seq<T>, c: seq<T>, d: seq<T>, e: seq<T>)
    ensures var s, i, j, k, l := a + b + c + d + e, |a|, |a| + |b|, |a| + |b| + |c|, |a| + |b| + |c| + |d|;
      |s| == l + |e| && s[..i] == a && s[i..j] == b && s[j..k] == c && s[k..l] == d && s[l..] == e
  {
    var s := a + b + c + d + e;
    assert s == (((a + b) + c) + d) + e;
    assert s[..|a| + |b| + |c| + |d|] == a + b + c + d;
    assert (a + b + c + d)[..|a| + |b| + |c|] == a + b + c;
    assert (a + b + c)[..|a| + |b|] == a + b;
  }

  // ---------------------------------------------------------------------
  // Acquiring a fix.

  /** One GPS read: the data GetGpsData returns and what GetGpsDecode
      makes of it. */
  datatype Reading = Reading(gpsData: string, gpsStruct: Outcome<seq<Slot>>)

  function ReadGps(chunks: seq<string>): (r: Reading)
    ensures r.gpsStruct.Ok? ==> |r.gpsStruct.value| == GPS_STRUCT_ELEMENT_COUNT
  {
    var gpsData := GpsDataOf(chunks);
    Reading(gpsData, GpsDecode(gpsData))
  }

  /** The readings of successive reads. */
  function Readings(gpsReads: seq<seq<string>>): (rs: seq<Reading>)
    ensures |rs| == |gpsReads| && forall j :: 0 <= j < |rs| ==> rs[j] == ReadGps(gpsReads[j])
    ensures Decodable(rs)
  {
    if gpsReads == [] then [] else Readings(gpsReads[..|gpsReads| - 1]) + [ReadGps(gpsReads[|gpsReads| - 1])]
  }

  /** Every record decoded has the 8 slots GetGpsDecode gives it. */
  predicate Decodable(readings: seq<Reading>)
  {
    forall j :: 0 <= j < |readings| && readings[j].gpsStruct.Ok? ==> |readings[j].gpsStruct.value| == GPS_STRUCT_ELEMENT_COUNT
  }

  /** Reading j decodes to a record whose first slot is not the integer 0. */
  predicate IsFix(readings: seq<Reading>, j: nat)
    requires j < |readings| && Decodable(readings)
  {
    readings[j].gpsStruct.Ok? && readings[j].gpsStruct.value[GPS_STRUCT_TIME] != Zero
  }

  /** Where the acquisition loop stands: the fix held (ValidGpsStruct), a
      GetGpsDecode that raised, the number of reads made and the last data
      read. */
  datatype Acquisition = Acquisition(fix: seq<Slot>, failed: bool, readCount: nat, gpsData: string)

  /** The state after k iterations of the acquisition loop, each of which
      sleeps, reads the GPS, decodes, and keeps the record when its first
      slot is set; an IndexError ends the loop. */
  function Acquire(readings: seq<Reading>, k: nat): (a: Acquisition)
    requires k <= |readings| && Decodable(readings)
    ensures 1 <= a.readCount <= k || (a.readCount == 0 && k == 0)
    ensures !a.failed ==> a.readCount == k
    ensures a.fix == [] || |a.fix| == GPS_STRUCT_ELEMENT_COUNT
  {
    if k == 0 then Acquisition([], false, 0, "")
    else
      var a := Acquire(readings, k - 1);
      if a.failed then a
      else
        var reading := readings[k - 1];
        if !reading.gpsStruct.Ok? then a.(failed := true, readCount := k, gpsData := reading.gpsData)
        else
          var gpsStruct := reading.gpsStruct.value;
          Acquisition(if gpsStruct[GPS_STRUCT_TIME] != Zero then gpsStruct else a.fix, false, k, reading.gpsData)
  }

  /** The loop has failed after k iterations exactly when one of the
      first k reads raises. */
  lemma {:induction false} AcquireFailure(readings: seq<Reading>, k: nat)
    requires k <= |readings| && Decodable(readings)
    ensures Acquire(readings, k).failed <==> exists j :: 0 <= j < k && !readings[j].gpsStruct.Ok?
  {
    if k > 0 {
      AcquireFailure(readings, k - 1);
    }
  }

  /** A failed loop made exactly the reads up to the first one whose
      decoding raises. */
  lemma {:induction false} AcquireStopsAtFirstFailure(readings: seq<Reading>, k: nat)
    requires k <= |readings| && Decodable(readings) && Acquire(readings, k).failed
    ensures var n := Acquire(readings, k).readCount;
      1 <= n <= k && !readings[n - 1].gpsStruct.Ok? && forall j :: 0 <= j < n - 1 ==> readings[j].gpsStruct.Ok?
  {
    if Acquire(readings, k - 1).failed {
      AcquireStopsAtFirstFailure(readings, k - 1);
    } else {
      AcquireFailure(readings, k - 1);
    }
  }

  /** Once the loop has failed it stays failed. */
  lemma {:induction false} AcquireStaysFailed(readings: seq<Reading>, i: nat, k: nat)
    requires i <= k <= |readings| && Decodable(readings) && Acquire(readings, i).failed
    ensures Acquire(readings, k) == Acquire(readings, i)
    decreases k - i
  {
    if i < k {
      AcquireStaysFailed(readings, i, k - 1);
    }
  }

  /** Without a failure the fix held is the record of the last read that
      carried a fix, or empty when no read did: ValidGpsStruct is only ever
      replaced by a decoded record whose first slot is set. */
  lemma {:induction false} AcquireKeepsLatest(readings: seq<Reading>, k: nat)
    requires k <= |readings| && Decodable(readings) && !Acquire(readings, k).failed
    ensures var fix := Acquire(readings, k).fix;
      (fix == [] && forall j :: 0 <= j < k ==> !IsFix(readings, j))
      || (exists j :: 0 <= j < k && IsFix(readings, j) && fix == readings[j].gpsStruct.value
                      && forall i :: j < i < k ==> !IsFix(readings, i))
  {
    if k > 0 {
      AcquireKeepsLatest(readings, k - 1);
      var fix := Acquire(readings, k).fix;
      if IsFix(readings, k - 1) {
        assert fix == readings[k - 1].gpsStruct.value;
      } else if Acquire(readings, k - 1).fix == [] {
        assert fix == [];
      } else {
        var j :| 0 <= j < k - 1 && IsFix(readings, j) && Acquire(readings, k - 1).fix == readings[j].gpsStruct.value
                 && forall i :: j < i < k - 1 ==> !IsFix(readings, i);
        assert fix == readings[j].gpsStruct.value;
      }
    }
  }

  /** t followed by n one-second sleeps. */
  function Sleeps(t: seq<Event>, n: nat): seq<Event>
  {
    if n == 0 then t else Sleeps(t, n - 1) + [Sleep(ONE_SECOND_US)]
  }

  // ---------------------------------------------------------------------
  // One iteration of the main loop.

  /** What an iteration does when nothing raises: transmit a packet, or
      (no fix) light red and gather the satellite records it displays. */
  datatype Action = Sent(packet: string) | Searching(satellites: seq<seq<string>>)

  /** The fix is cleared and re-acquired when none is held or the radio
      reports no error. */
  predicate Acquiring(fix: seq<Slot>, errorFlag: bool)
  {
    |fix| == 0 || !errorFlag
  }

  /** The acquisition an iteration makes, or the held fix untouched. */
  function HeldFix(fix: seq<Slot>, errorFlag: bool, readings: seq<Reading>): (a: Acquisition)
    requires |readings| == 4 && Decodable(readings)
  {
    if Acquiring(fix, errorFlag) then Acquire(readings, 4) else Acquisition(fix, false, 0, "")
  }

  /** Without a fix: the satellite records gathered from the last data
      read, or the error GetSatelliteData raises. */
  function NoFixOutcome(gpsData: string): Outcome<Action>
  {
    var satelliteData := SatelliteData(gpsData);
    if satelliteData.Ok? then Ok(Searching(satelliteData.value))
    else if satelliteData.IndexError? then IndexError else ValueError
  }

  /** With a fix: its packet sent, or ValueError from the format. */
  function TransmitOutcome(fix: seq<Slot>): Outcome<Action>
    requires |fix| == GPS_STRUCT_ELEMENT_COUNT
  {
    var packet := Packet(fix);
    if packet.Ok? then Ok(Sent(packet.value)) else ValueError
  }

  /** SendData(RF_CHANNEL, 1, packet). */
  function SendTrace(t: seq<Event>, packet: string): seq<Event>
  {
    AfterFrames(t, SendDataCommands(RF_CHANNEL, 1, packet))
    + [Write(GPIO_RF24L01_CSN, 1), Sleep(1), Write(GPIO_RF24L01_CSN, 0)]
  }

  /** Green on when there is no error, then the packet sent. */
  function TransmitTrace(t: seq<Event>, fix: seq<Slot>, errorFlag: bool): seq<Event>
    requires |fix| == GPS_STRUCT_ELEMENT_COUNT
  {
    var shown := if !errorFlag then t + [Write(GPIO_LED_GREEN, 1)] else t;
    var packet := Packet(fix);
    if packet.Ok? then SendTrace(shown, packet.value) else shown
  }

  function TransmitSamples(s: nat, fix: seq<Slot>): nat
    requires |fix| == GPS_STRUCT_ELEMENT_COUNT
  {
    var packet := Packet(fix);
    if packet.Ok? then s + 8 * WordCount(SendDataCommands(RF_CHANNEL, 1, packet.value)) else s
  }

  function TransmitLeds(level: map<Pin, Bit>, errorFlag: bool): map<Pin, Bit>
  {
    if !errorFlag then level[GPIO_LED_GREEN := 1] else level
  }

  /** The result of an iteration: IndexError from the decoder, the error
      GetSatelliteData raises, ValueError from the packet format, or the
      action taken. */
  function StepOutcome(fix: seq<Slot>, errorFlag: bool, readings: seq<Reading>): Outcome<Action>
    requires |readings| == 4 && Decodable(readings) && (fix == [] || |fix| == GPS_STRUCT_ELEMENT_COUNT)
  {
    var a := HeldFix(fix, errorFlag, readings);
    if a.failed then IndexError
    else if |a.fix| == 0 then NoFixOutcome(a.gpsData)
    else TransmitOutcome(a.fix)
  }

  /** The pin actions of an iteration: a one-second sleep, one more per
      GPS read, then the LEDs and the transmission. */
  function StepTrace(t: seq<Event>, fix: seq<Slot>, errorFlag: bool, readings: seq<Reading>): seq<Event>
    requires |readings| == 4 && Decodable(readings) && (fix == [] || |fix| == GPS_STRUCT_ELEMENT_COUNT)
  {
    var a := HeldFix(fix, errorFlag, readings);
    var acquired := Sleeps(t + [Sleep(ONE_SECOND_US)], a.readCount);
    if a.failed then acquired
    else if |a.fix| == 0 then RedTrace(acquired)
    else TransmitTrace(acquired, a.fix, errorFlag)
  }

  function StepSamples(s: nat, fix: seq<Slot>, errorFlag: bool, readings: seq<Reading>): nat
    requires |readings| == 4 && Decodable(readings) && (fix == [] || |fix| == GPS_STRUCT_ELEMENT_COUNT)
  {
    var a := HeldFix(fix, errorFlag, readings);
    if a.failed || |a.fix| == 0 then s else TransmitSamples(s, a.fix)
  }

  /** The LED levels after an iteration. */
  function StepLeds(level: map<Pin, Bit>, fix: seq<Slot>, errorFlag: bool, readings: seq<Reading>): map<Pin, Bit>
    requires |readings| == 4 && Decodable(readings)
  {
    var a := HeldFix(fix, errorFlag, readings);
    if a.failed then level
    else if |a.fix| == 0 then RedLeds(level)
    else TransmitLeds(level, errorFlag)
  }

  /** With the error flag raised and a fix held, the iteration reads no GPS
      data and resends the packet of the fix it holds, with no LED change. */
  lemma ResendHeldFix(fix: seq<Slot>, readings: seq<Reading>, t: seq<Event>, level: map<Pin, Bit>)
    requires |readings| == 4 && Decodable(readings) && |fix| == GPS_STRUCT_ELEMENT_COUNT && Packet(fix).Ok?
    ensures StepOutcome(fix, true, readings) == Ok(Sent(Packet(fix).value))
    ensures StepTrace(t, fix, true, readings) == SendTrace(t + [Sleep(ONE_SECOND_US)], Packet(fix).value)
    ensures StepLeds(level, fix, true, readings) == level
  {
  }

  /** When a fix is held after the acquisition step, the iteration sends
      its packet whatever the error flag, and lights green only without an
      error; when none is held it lights red and sends nothing. */
  lemma SendWheneverFixHeld(fix: seq<Slot>, errorFlag: bool, readings: seq<Reading>, level: map<Pin, Bit>)
    requires |readings| == 4 && Decodable(readings) && (fix == [] || |fix| == GPS_STRUCT_ELEMENT_COUNT)
    ensures var a := HeldFix(fix, errorFlag, readings);
      var outcome, after := StepOutcome(fix, errorFlag, readings), StepLeds(level, fix, errorFlag, readings);
      (!a.failed && a.fix != [] && Packet(a.fix).Ok? ==> outcome == Ok(Sent(Packet(a.fix).value)))
      && (!a.failed && a.fix != [] ==>
            LevelIn(after, GPIO_LED_GREEN) == (if errorFlag then LevelIn(level, GPIO_LED_GREEN) else 1)
            && LevelIn(after, GPIO_LED_RED) == LevelIn(level, GPIO_LED_RED))
      && (!a.failed && a.fix == [] ==>
            !(outcome.Ok? && outcome.value.Sent?)
            && LevelIn(after, GPIO_LED_RED) == 1 && LevelIn(after, GPIO_LED_GREEN) == 0)
  {
  }

  /** The transmitter's globals RF24L01_ErrorFlag and ValidGpsStruct. */
  class Transmitter {
    var errorFlag: bool
    var validGpsStruct: seq<Slot>

    /** A held fix is a decoded 8-slot record. */
    predicate Valid()
      reads this
    {
      validGpsStruct == [] || |validGpsStruct| == GPS_STRUCT_ELEMENT_COUNT
    }

    /** The values before the main loop starts. */
    constructor ()
      ensures Valid() && !errorFlag && validGpsStruct == []
    {
      errorFlag, validGpsStruct := false, [];
    }

    /** PiRF24L01_Tx.RF24L01_Interupt_Callback.  The received packet is
        not used: the transmitter's WriteLogLine does nothing. */
    method Callback(io: Board)
      requires !io.IsOutput(GPIO_SPI_MISO) && io.IsOutput(GPIO_LED_GREEN)
      modifies this, io
      ensures var intFlags := ReceivedWord(io.line, old(io.samples));
              errorFlag == ErrorFlagAfter(old(errorFlag), intFlags)
              && OffBus(io.level) == LedsAfter(OffBus(old(io.level)), intFlags)
      ensures io.trace == TxInterruptTrace(old(io.trace), io.line, old(io.samples), old(io.LevelOf(GPIO_LED_GREEN)))
      ensures io.samples == TxInterruptSamples(io.line, old(io.samples))
      ensures io.mode == old(io.mode) && validGpsStruct == old(validGpsStruct)
    {
      var intFlags, newErrorFlag := HandleLatched(io, errorFlag);
      errorFlag := newErrorFlag;
      if IsSet(intFlags, RF24L01_STATUS_RX_DR) {
        errorFlag := false;
        var response := ReceivePacket(io);
        Rearm(io);
      }
    }

    /** The acquisition loop: four times, sleep a second, read and decode
        the GPS, keep the record when its first slot is set.  Returns
        whether the decoder raised and the last data read. */
    method AcquireFix(io: Board, gpsReads: seq<seq<string>>) returns (failed: bool, gpsData: string)
      requires |gpsReads| == 4
      modifies this, io
      ensures var a := Acquire(Readings(gpsReads), 4);
              failed == a.failed && gpsData == a.gpsData && validGpsStruct == a.fix
              && io.trace == Sleeps(old(io.trace), a.readCount)
      ensures Valid() && errorFlag == old(errorFlag)
      ensures io.samples == old(io.samples) && io.mode == old(io.mode) && io.level == old(io.level)
    {
      validGpsStruct := [];
      failed, gpsData := false, "";
      for count := 0 to 4
        invariant var a := Acquire(Readings(gpsReads), count);
                  !a.failed && validGpsStruct == a.fix && gpsData == a.gpsData && io.trace == Sleeps(old(io.trace), count)
        invariant errorFlag == old(errorFlag)
        invariant io.samples == old(io.samples) && io.mode == old(io.mode) && io.level == old(io.level)
      {
        io.Sleep(ONE_SECOND_US);
        gpsData := GetGpsData(gpsReads[count]);
        var gpsStruct := GetGpsDecode(gpsData);
        if !gpsStruct.Ok? {
          failed := true;
          AcquireStaysFailed(Readings(gpsReads), count + 1, 4);
          return;
        }
        if gpsStruct.value[GPS_STRUCT_TIME] != Zero {
          validGpsStruct := gpsStruct.value;
        }
      }
    }

    /** One iteration of the main loop, given what the four GPS reads of an
        acquisition would return.  The satellite summary it prints is not
        modelled; its records are returned in the outcome. */
    method LoopStep(io: Board, gpsReads: seq<seq<string>>) returns (outcome: Outcome<Action>)
      requires |gpsReads| == 4 && Valid() && !io.IsOutput(GPIO_SPI_MISO)
      modifies this, io
      ensures outcome == StepOutcome(old(validGpsStruct), old(errorFlag), Readings(gpsReads))
      ensures validGpsStruct == HeldFix(old(validGpsStruct), old(errorFlag), Readings(gpsReads)).fix
      ensures io.trace == StepTrace(old(io.trace), old(validGpsStruct), old(errorFlag), Readings(gpsReads))
      ensures io.samples == StepSamples(old(io.samples), old(validGpsStruct), old(errorFlag), Readings(gpsReads))
      ensures OffBus(io.level) == StepLeds(OffBus(old(io.level)), old(validGpsStruct), old(errorFlag), Readings(gpsReads))
      ensures Valid() && errorFlag == old(errorFlag) && io.mode == old(io.mode)
    {
      ghost var t0 := io.trace;
      io.Sleep(ONE_SECOND_US);
      var failed, gpsData := false, "";
      if |validGpsStruct| == 0 || !errorFlag {
        failed, gpsData := AcquireFix(io, gpsReads);
      } else {
        assert io.trace == Sleeps(t0 + [Sleep(ONE_SECOND_US)], 0);
      }
      if failed {
        return IndexError;
      }
      if |validGpsStruct| == 0 {
        outcome := ShowNoFix(io, gpsData);
      } else {
        outcome := TransmitFix(io);
      }
    }

    /** The branch taken without a fix: red on, green off, then the
        satellite records of the last data read. */
    method ShowNoFix(io: Board, gpsData: string) returns (outcome: Outcome<Action>)
      modifies io
      ensures outcome == NoFixOutcome(gpsData)
      ensures io.trace == RedTrace(old(io.trace))
      ensures OffBus(io.level) == RedLeds(OffBus(old(io.level)))
      ensures io.samples == old(io.samples) && io.mode == old(io.mode)
    {
      ShowRed(io);
      var satelliteData := GetSatelliteData(gpsData);
      outcome := if satelliteData.Ok? then Ok(Searching(satelliteData.value))
                 else if satelliteData.IndexError? then IndexError else ValueError;
    }

    /** The branch taken with a fix: green on unless the radio reports an
        error, then the packet built and sent on RF_CHANNEL, pipeline 1. */
    method TransmitFix(io: Board) returns (outcome: Outcome<Action>)
      requires |validGpsStruct| == GPS_STRUCT_ELEMENT_COUNT && !io.IsOutput(GPIO_SPI_MISO)
      modifies io
      ensures outcome == TransmitOutcome(validGpsStruct)
      ensures io.trace == TransmitTrace(old(io.trace), validGpsStruct, errorFlag)
      ensures io.samples == TransmitSamples(old(io.samples), validGpsStruct)
      ensures OffBus(io.level) == TransmitLeds(OffBus(old(io.level)), errorFlag)
      ensures io.mode == old(io.mode)
    {
      ghost var l0 := io.level;
      if !errorFlag {
        io.Output(GPIO_LED_GREEN, 1);
        OffBusLed(l0, GPIO_LED_GREEN, 1);
      }
      var dataPacket := Packet(validGpsStruct);
      if !dataPacket.Ok? {
        return ValueError;
      }
      SendData(io, RF_CHANNEL, 1, dataPacket.value);
      outcome := Ok(Sent(dataPacket.value));
    }
  }

  /** The pin actions of the transmitter's callback, for the line the chip
      drives, the sample the callback starts at and the level of green. */
  function TxInterruptTrace(t: seq<Event>, line: Line, s: nat, green: Bit): seq<Event>
  {
    var intFlags := ReceivedWord(line, s);
    var latched, s1 := LatchedTrace(t, intFlags, green), LatchedSamples(s, intFlags);
    if IsSet(intFlags, RF24L01_STATUS_RX_DR) then
      RearmTrace(ReceiveTrace(latched, ReceivedWord(line, s1), ReceivedWord(line, s1 + 24)))
    else latched
  }

  function TxInterruptSamples(line: Line, s: nat): nat
  {
    var intFlags := ReceivedWord(line, s);
    var s1 := LatchedSamples(s, intFlags);
    if IsSet(intFlags, RF24L01_STATUS_RX_DR) then
      RearmSamples(ReceiveSamples(s1, ReceivedWord(line, s1), ReceivedWord(line, s1 + 24)))
    else s1
  }
}
