/** The NEO-6 GPS module helpers (GPS_NEO_6.py): the table that places the
    fields of an NMEA RMC sentence into the program's 8-slot fix record,
    the decoder that applies it line by line, the extraction of satellite
    records from GSV sentences, the satellite summary text, and the
    resynchronising read of the serial data. */
module GpsNeo6 {
  import opened PyText

  const SATELLITE_ELEMENT_COUNT: nat := 4

  const GPS_STRUCT_DISCARD: int := -2
  const GPS_STRUCT_STATUS: int := -1

  const GPS_STRUCT_ELEMENT_COUNT: nat := 8

  const GPS_STRUCT_TIME: int := 0
  const GPS_STRUCT_DATE: int := 1
  const GPS_STRUCT_SPEED: int := 2
  const GPS_STRUCT_CORSE: int := 3
  const GPS_STRUCT_N_S: int := 4
  const GPS_STRUCT_LAT: int := 5
  const GPS_STRUCT_E_W: int := 6
  const GPS_STRUCT_LONG: int := 7

  const GPRMC: string := "$GPRMC"
  const GPGSV: string := "$GPGSV"

  /** The slot (or DISCARD / STATUS) for each field of an RMC sentence. */
  const RMC_PROTOCOL: seq<int> :=
    [GPS_STRUCT_DISCARD,
     GPS_STRUCT_TIME, GPS_STRUCT_STATUS, GPS_STRUCT_LAT, GPS_STRUCT_N_S, GPS_STRUCT_LONG, GPS_STRUCT_E_W,
     GPS_STRUCT_SPEED, GPS_STRUCT_CORSE, GPS_STRUCT_DATE,
     GPS_STRUCT_DISCARD, GPS_STRUCT_DISCARD, GPS_STRUCT_DISCARD, GPS_STRUCT_DISCARD]

  /** GpsDataProtocol: sentence tag to field table. */
  const GPS_DATA_PROTOCOL: map<string, seq<int>> := map[GPRMC := RMC_PROTOCOL]

  /** The inverse of the RMC table: the field each slot is taken from. */
  const RMC_SLOT_FIELD: seq<nat> := [1, 9, 7, 8, 4, 3, 6, 5]

  // ---------------------------------------------------------------------
  // GetGpsDecode

  /** A slot of GpsStruct: the integer 0 it starts with, or a field text. */
  datatype Slot = Zero | Text(text: string)

  /** [0] * GPS_STRUCT_ELEMENT_COUNT */
  function EmptyStruct(): (r: seq<Slot>)
    ensures |r| == GPS_STRUCT_ELEMENT_COUNT && forall j :: 0 <= j < |r| ==> r[j] == Zero
  {
    seq(GPS_STRUCT_ELEMENT_COUNT, _ => Zero)
  }

  /** The decoder's state: ValidDataFlag and GpsStruct. */
  datatype Fix = Fix(valid: bool, slots: seq<Slot>)

  /** One field placed through its protocol entry: STATUS "A" raises the
      flag, a slot number stores the text, anything else is dropped. */
  function ApplyField(st: Fix, element: int, field: string): (r: Fix)
    requires |st.slots| == GPS_STRUCT_ELEMENT_COUNT
    ensures |r.slots| == GPS_STRUCT_ELEMENT_COUNT
  {
    if element == GPS_STRUCT_STATUS && field == "A" then st.(valid := true)
    else if 0 <= element < GPS_STRUCT_ELEMENT_COUNT then st.(slots := st.slots[element := Text(field)])
    else st
  }

  /** Fields 0 .. k-1 of a line placed in order. */
  function ApplyFields(st: Fix, protocol: seq<int>, fields: seq<string>, k: nat): (r: Fix)
    requires |st.slots| == GPS_STRUCT_ELEMENT_COUNT && k <= |fields| && k <= |protocol|
    ensures |r.slots| == GPS_STRUCT_ELEMENT_COUNT
  {
    if k == 0 then st else ApplyField(ApplyFields(st, protocol, fields, k - 1), protocol[k - 1], fields[k - 1])
  }

  /** One line of GPS data: a line whose tag has a protocol places all its
      fields, and raises IndexError when it has more fields than the
      protocol has entries; any other line changes nothing. */
  function DecodeLine(st: Fix, line: string): (r: Outcome<Fix>)
    requires |st.slots| == GPS_STRUCT_ELEMENT_COUNT
    ensures r.Ok? ==> |r.value.slots| == GPS_STRUCT_ELEMENT_COUNT
  {
    var fields := Split(line, ',');
    if fields[0] in GPS_DATA_PROTOCOL then
      var protocol := GPS_DATA_PROTOCOL[fields[0]];
      if |fields| > |protocol| then IndexError else Ok(ApplyFields(st, protocol, fields, |fields|))
    else Ok(st)
  }

  /** The lines decoded in order from the empty record; the first
      exception ends the decoding. */
  function DecodeLines(lines: seq<string>): (r: Outcome<Fix>)
    ensures r.Ok? ==> |r.value.slots| == GPS_STRUCT_ELEMENT_COUNT
    ensures !r.ValueError?
  {
    if lines == [] then Ok(Fix(false, EmptyStruct()))
    else
      var before := DecodeLines(lines[..|lines| - 1]);
      if before.Ok? then DecodeLine(before.value, lines[|lines| - 1]) else before
  }

  /** GetGpsDecode's result: the record, or all zeros when no field set the
      valid flag. */
  function GpsDecode(gpsData: string): (r: Outcome<seq<Slot>>)
    ensures r.Ok? ==> |r.value| == GPS_STRUCT_ELEMENT_COUNT
    ensures !r.ValueError?
  {
    var decoded := DecodeLines(Split(gpsData, '\n'));
    if decoded.Ok? then Ok(if decoded.value.valid then decoded.value.slots else EmptyStruct()) else IndexError
  }

  /** Once a prefix of the lines has raised, the whole input raises. */
  lemma {:induction false} DecodeErrorSticky(lines: seq<string>, i: nat)
    requires i <= |lines| && DecodeLines(lines[..i]).IndexError?
    ensures DecodeLines(lines).IndexError?
    decreases |lines| - i
  {
    if i < |lines| {
      assert lines[..i + 1][..i] == lines[..i];
      DecodeErrorSticky(lines, i + 1);
    } else {
      assert lines[..i] == lines;
    }
  }

  /** GPS_NEO_6.GetGpsDecode: split into lines and fields, place the fields
      of each line with a protocol, then clear the record unless it was
      flagged valid. */
  method GetGpsDecode(gpsData: string) returns (result: Outcome<seq<Slot>>)
    ensures result == GpsDecode(gpsData)
  {
    var validDataFlag := false;
    var gpsStruct := EmptyStruct();
    var lines := Split(gpsData, '\n');
    var i := 0;
    while i < |lines|
      invariant i <= |lines|
      invariant DecodeLines(lines[..i]) == Ok(Fix(validDataFlag, gpsStruct))
    {
      assert lines[..i + 1][..i] == lines[..i];
      var dataElements := Split(lines[i], ',');
      if dataElements[0] in GPS_DATA_PROTOCOL {
        var thisGpsDataProtocol := GPS_DATA_PROTOCOL[dataElements[0]];
        ghost var st0 := Fix(validDataFlag, gpsStruct);
        var count := 0;
        while count < |dataElements|
          invariant count <= |dataElements| && count <= |thisGpsDataProtocol|
          invariant |gpsStruct| == GPS_STRUCT_ELEMENT_COUNT
          invariant ApplyFields(st0, thisGpsDataProtocol, dataElements, count) == Fix(validDataFlag, gpsStruct)
        {
          if count >= |thisGpsDataProtocol| {
            DecodeErrorSticky(lines, i + 1);
            return IndexError;
          }
          var protocolElement := thisGpsDataProtocol[count];
          if protocolElement == GPS_STRUCT_STATUS && dataElements[count] == "A" {
            validDataFlag := true;
          } else if protocolElement >= 0 && protocolElement < GPS_STRUCT_ELEMENT_COUNT {
            gpsStruct := gpsStruct[protocolElement := Text(dataElements[count])];
          }
          count := count + 1;
        }
      }
      i := i + 1;
    }
    assert lines[..i] == lines;
    if validDataFlag == false {
      gpsStruct := EmptyStruct();
    }
    result := Ok(gpsStruct);
  }

  /** The RMC table and RMC_SLOT_FIELD are inverse: field f lands in slot j
      exactly when slot j is taken from field f, and STATUS is field 2. */
  lemma RmcTableInverse(f: nat, j: nat)
    requires f < |RMC_PROTOCOL| && j < GPS_STRUCT_ELEMENT_COUNT
    ensures RMC_PROTOCOL[f] == j <==> RMC_SLOT_FIELD[j] == f
    ensures RMC_PROTOCOL[f] == GPS_STRUCT_STATUS <==> f == 2
    ensures RMC_PROTOCOL[f] < GPS_STRUCT_ELEMENT_COUNT
  {
    assert RMC_PROTOCOL == [-2, 0, -1, 5, 4, 7, 6, 2, 3, 1, -2, -2, -2, -2];
  }

  /** The first k fields of an RMC line (k <= 14): slot j holds field
      RMC_SLOT_FIELD[j] when that field is among them and keeps its old
      value otherwise; the flag is raised by a field 2 of exactly "A" and
      never lowered. */
  lemma {:induction false} RmcFieldsPlace(st: Fix, fields: seq<string>, k: nat)
    requires |st.slots| == GPS_STRUCT_ELEMENT_COUNT && k <= |fields| && k <= |RMC_PROTOCOL|
    ensures var r := ApplyFields(st, RMC_PROTOCOL, fields, k);
      && (forall j :: 0 <= j < GPS_STRUCT_ELEMENT_COUNT ==>
            r.slots[j] == if RMC_SLOT_FIELD[j] < k then Text(fields[RMC_SLOT_FIELD[j]]) else st.slots[j])
      && (r.valid <==> st.valid || (k > 2 && fields[2] == "A"))
  {
    if k > 0 {
      RmcFieldsPlace(st, fields, k - 1);
      forall j | 0 <= j < GPS_STRUCT_ELEMENT_COUNT {
        RmcTableInverse(k - 1, j);
      }
      RmcTableInverse(k - 1, 0);
    }
  }

  /** An RMC line that sets the valid flag: field 2 is exactly "A". */
  predicate IsValidRmc(line: string)
  {
    var fields := Split(line, ',');
    fields[0] == GPRMC && |fields| > 2 && fields[2] == "A"
  }

  /** An RMC line with more fields than the table has entries. */
  predicate IsLongRmc(line: string)
  {
    var fields := Split(line, ',');
    fields[0] == GPRMC && |fields| > |RMC_PROTOCOL|
  }

  /** One line: a line without a protocol changes nothing, a long RMC line
      raises IndexError, and any other RMC line places its fields as
      RmcFieldsPlace states. */
  lemma DecodeLineEffect(st: Fix, line: string)
    requires |st.slots| == GPS_STRUCT_ELEMENT_COUNT
    ensures var fields := Split(line, ',');
      && (fields[0] != GPRMC ==> DecodeLine(st, line) == Ok(st))
      && (DecodeLine(st, line).IndexError? <==> IsLongRmc(line))
      && (DecodeLine(st, line).Ok? ==> (DecodeLine(st, line).value.valid <==> st.valid || IsValidRmc(line)))
  {
    var fields := Split(line, ',');
    if fields[0] == GPRMC && |fields| <= |RMC_PROTOCOL| {
      RmcFieldsPlace(st, fields, |fields|);
    }
  }

  /** The whole input raises IndexError exactly when some RMC line is too
      long, and otherwise the flag is set exactly when some RMC line has
      status "A". */
  lemma {:induction false} DecodeLinesOutcome(lines: seq<string>)
    ensures DecodeLines(lines).IndexError? <==> exists i :: 0 <= i < |lines| && IsLongRmc(lines[i])
    ensures DecodeLines(lines).Ok? ==>
      (DecodeLines(lines).value.valid <==> exists i :: 0 <= i < |lines| && IsValidRmc(lines[i]))
  {
    if lines != [] {
      var n := |lines| - 1;
      var front := lines[..n];
      DecodeLinesOutcome(front);
      assert forall i :: 0 <= i < n ==> front[i] == lines[i];
      if DecodeLines(front).Ok? {
        DecodeLineEffect(DecodeLines(front).value, lines[n]);
      }
    }
  }

  /** The decoded record is all zeros unless some RMC line has status "A";
      with one, it is the record the lines built. */
  lemma GpsDecodeValidity(gpsData: string)
    ensures var lines := Split(gpsData, '\n');
      && (GpsDecode(gpsData).Ok? && (exists i :: 0 <= i < |lines| && IsValidRmc(lines[i])) ==>
            GpsDecode(gpsData).value == DecodeLines(lines).value.slots)
      && (GpsDecode(gpsData).Ok? && (forall i :: 0 <= i < |lines| ==> !IsValidRmc(lines[i])) ==>
            GpsDecode(gpsData).value == EmptyStruct())
  {
    var lines := Split(gpsData, '\n');
    DecodeLinesOutcome(lines);
    if DecodeLines(lines).Ok? {
      var st := DecodeLines(lines).value;
      assert GpsDecode(gpsData) == Ok(if st.valid then st.slots else EmptyStruct());
    }
  }

  /** A single RMC sentence with status "A" and at most 14 fields: slot j is
      field RMC_SLOT_FIELD[j] when the sentence has it, 0 otherwise. */
  lemma SingleRmcDecode(line: string)
    requires '\n' !in line && IsValidRmc(line) && !IsLongRmc(line)
    ensures var fields := Split(line, ',');
      && GpsDecode(line).Ok?
      && forall j :: 0 <= j < GPS_STRUCT_ELEMENT_COUNT ==>
           GpsDecode(line).value[j] == if RMC_SLOT_FIELD[j] < |fields| then Text(fields[RMC_SLOT_FIELD[j]]) else Zero
  {
    var fields := Split(line, ',');
    var st0 := Fix(false, EmptyStruct());
    SplitPlain(line, '\n', []);
    assert [line][..0] == [];
    assert DecodeLines([line]) == DecodeLine(st0, line);
    var r := ApplyFields(st0, RMC_PROTOCOL, fields, |fields|);
    assert DecodeLine(st0, line) == Ok(r);
    RmcFieldsPlace(st0, fields, |fields|);
    assert r.valid;
    assert GpsDecode(line) == Ok(r.slots);
  }

  // ---------------------------------------------------------------------
  // GetSatelliteData

  /** The records of one GSV field list for c = 4, 8, ..., 4n: the four
      fields from c on, when the list is long enough to hold them. */
  function SatelliteRecords(fields: seq<string>, n: nat): seq<seq<string>>
  {
    if n == 0 then []
    else
      var c := 4 * n;
      SatelliteRecords(fields, n - 1) + (if |fields| > c + 3 then [fields[c..c + 4]] else [])
  }

  /** One line of GPS data with its last four characters dropped: a GSV
      sentence needs a field 3 that int() accepts (IndexError without one,
      ValueError when it is not an integer) and yields its records; any
      other line yields none. */
  function SatelliteLine(line: string): Outcome<seq<seq<string>>>
  {
    var fields := Split(DropLast(line, 4), ',');
    if fields[0] != GPGSV then Ok([])
    else if |fields| <= 3 then IndexError
    else if !IsIntText(fields[3]) then ValueError
    else Ok(SatelliteRecords(fields, SATELLITE_ELEMENT_COUNT))
  }

  /** A GSV line whose count field has white space after its sign, such
      as "$GPGSV,1,1,+ 3,01,02,03,04*7A\r", is not an error: int() accepts
      "+ 3", and the line yields its one record, fields 4 to 7. */
  lemma SignedCountAccepted(line: string)
    requires var fields := Split(DropLast(line, 4), ',');
      |fields| == 8 && fields[0] == GPGSV && fields[3] == "+ 3"
    ensures SatelliteLine(line) == Ok([Split(DropLast(line, 4), ',')[4..8]])
  {
    var fields := Split(DropLast(line, 4), ',');
    assert IsIntText(fields[3]) by { IntTextSignSpace(); }
    SatelliteRecordsShape(fields, SATELLITE_ELEMENT_COUNT);
    var r := SatelliteRecords(fields, SATELLITE_ELEMENT_COUNT);
    assert |r| == 1 && r[0] == fields[4..8];
    assert r == [fields[4..8]];
  }

  /** The records of the lines, in order; the first exception ends it. */
  function SatelliteLines(lines: seq<string>): Outcome<seq<seq<string>>>
  {
    if lines == [] then Ok([])
    else
      var before := SatelliteLines(lines[..|lines| - 1]);
      if !before.Ok? then before
      else
        var more := SatelliteLine(lines[|lines| - 1]);
        if more.Ok? then Ok(before.value + more.value) else more
  }

  /** GetSatelliteData's result for the text read from the GPS module. */
  function SatelliteData(gpsData: string): Outcome<seq<seq<string>>>
  {
    SatelliteLines(Split(gpsData, '\n'))
  }

  /** Once a prefix of the lines has raised, the whole input raises the same. */
  lemma {:induction false} SatelliteErrorSticky(lines: seq<string>, i: nat)
    requires i <= |lines| && !SatelliteLines(lines[..i]).Ok?
    ensures SatelliteLines(lines) == SatelliteLines(lines[..i])
    decreases |lines| - i
  {
    if i < |lines| {
      assert lines[..i + 1][..i] == lines[..i];
      SatelliteErrorSticky(lines, i + 1);
    } else {
      assert lines[..i] == lines;
    }
  }

  /** The body of GetSatelliteData's loop for one line: drop its last four
      characters, split it at commas, and for a GSV sentence collect a
      record for every c in 4, 8, 12, 16 whose four fields exist.  The
      source fills each new record [0, 0, 0, 0] with the four fields in
      turn, so the record is those fields. */
  method LineSatellites(line: string) returns (records: Outcome<seq<seq<string>>>)
    ensures records == SatelliteLine(line)
  {
    var dataLine := DropLast(line, 4);
    var dataElements := Split(dataLine, ',');
    if dataElements[0] != GPGSV {
      return Ok([]);
    }
    if |dataElements| <= 3 {
      return IndexError;
    }
    if !IsIntText(dataElements[3]) {
      return ValueError;
    }
    var found: seq<seq<string>> := [];
    ghost var m: nat := 0;
    var count := 4;
    while count <= 4 * SATELLITE_ELEMENT_COUNT
      invariant count == 4 * m + 4 && m <= SATELLITE_ELEMENT_COUNT
      invariant found == SatelliteRecords(dataElements, m)
    {
      if |dataElements| > count + 3 {
        found := found + [dataElements[count..count + SATELLITE_ELEMENT_COUNT]];
      }
      count := count + SATELLITE_ELEMENT_COUNT;
      m := m + 1;
    }
    records := Ok(found);
  }

  /** GPS_NEO_6.GetSatelliteData: the records of every line in order; the
      first exception ends it. */
  method GetSatelliteData(gpsData: string) returns (result: Outcome<seq<seq<string>>>)
    ensures result == SatelliteData(gpsData)
  {
    var satelliteData: seq<seq<string>> := [];
    var lines := Split(gpsData, '\n');
    var i := 0;
    while i < |lines|
      invariant i <= |lines|
      invariant SatelliteLines(lines[..i]) == Ok(satelliteData)
    {
      assert lines[..i + 1][..i] == lines[..i];
      var records := LineSatellites(lines[i]);
      if !records.Ok? {
        SatelliteErrorSticky(lines, i + 1);
        return records;
      }
      satelliteData := satelliteData + records.value;
      i := i + 1;
    }
    assert lines[..i] == lines;
    result := Ok(satelliteData);
  }

  /** The records of a field list are consecutive: record k holds fields
      4k+4 .. 4k+7, and there are as many as fit, at most n. */
  lemma {:induction false} SatelliteRecordsShape(fields: seq<string>, n: nat)
    ensures var fit := if |fields| < 8 then 0 else (|fields| - 4) / 4;
      var r := SatelliteRecords(fields, n);
      && |r| == (if n < fit then n else fit)
      && forall k :: 0 <= k < |r| ==> 4 * k + 8 <= |fields| && r[k] == fields[4 * k + 4..4 * k + 8]
  {
    if n > 0 {
      SatelliteRecordsShape(fields, n - 1);
      var fit := if |fields| < 8 then 0 else (|fields| - 4) / 4;
      assert |fields| < 8 || 4 * fit + 4 <= |fields| < 4 * fit + 8;
    }
  }

  /** A GSV line yields at most four records, each of four fields. */
  lemma SatelliteLineBound(line: string)
    ensures SatelliteLine(line).Ok? ==>
      |SatelliteLine(line).value| <= SATELLITE_ELEMENT_COUNT
      && forall k :: 0 <= k < |SatelliteLine(line).value| ==> |SatelliteLine(line).value[k]| == SATELLITE_ELEMENT_COUNT
  {
    SatelliteRecordsShape(Split(DropLast(line, 4), ','), SATELLITE_ELEMENT_COUNT);
  }

  /** The lines yield records exactly when every line does, and then at
      most four per line. */
  lemma {:induction false} SatelliteLinesOutcome(lines: seq<string>)
    ensures SatelliteLines(lines).Ok? <==> forall i :: 0 <= i < |lines| ==> SatelliteLine(lines[i]).Ok?
    ensures SatelliteLines(lines).Ok? ==> |SatelliteLines(lines).value| <= SATELLITE_ELEMENT_COUNT * |lines|
  {
    if lines != [] {
      var n := |lines| - 1;
      var front := lines[..n];
      SatelliteLinesOutcome(front);
      assert forall i :: 0 <= i < n ==> front[i] == lines[i];
      var before, more := SatelliteLines(front), SatelliteLine(lines[n]);
      assert SatelliteLines(lines) == if !before.Ok? then before else if more.Ok? then Ok(before.value + more.value) else more;
      if !before.Ok? {
        var i :| 0 <= i < n && !SatelliteLine(front[i]).Ok?;
        assert !SatelliteLine(lines[i]).Ok?;
      } else if more.Ok? {
        SatelliteLineBound(lines[n]);
        assert |before.value + more.value| <= SATELLITE_ELEMENT_COUNT * n + SATELLITE_ELEMENT_COUNT;
      }
    }
  }

  // ---------------------------------------------------------------------
  // DisplaySatelliteData

  function SatelliteHeader(count: nat): string
  {
    "OBTAINING SATELLITES: [" + NatToString(count) + "]\n"
  }

  /** The text after the first k records, starting from head: str() of each
      record (texts[i]) and a space, with a line break after every third. */
  function SummaryFrom(head: string, texts: seq<string>, k: nat): string
    requires k <= |texts|
  {
    if k == 0 then head
    else SummaryFrom(head, texts, k - 1) + texts[k - 1] + " " + (if k % 3 == 0 then "\n" else "")
  }

  /** The summary DisplaySatelliteData returns for the records' str() texts. */
  function SatelliteSummary(texts: seq<string>): string
  {
    SummaryFrom(SatelliteHeader(|texts|), texts, |texts|) + "\n\n"
  }

  /** GPS_NEO_6.DisplaySatelliteData, given str() of each satellite record
      in order. */
  method DisplaySatelliteData(satelliteTexts: seq<string>) returns (result: string)
    ensures result == SatelliteSummary(satelliteTexts)
  {
    var head := "OBTAINING SATELLITES: [" + NatToString(|satelliteTexts|) + "]\n";
    result := head;
    var count := 0;
    for i := 0 to |satelliteTexts|
      invariant count == i
      invariant result == SummaryFrom(head, satelliteTexts, i)
    {
      count := count + 1;
      result := result + satelliteTexts[i] + " ";
      if count % 3 == 0 {
        result := result + "\n";
      }
    }
    result := result + "\n\n";
  }

  /** The text keeps its head as a prefix. */
  lemma {:induction false} SummaryKeepsHead(head: string, texts: seq<string>, k: nat)
    requires k <= |texts|
    ensures |head| <= |SummaryFrom(head, texts, k)| && SummaryFrom(head, texts, k)[..|head|] == head
  {
    if k > 0 {
      SummaryKeepsHead(head, texts, k - 1);
    }
  }

  /** When no record prints a line break, k records add one line break per
      complete group of three. */
  lemma {:induction false} SummaryLineBreaks(head: string, texts: seq<string>, k: nat)
    requires k <= |texts|
    requires forall i :: 0 <= i < |texts| ==> '\n' !in texts[i]
    ensures multiset(SummaryFrom(head, texts, k))['\n'] == multiset(head)['\n'] + k / 3
  {
    if k > 0 {
      SummaryLineBreaks(head, texts, k - 1);
      var entry := texts[k - 1];
      var tail := if k % 3 == 0 then "\n" else "";
      assert multiset(entry)['\n'] == 0;
      assert multiset(" ")['\n'] == 0;
      assert multiset(tail)['\n'] == if k % 3 == 0 then 1 else 0;
      ThirdStep(k);
    }
  }

  lemma ThirdStep(k: nat)
    requires k > 0
    ensures k / 3 == (k - 1) / 3 + (if k % 3 == 0 then 1 else 0)
  {
    var q, r := (k - 1) / 3, (k - 1) % 3;
    assert k == 3 * q + r + 1;
    if r == 2 {
      assert k == 3 * (q + 1);
    }
  }

  /** The header line holds one line break, at its end. */
  lemma HeaderLineBreaks(n: nat)
    ensures multiset(SatelliteHeader(n))['\n'] == 1
  {
    var lead: string := "OBTAINING SATELLITES: [";
    var digits := NatToString(n);
    assert '\n' !in digits;
    assert multiset(digits)['\n'] == 0;
    assert '\n' !in lead;
    assert multiset(lead)['\n'] == 0;
    assert multiset(SatelliteHeader(n)) == multiset(lead) + multiset(digits) + multiset("]\n");
  }

  /** The layout of the summary after a head text (the header line in
      SatelliteSummary): the head first, the two closing line breaks last,
      and one line break more per group of three records. */
  lemma SummaryLayout(head: string, texts: seq<string>)
    requires forall i :: 0 <= i < |texts| ==> '\n' !in texts[i]
    ensures var r := SummaryFrom(head, texts, |texts|) + "\n\n";
      && |head| + 2 <= |r| && r[..|head|] == head && r[|r| - 2..] == "\n\n"
      && multiset(r)['\n'] == multiset(head)['\n'] + |texts| / 3 + 2
  {
    var body := SummaryFrom(head, texts, |texts|);
    SummaryKeepsHead(head, texts, |texts|);
    SummaryLineBreaks(head, texts, |texts|);
    AppendParts(body, "\n\n", |head|);
    assert multiset("\n\n")['\n'] == 2;
  }

  /** The prefix, suffix and multiset of a + b. */
  lemma AppendParts<T>(a: seq<T>, b: seq<T>, n: nat)
    requires n <= |a|
    ensures (a + b)[..n] == a[..n] && (a + b)[|a|..] == b
    ensures multiset(a + b) == multiset(a) + multiset(b)
  {
    assert (a + b)[..n] == a[..n];
    assert (a + b)[|a|..] == b;
  }

  // ---------------------------------------------------------------------
  // GetGpsData

  /** What the reads from the k-th on add to acc: chunks[k] is what the k-th
      read of the port returns, and every read after the last returns "".
      Reading stops at the first empty read; a read that does not start
      with '$' discards everything. */
  function GatherFrom(chunks: seq<string>, k: nat, acc: string): string
    decreases |chunks| - k
  {
    if k >= |chunks| || chunks[k] == "" then acc
    else if chunks[k][0] != '$' then ""
    else GatherFrom(chunks, k + 1, acc + chunks[k])
  }

  /** GetGpsData's result for the successive reads. */
  function GpsDataOf(chunks: seq<string>): string
  {
    GatherFrom(chunks, 0, "")
  }

  /** GPS_NEO_6.GetGpsData: read until a read returns nothing, keeping the
      reads that start a sentence; a read that starts elsewhere discards
      everything.  The second test (first character not '.') always holds
      once the first has failed. */
  method GetGpsData(chunks: seq<string>) returns (gpsData: string)
    ensures gpsData == GpsDataOf(chunks)
  {
    gpsData := "";
    var thisGpsData := ".";
    var k := 0;
    while thisGpsData != ""
      invariant k <= |chunks| + 1
      invariant thisGpsData != "" ==> k <= |chunks| && GatherFrom(chunks, k, gpsData) == GpsDataOf(chunks)
      invariant thisGpsData == "" ==> gpsData == GpsDataOf(chunks)
      decreases |chunks| + 1 - k
    {
      thisGpsData := if k < |chunks| then chunks[k] else "";
      k := k + 1;
      if |thisGpsData| > 0 && thisGpsData[0] != '$' {
        gpsData := "";
        break;
      } else if |thisGpsData| > 0 && thisGpsData[0] != '.' {
        gpsData := gpsData + thisGpsData;
      }
    }
  }

  function Concat(parts: seq<string>): string
  {
    if parts == [] then "" else parts[0] + Concat(parts[1..])
  }

  /** Reads that all start with '$', up to the first empty one, are
      appended in order. */
  lemma {:induction false} GatherInStep(chunks: seq<string>, j: nat, k: nat, acc: string)
    requires j <= k <= |chunks| && (k == |chunks| || chunks[k] == "")
    requires forall i :: j <= i < k ==> chunks[i] != "" && chunks[i][0] == '$'
    ensures GatherFrom(chunks, j, acc) == acc + Concat(chunks[j..k])
    decreases k - j
  {
    if j < k {
      GatherInStep(chunks, j + 1, k, acc + chunks[j]);
      assert chunks[j..k][1..] == chunks[j + 1..k];
      assert (acc + chunks[j]) + Concat(chunks[j + 1..k]) == acc + (chunks[j] + Concat(chunks[j + 1..k]));
    } else {
      assert acc + [] == acc;
    }
  }

  /** A non-empty read that does not start with '$', before any empty read,
      discards everything read. */
  lemma {:induction false} GatherOutOfStep(chunks: seq<string>, j: nat, k: nat, acc: string)
    requires j <= k < |chunks| && chunks[k] != "" && chunks[k][0] != '$'
    requires forall i :: j <= i < k ==> chunks[i] != ""
    ensures GatherFrom(chunks, j, acc) == ""
    decreases k - j
  {
    if j < k && chunks[j][0] == '$' {
      GatherOutOfStep(chunks, j + 1, k, acc + chunks[j]);
    }
  }

  /** The two cases for the whole input. */
  lemma GpsDataResync(chunks: seq<string>, k: nat)
    requires k <= |chunks| && forall i :: 0 <= i < k ==> chunks[i] != ""
    ensures (k == |chunks| || chunks[k] == "") && (forall i :: 0 <= i < k ==> chunks[i][0] == '$')
      ==> GpsDataOf(chunks) == Concat(chunks[..k])
    ensures k < |chunks| && chunks[k] != "" && chunks[k][0] != '$' ==> GpsDataOf(chunks) == ""
  {
    if (k == |chunks| || chunks[k] == "") && (forall i :: 0 <= i < k ==> chunks[i][0] == '$') {
      GatherInStep(chunks, 0, k, "");
      assert "" + Concat(chunks[..k]) == Concat(chunks[..k]);
    }
    if k < |chunks| && chunks[k] != "" && chunks[k][0] != '$' {
      GatherOutOfStep(chunks, 0, k, "");
    }
  }
}
