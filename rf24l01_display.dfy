/** The text reports of the nRF24L01 driver (RPiRF24L01.py): DisplayStatus
    and DisplayRfChannel read registers over the bus and turn the register
    bytes into text.  The decoding of the bytes (frequency, packet counts,
    retransmit delay, power level, pipeline number, CRC length) is stated
    as functions with lemmas about them. */
module RF24L01Display {
  import opened Gpio
  import opened RPiSpi
  import opened PyText
  import opened PyInt
  import opened RPiRF24L01

  /** ReadRegister(a, 1)[1]: the value of a one-byte register. */
  method ReadByte(io: Board, address: nat) returns (value: nat)
    requires !io.IsOutput(GPIO_SPI_MISO)
    modifies io
    ensures io.trace == AfterFrame(old(io.trace), ReadCommand(address, 1))
    ensures io.samples == old(io.samples) + 16
    ensures value == ReceivedWord(io.line, old(io.samples) + 8)
    ensures io.mode == old(io.mode) && OffBus(io.level) == OffBus(old(io.level))
    ensures io.LevelOf(GPIO_RF24L01_CSN) == 1
  {
    ghost var s0 := io.samples;
    var response := ReadRegister(io, address, 1);
    assert |ReadCommand(address, 1)| == 2;
    RepliesAt(io.line, s0, 2, 1);
    value := response[1];
  }

  // ---------------------------------------------------------------------
  // DisplayStatus

  /** The lines DisplayStatus can add below its header: five from STATUS,
      then five from FIFO_STATUS. */
  datatype StatusLine =
    | RxDataReady
    | TxDataSent
    | MaxRetries
    | PipelineLine(pipeline: nat)
    | StatusTxFull
    | CrcLine(bytes: nat)
    | TxReuse
    | FifoTxFull
    | FifoTxEmpty
    | FifoRxFull
    | FifoRxEmpty

  function LineText(line: StatusLine): string
  {
    match line
    case RxDataReady => "RX FIFO Data Ready\n"
    case TxDataSent => "TX FIFO Data Sent\n"
    case MaxRetries => "MAX TX Retrys Exceeded\n"
    case PipelineLine(p) => "RX Pipeline: " + NatToString(p) + "\n"
    case StatusTxFull => "TX FIFO Full\n"
    case CrcLine(n) => "CRC [" + NatToString(n) + " bytes]\n"
    case TxReuse => "Reuse Last Sent Data Packet\n"
    case FifoTxFull => "TX FIFO FULL\n"
    case FifoTxEmpty => "TX FIFO EMPTY\n"
    case FifoRxFull => "RX FIFO FULL\n"
    case FifoRxEmpty => "RX FIFO EMPTY\n"
  }

  /** The CRC length DisplayStatus prints: ((status & CRCO) >> 2) + 1. */
  function CrcBytes(status: nat): nat
  {
    And(status, RF24L01_CONFIG_CRCO) / 4 + 1
  }

  /** The eleven lines DisplayStatus tests for, in the order it tests. */
  function Candidates(status: nat): (c: seq<StatusLine>)
    ensures |c| == 11
  {
    [RxDataReady, TxDataSent, MaxRetries, PipelineLine(RxPipeline(status)), StatusTxFull, CrcLine(CrcBytes(status)),
     TxReuse, FifoTxFull, FifoTxEmpty, FifoRxFull, FifoRxEmpty]
  }

  /** The eleven tests, one per candidate line.  The CRC test applies the
      CONFIG register's EN_CRC mask to the STATUS byte, as the driver does. */
  function Tests(status: nat, fifo: nat): (t: seq<bool>)
    ensures |t| == 11
  {
    [IsSet(status, RF24L01_STATUS_RX_DR), IsSet(status, RF24L01_STATUS_TX_DS), IsSet(status, RF24L01_STATUS_MAX_RT),
     RxPipeline(status) != 7, IsSet(status, RF24L01_STATUS_TX_FULL), IsSet(status, RF24L01_CONFIG_EN_CRC),
     IsSet(fifo, RF24L01_FIFO_STATUS_TX_REUSE), IsSet(fifo, RF24L01_FIFO_STATUS_TX_FULL),
     IsSet(fifo, RF24L01_FIFO_STATUS_TX_EMPTY), IsSet(fifo, RF24L01_FIFO_STATUS_RX_FULL),
     IsSet(fifo, RF24L01_FIFO_STATUS_RX_EMPTY)]
  }

  /** The candidates whose test holds, in order. */
  function Select(candidates: seq<StatusLine>, tests: seq<bool>): seq<StatusLine>
    requires |candidates| == |tests|
  {
    if candidates == [] then []
    else
      var n := |candidates| - 1;
      Select(candidates[..n], tests[..n]) + (if tests[n] then [candidates[n]] else [])
  }

  /** The report: the header, then the lines one after another. */
  function Report(lines: seq<StatusLine>): string
  {
    if lines == [] then "RF24L01 STATUS:\n" else Report(lines[..|lines| - 1]) + LineText(lines[|lines| - 1])
  }

  /** The text DisplayStatus returns for a STATUS and a FIFO_STATUS byte. */
  function StatusReport(status: nat, fifo: nat): string
  {
    Report(Select(Candidates(status), Tests(status, fifo)))
  }

  /** RPiRF24L01.DisplayStatus: one FIFO_STATUS read (STATUS is word 0 of
      the response, FIFO_STATUS word 1), then the report of the two bytes. */
  method DisplayStatus(io: Board) returns (response: string)
    requires !io.IsOutput(GPIO_SPI_MISO)
    modifies io
    ensures io.trace == AfterFrame(old(io.trace), ReadCommand(RF24L01_FIFO_STATUS, 1))
    ensures io.samples == old(io.samples) + 16
    ensures response == StatusReport(ReceivedWord(io.line, old(io.samples)), ReceivedWord(io.line, old(io.samples) + 8))
    ensures io.mode == old(io.mode) && OffBus(io.level) == OffBus(old(io.level))
    ensures io.LevelOf(GPIO_RF24L01_CSN) == 1
  {
    ghost var s0 := io.samples;
    var thisStatus := ReadRegister(io, RF24L01_FIFO_STATUS, 1);
    assert |ReadCommand(RF24L01_FIFO_STATUS, 1)| == 2;
    RepliesAt(io.line, s0, 2, 0);
    RepliesAt(io.line, s0, 2, 1);
    response := StatusReport(thisStatus[0], thisStatus[1]);
  }

  /** With pairwise different candidates, candidate i is selected exactly
      when test i holds. */
  lemma {:induction false} SelectExact(candidates: seq<StatusLine>, tests: seq<bool>, i: nat)
    requires |candidates| == |tests| && i < |candidates|
    requires forall j :: 0 <= j < |candidates| && j != i ==> candidates[j] != candidates[i]
    ensures candidates[i] in Select(candidates, tests) <==> tests[i]
  {
    var n := |candidates| - 1;
    if i < n {
      SelectExact(candidates[..n], tests[..n], i);
      SelectAvoids(candidates[..n], tests[..n], candidates[n]);
    } else {
      SelectAvoids(candidates[..n], tests[..n], candidates[n]);
    }
  }

  /** A line that is no candidate is never selected. */
  lemma {:induction false} SelectAvoids(candidates: seq<StatusLine>, tests: seq<bool>, line: StatusLine)
    requires |candidates| == |tests|
    ensures line !in candidates ==> line !in Select(candidates, tests)
  {
    if candidates != [] {
      var n := |candidates| - 1;
      assert line !in candidates ==> line !in candidates[..n];
      SelectAvoids(candidates[..n], tests[..n], line);
    }
  }

  /** Each of the eleven lines is in the report exactly when its test holds
      (the candidates are pairwise different). */
  lemma StatusLinesExact(status: nat, fifo: nat, i: nat)
    requires i < 11
    ensures Candidates(status)[i] in Select(Candidates(status), Tests(status, fifo)) <==> Tests(status, fifo)[i]
  {
    SelectExact(Candidates(status), Tests(status, fifo), i);
  }

  /** The printed pipeline is bits 3..1 of STATUS, and its line is missing
      only for the value 7 (no data); the CRC length is bit 2 plus one, so
      1 or 2 bytes. */
  lemma StatusFieldsDecode(status: nat)
    ensures RxPipeline(status) == (status / 2) % 8
    ensures CrcBytes(status) == (status / 4) % 2 + 1
  {
    RxPipelineBits(status);
    assert Pow2(2) == 4;
    AndPow2(status, 2);
  }

  // ---------------------------------------------------------------------
  // DisplayRfChannel

  /** The registers DisplayRfChannel reads, in order (written as the
      successive appends the method performs). */
  function RfChannelCommands(): seq<seq<int>>
  {
    [ReadCommand(RF24L01_RF_SETUP, 1)] + [ReadCommand(RF24L01_RF_CH, 1)] + [ReadCommand(RF24L01_CD, 1)]
    + [ReadCommand(RF24L01_OBSERVE_TX, 1)] + [ReadCommand(RF24L01_SETUP_RETR, 1)]
  }

  lemma RfChannelWords()
    ensures RfChannelCommands() == [[0x06, 0], [0x05, 0], [0x09, 0], [0x08, 0], [0x04, 0]]
  {
    assert Zeros(1) == [0];
    assert ReadCommand(RF24L01_RF_SETUP, 1) == [0x06, 0];
    assert ReadCommand(RF24L01_RF_CH, 1) == [0x05, 0];
    assert ReadCommand(RF24L01_CD, 1) == [0x09, 0];
    assert ReadCommand(RF24L01_OBSERVE_TX, 1) == [0x08, 0];
    assert ReadCommand(RF24L01_SETUP_RETR, 1) == [0x04, 0];
  }

  /** The carrier frequency: 2400 MHz plus the channel, counted in 2 MHz
      steps at 2 Mbps and in 1 MHz steps at 1 Mbps. */
  function FrequencyMHz(rfSetup: nat, rfChannel: nat): nat
  {
    if IsSet(rfSetup, RF24L01_RF_SETUP_2MBPS) then 2400 + 2 * rfChannel else 2400 + 1 * rfChannel
  }

  /** The power label as the driver computes it: the first test,
      `RfSetup & 0x06`, is true for every non-zero power field, so the
      10 dBm and 12 dBm branches are never taken. */
  function PowerLabelAsWritten(rfSetup: nat): string
  {
    if IsSet(rfSetup, RF24L01_RF_SETUP_0DBM) then "0dBm "
    else if IsSet(rfSetup, RF24L01_RF_SETUP_10DBM) then "10dBm "
    else if IsSet(rfSetup, RF24L01_RF_SETUP_12DBM) then "12dBm "
    else "0dBm "
  }

  /** The intended label of a power field value (RF_SETUP & 0x06), one
      label per setting constant; the report prints PowerLabelAsWritten. */
  function PowerText(field: nat): string
  {
    if field == RF24L01_RF_SETUP_0DBM then "0dBm "
    else if field == RF24L01_RF_SETUP_10DBM then "10dBm "
    else if field == RF24L01_RF_SETUP_12DBM then "12dBm "
    else "18dBm "
  }

  /** The intended power label, chosen by the value of the two-bit power
      field. */
  function PowerLabel(rfSetup: nat): string
  {
    PowerText(And(rfSetup, RF24L01_RF_SETUP_0DBM))
  }

  /** (OBSERVE_TX & PLOS_CNT) >> 4 */
  function PacketsLost(counts: nat): nat
  {
    And(counts, RF24L01_OBSERVE_TX_PLOS_CNT) / 16
  }

  /** OBSERVE_TX & ARC_CNT */
  function PacketsResent(counts: nat): nat
  {
    And(counts, RF24L01_OBSERVE_TX_ARC_CNT)
  }

  /** 250 * ((SETUP_RETR & ARD) >> 4) + 86 microseconds. */
  function RetransmitDelay(autoRetransmit: nat): nat
  {
    250 * (And(autoRetransmit, RF24L01_SETUP_RETR_ARD) / 16) + 86
  }

  /** SETUP_RETR & ARC */
  function RetransmitCount(autoRetransmit: nat): nat
  {
    And(autoRetransmit, RF24L01_SETUP_RETR_ARC)
  }

  /** The pieces DisplayRfChannel appends after "RF CHANNEL: ", in order. */
  datatype ChannelItem =
    | RateItem(twoMbps: bool)
    | FrequencyItem(mhz: nat)
    | PowerItem(text: string)
    | CarrierItem(carrierDetect: nat)
    | LostItem(lost: nat)
    | ResentItem(resent: nat)
    | DelayItem(microseconds: nat)
    | CountItem(retransmits: nat)

  function ItemText(item: ChannelItem): string
  {
    match item
    case RateItem(twoMbps) => if twoMbps then "2Mbps " else "1Mbps "
    case FrequencyItem(mhz) => NatToString(mhz) + "MHz "
    case PowerItem(text) => text
    case CarrierItem(cd) => (if cd == 0 then " !!! NO CARRIER DETECT !!!" else " *** CARRIER DETECT ***") + "\n"
    case LostItem(n) => "Data Packets Lost: " + NatToString(n) + "\n"
    case ResentItem(n) => "Data Packets Resent: " + NatToString(n) + "\n"
    case DelayItem(us) => "Auto Retransmit Delay: " + NatToString(us) + "uS\n"
    case CountItem(n) => "Auto Retransmit Count: " + NatToString(n) + "\n"
  }

  /** The items for the five register values read (RF_SETUP, RF_CH, CD,
      OBSERVE_TX, SETUP_RETR). */
  function ChannelItems(rfSetup: nat, rfChannel: nat, carrierDetect: nat, counts: nat, autoRetransmit: nat): (r: seq<ChannelItem>)
    ensures |r| == 8
  {
    [RateItem(IsSet(rfSetup, RF24L01_RF_SETUP_2MBPS)), FrequencyItem(FrequencyMHz(rfSetup, rfChannel)),
     PowerItem(PowerLabelAsWritten(rfSetup)), CarrierItem(carrierDetect),
     LostItem(PacketsLost(counts)), ResentItem(PacketsResent(counts)),
     DelayItem(RetransmitDelay(autoRetransmit)), CountItem(RetransmitCount(autoRetransmit))]
  }

  /** "RF CHANNEL: " followed by the items' texts. */
  function Render(items: seq<ChannelItem>): string
  {
    if items == [] then "RF CHANNEL: " else Render(items[..|items| - 1]) + ItemText(items[|items| - 1])
  }

  /** The report for the five register values read. */
  function RfChannelText(rfSetup: nat, rfChannel: nat, carrierDetect: nat, counts: nat, autoRetransmit: nat): string
  {
    Render(ChannelItems(rfSetup, rfChannel, carrierDetect, counts, autoRetransmit))
  }

  /** RPiRF24L01.DisplayRfChannel: read RF_SETUP, RF_CH and CD and describe
      them, then read and describe OBSERVE_TX, then SETUP_RETR; one two-word
      read each. */
  method DisplayRfChannel(io: Board) returns (result: string)
    requires !io.IsOutput(GPIO_SPI_MISO)
    modifies io
    ensures io.trace == AfterFrames(old(io.trace), RfChannelCommands())
    ensures io.samples == old(io.samples) + 80
    ensures result == RfChannelText(ReceivedWord(io.line, old(io.samples) + 8), ReceivedWord(io.line, old(io.samples) + 24),
      ReceivedWord(io.line, old(io.samples) + 40), ReceivedWord(io.line, old(io.samples) + 56),
      ReceivedWord(io.line, old(io.samples) + 72))
    ensures io.mode == old(io.mode) && OffBus(io.level) == OffBus(old(io.level))
    ensures io.LevelOf(GPIO_RF24L01_CSN) == 1
  {
    ghost var t0, s0 := io.trace, io.samples;
    var rfSetup := ReadByte(io, RF24L01_RF_SETUP);
    ghost var sent := Then(t0, [], ReadCommand(RF24L01_RF_SETUP, 1));
    assert io.trace == AfterFrames(t0, sent);
    assert sent == [ReadCommand(RF24L01_RF_SETUP, 1)];
    var rfChannel := ReadByte(io, RF24L01_RF_CH);
    sent := Then(t0, sent, ReadCommand(RF24L01_RF_CH, 1));
    assert io.trace == AfterFrames(t0, sent);
    var carrierDetect := ReadByte(io, RF24L01_CD);
    sent := Then(t0, sent, ReadCommand(RF24L01_CD, 1));
    assert io.trace == AfterFrames(t0, sent);
    var dataPacketCounts := ReadByte(io, RF24L01_OBSERVE_TX);
    sent := Then(t0, sent, ReadCommand(RF24L01_OBSERVE_TX, 1));
    assert io.trace == AfterFrames(t0, sent);
    var autoRetransmit := ReadByte(io, RF24L01_SETUP_RETR);
    sent := Then(t0, sent, ReadCommand(RF24L01_SETUP_RETR, 1));
    assert io.trace == AfterFrames(t0, sent);
    assert sent == RfChannelCommands();
    assert rfSetup == ReceivedWord(io.line, s0 + 8) && rfChannel == ReceivedWord(io.line, s0 + 24)
      && carrierDetect == ReceivedWord(io.line, s0 + 40) && dataPacketCounts == ReceivedWord(io.line, s0 + 56)
      && autoRetransmit == ReceivedWord(io.line, s0 + 72);
    result := RfChannelText(rfSetup, rfChannel, carrierDetect, dataPacketCounts, autoRetransmit);
  }

  /** Bit 3 of RF_SETUP selects the 2 MHz channel spacing. */
  lemma FrequencyDecode(rfSetup: nat, rfChannel: nat)
    ensures FrequencyMHz(rfSetup, rfChannel) == 2400 + (if (rfSetup / 8) % 2 == 1 then 2 * rfChannel else rfChannel)
    ensures IsSet(rfSetup, RF24L01_RF_SETUP_2MBPS) <==> (rfSetup / 8) % 2 == 1
  {
    assert Pow2(3) == 8;
    AndPow2(rfSetup, 3);
  }

  /** A byte whose high nibble is selected by 0xF0 and low nibble by 0x0F:
      the two fields are its digits in base 16 and give the byte back. */
  lemma NibbleSplit(b: nat)
    requires b < 256
    ensures And(b, 0xF0) / 16 == b / 16 && And(b, 0x0F) == b % 16
    ensures b == 16 * (And(b, 0xF0) / 16) + And(b, 0x0F)
    ensures b / 16 < 16
  {
    assert Pow2(4) == 16 && 15 * Pow2(4) == 0xF0 && Pow2(4) - 1 == 0x0F;
    AndShift(b, 15, 4);
    AndLowBits(b / 16, 4);
    AndLowBits(b, 4);
    var q := b / 16;
    assert q < 16;
    assert q % 16 == q;
  }

  /** OBSERVE_TX splits into the lost count (high nibble) and the resent
      count (low nibble); both are below 16 and together give the byte. */
  lemma PacketCountsDecode(counts: nat)
    requires counts < 256
    ensures PacketsLost(counts) == counts / 16 < 16 && PacketsResent(counts) == counts % 16
    ensures counts == 16 * PacketsLost(counts) + PacketsResent(counts)
  {
    NibbleSplit(counts);
  }

  /** The retransmit delay is 86 us plus 250 us per step of the ARD field,
      so one of 86, 336, ..., 3836; the count is the ARC field. */
  lemma RetransmitDecode(autoRetransmit: nat)
    requires autoRetransmit < 256
    ensures RetransmitDelay(autoRetransmit) == 250 * (autoRetransmit / 16) + 86
    ensures 86 <= RetransmitDelay(autoRetransmit) <= 3836 && (RetransmitDelay(autoRetransmit) - 86) % 250 == 0
    ensures RetransmitCount(autoRetransmit) == autoRetransmit % 16
  {
    NibbleSplit(autoRetransmit);
  }

  /** The power field, RF_SETUP & 0x06, is twice bits 2..1 of the byte; the
      0x04 and 0x02 bits are its two halves. */
  lemma PowerField(rfSetup: nat)
    ensures And(rfSetup, 0x06) == 2 * ((rfSetup / 2) % 4)
    ensures And(rfSetup, 0x04) == 4 * ((rfSetup / 4) % 2) && And(rfSetup, 0x02) == 2 * ((rfSetup / 2) % 2)
    ensures (rfSetup / 2) % 4 == 2 * ((rfSetup / 4) % 2) + (rfSetup / 2) % 2
  {
    assert Pow2(1) == 2 && Pow2(2) == 4;
    AndShift(rfSetup, 3, 1);
    AndLowBits(rfSetup / 2, 2);
    AndPow2(rfSetup, 1);
    AndPow2(rfSetup, 2);
    DivHalf(rfSetup, 1);
    ModDouble(rfSetup / 2, 1);
  }

  /** As written, the report always says "0dBm ": a zero power field
      leaves all three tests false and falls through to the last branch. */
  lemma PowerLabelAsWrittenConstant(rfSetup: nat)
    ensures PowerLabelAsWritten(rfSetup) == "0dBm "
  {
    PowerField(rfSetup);
  }

  /** The setting 0x04 (RF24L01_RF_SETUP_10DBM) is reported as "0dBm ". */
  lemma PowerLabelAsWrittenMislabels()
    ensures PowerLabelAsWritten(RF24L01_RF_SETUP_10DBM) == "0dBm "
    ensures PowerLabel(RF24L01_RF_SETUP_10DBM) == "10dBm "
  {
  }

  /** The label by field value names each of the four power settings, and
      depends on nothing but bits 2..1 of RF_SETUP. */
  lemma PowerLabelDecode(rfSetup: nat)
    ensures PowerLabel(rfSetup) == ["18dBm ", "12dBm ", "10dBm ", "0dBm "][(rfSetup / 2) % 4]
  {
    PowerField(rfSetup);
  }

  /** What DisplayRfChannel reports, field by field, for register bytes:
      the rate bit, the frequency, the power label "0dBm " whatever the
      power field, the carrier detect byte, the two nibbles of OBSERVE_TX and of SETUP_RETR. */
  lemma ChannelItemsDecode(rfSetup: nat, rfChannel: nat, carrierDetect: nat, counts: nat, autoRetransmit: nat)
    requires counts < 256 && autoRetransmit < 256
    ensures ChannelItems(rfSetup, rfChannel, carrierDetect, counts, autoRetransmit)
      == [RateItem((rfSetup / 8) % 2 == 1), FrequencyItem(2400 + (if (rfSetup / 8) % 2 == 1 then 2 * rfChannel else rfChannel)),
          PowerItem("0dBm "), CarrierItem(carrierDetect),
          LostItem(counts / 16), ResentItem(counts % 16),
          DelayItem(250 * (autoRetransmit / 16) + 86), CountItem(autoRetransmit % 16)]
  {
    FrequencyDecode(rfSetup, rfChannel);
    PowerLabelAsWrittenConstant(rfSetup);
    PacketCountsDecode(counts);
    RetransmitDecode(autoRetransmit);
  }

  /** Whatever the five register values, the report's power text, the
      third item after "RF CHANNEL: ", is "0dBm ", for every power setting. */
  lemma RfChannelPowerAlwaysZeroDbm(rfSetup: nat, rfChannel: nat, carrierDetect: nat, counts: nat, autoRetransmit: nat)
    ensures var items := ChannelItems(rfSetup, rfChannel, carrierDetect, counts, autoRetransmit);
      ItemText(items[2]) == "0dBm "
      && RfChannelText(rfSetup, rfChannel, carrierDetect, counts, autoRetransmit)
         == Render(items[..2]) + "0dBm " + ItemText(items[3]) + ItemText(items[4]) + ItemText(items[5])
            + ItemText(items[6]) + ItemText(items[7])
  {
    PowerLabelAsWrittenConstant(rfSetup);
    var items := ChannelItems(rfSetup, rfChannel, carrierDetect, counts, autoRetransmit);
    assert items[..7][..6] == items[..6] && items[..6][..5] == items[..5] && items[..5][..4] == items[..4];
    assert items[..4][..3] == items[..3] && items[..3][..2] == items[..2];
    assert Render(items) == Render(items[..7]) + ItemText(items[7]);
    assert Render(items[..7]) == Render(items[..6]) + ItemText(items[6]);
    assert Render(items[..6]) == Render(items[..5]) + ItemText(items[5]);
    assert Render(items[..5]) == Render(items[..4]) + ItemText(items[4]);
    assert Render(items[..4]) == Render(items[..3]) + ItemText(items[3]);
    assert Render(items[..3]) == Render(items[..2]) + ItemText(items[2]);
  }
}
