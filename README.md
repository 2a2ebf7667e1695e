# Verified model of the PiRF24L01 GPS radio link

A Raspberry Pi drives an nRF24L01 2.4 GHz transceiver by bit-banging SPI on
four GPIO lines. It uses that radio to send NMEA fixes from a NEO-6 GPS
receiver to a second Pi. This project models the Python programs in Dafny
and proves properties of the model.

- **`Gpio`** (`gpio.dfy`) stands in for the RPi.GPIO library. A `Board` has:
  - a mode per pin;
  - the level of every output pin;
  - the ordered trace of GPIO actions (set-up, write, read, sleep);
  - a MISO oracle: the k-th read of an input pin returns `Sample(line, k)`.

  Driving MOSI and SCK is then stated exactly, event by event. Every byte
  the chip returns is a function of the oracle.
- **`RPiSpi`** (`RPiSPI.py`): `SpiInit` and the 8-iteration bit-bang loop
  of `SpiSendReceiveWord`. It is proved against `AfterWord`, the exact
  event sequence, and `ReceivedWord`, the MSB-first value of the 8 samples.
- **`RPiRF24L01`** (`RPiRF24L01.py`): the nRF24L01 driver.
  - Each operation is proved to emit an exact list of CSN-framed commands.
  - GetIntFlags clears exactly the latch bits it read.
  - GetData handles the pipeline number and the payload width.
  - Command opcodes and register addresses are the driver's own constants,
    taken from the nRF24L01 command set and register map.
- **`RF24L01Display`** (`RPiRF24L01.py`): `DisplayStatus` and
  `DisplayRfChannel`, with lemmas that decode every register field they
  print. `DisplayRfChannel` prints the power label as the code computes it,
  which is always "0dBm " (see "## Findings"). The label the setting
  names were meant to give is defined beside it, as `PowerLabel`.
- **`GpsNeo6`** (`GPS_NEO_6.py`):
  - the table-driven RMC decoder with its sticky valid flag;
  - the GSV satellite records;
  - the layout of the satellite summary;
  - the resynchronising read.
- **`RadioCallback`**: the part of the interrupt callback that
  `PiRF24L01_Tx.py` and `PiRF24L01_Rx.py` share. This is the error flag,
  the LED state machine, fetching a packet and re-arming the receiver.
- **`PiRF24L01Tx`** (`PiRF24L01_Tx.py`): the 30-character packet, the
  acquisition loop, and one iteration of the main loop, as class
  `Transmitter` (its globals `RF24L01_ErrorFlag` and `ValidGpsStruct`).
- **`PiRF24L01Rx`** (`PiRF24L01_Rx.py`): the conversion of a received
  line (`WriteLogLine`), the callback, and the ten-second watchdog, as
  class `Receiver`. The class holds the error flag, the receive time and
  the log's lines. Lemmas state the packet round trip from the
  transmitter's fix to the receiver's log line.
- **`PiRF24L01`** (`PiRF24L01.py`): the diagnostic program. It has its own
  `SpiSendReceiveWord`, which echoes each bit sent, and the loop body
  that sends the NOP command and prints the reply.
- **`PyText`** and **`PyInt`**: the pieces of Python 2 the programs rely
  on.
  - `PyText`: `str.split`, `strip`, slicing, `rjust`, the `{:1.1s}` and
    `{:2X}` formats, and when `int()` and `float()` raise.
  - `PyInt`: `&`, `|` and `<<` on non-negative ints.

**Semantics.** The programs are Python 2 (`open(name, 'a', 0)`). So
`BitMask / 2` is integer division, and `str()` and `format` are the
Python 2 ones. Values on the bus are Python ints: only bits 7..0 of a word sent
reach MOSI, and a word received is always below 256. An exception the
source would raise (`IndexError`, `ValueError`) is a value of
`PyText.Outcome`. Python 2 strings are byte strings, so the texts the
programs send (`SendData`'s `ord()` of each character) hold characters
below 256. The model's `string` allows any character, so the lemmas that
need this (`PiRF24L01Rx.SentPacketLogged`) require it. `GetIntFlags` and
`GetData` read `FIFO_STATUS` but use word 0 of the reply, which the chip
fills with STATUS. The model follows the code here: both are
`ReceivedWord` at the first word of that command.

## Model

| member | source | states |
|---|---|---|
| RPiSpi.SpiInit | RPiSPI.py:47-51 | MISO becomes a pulled-up input; CE, MOSI and SCK become outputs at 1, 0, 0; exactly these four set-ups are traced |
| RPiSpi.SpiSendReceiveWord | RPiSPI.py:58-78 | the pins see exactly `AfterWord` (8 bit periods); 8 MISO samples are taken; the result is their MSB-first value; MOSI is left at bit 0 of the word and SCK low |
| RPiSpi.TransferBit | RPiSPI.py:63-76 | iteration n drives MOSI to the masked bit, pulses the clock, and returns the one MISO sample |
| RPiSpi.ClockPulse | RPiSPI.py:69-76 | SCK high, 1 us, MISO read, SCK low, 1 us; one sample taken while SCK is high |
| RPiSpi.MaskIsPow2 | RPiSPI.py:61-67 | BitMask during iteration n is 2^(7-n): it starts at 1 << 7 and halves |
| RPiSpi.MosiIsMsbFirst | RPiSPI.py:63-66 | in iteration n MOSI carries bit 7-n of the word |
| RPiSpi.WordEventsClock | RPiSPI.py:62-76 | a word is 48 events: each of its 8 periods raises SCK, reads MISO while SCK is high, then lowers SCK |
| RPiSpi.WordEventsMosi | RPiSPI.py:63-66 | the first event of period n writes MOSI with bit n of the MSB-first bits |
| RPiSpi.MosiBitsAt | RPiSPI.py:63-66 | the n-th bit sent is the level driven in iteration n |
| RPiSpi.MosiBitsValue | RPiSPI.py:63-67 | the first k bits sent, read MSB first, are bits 7..8-k of the word |
| RPiSpi.MosiRoundTrip | RPiSPI.py:63-66 | the 8 MOSI bits, read back MSB first, give the word mod 256 |
| RPiSpi.ReceivedBitsBound | RPiSPI.py:72-73 | after k iterations the accumulator is below 2^k |
| RPiSpi.ReceivedWordIsByte | RPiSPI.py:72-78 | the word received is in 0..255 |
| RPiSpi.ReceivedBitsBit | RPiSPI.py:72-73 | bit k-1-i of the k-bit accumulator is sample i |
| RPiSpi.ReceivedIsMsbFirst | RPiSPI.py:72-73 | bit 7-i of the word received is the i-th MISO sample |
| RPiSpi.BitsEventsAt | RPiSPI.py:62-76 | event 6n+j of k periods is event j of period n |
| RPiSpi.AfterBitsAppends | RPiSPI.py:62-76 | the loop only appends to the trace |
| RPiSpi.AfterWordAppends | RPiSPI.py:58-78 | a word transfer appends `WordEvents` to any trace |
| RPiSpi.BitsEventsLength | RPiSPI.py:62-76 | k periods are 6k events |
| RPiRF24L01.FlagWords | RPiRF24L01.py:263-315 | the flag combinations written are 0x0A (TX), 0x0B (RX), 0x07 (RF_SETUP) and 0x70 (the three latch bits) |
| RPiRF24L01.ReadCommand | RPiRF24L01.py:202-205 | `[R_REGISTER \| a]` followed by exactly max(n, 0) zero words |
| RPiRF24L01.WriteCommand | RPiRF24L01.py:214-217 | `[W_REGISTER \| a]` followed by the data, in order |
| RPiRF24L01.WriteOpcode | RPiRF24L01.py:215 | for a 5-bit address, `0x20 \| a` is 0x20 + a |
| RPiRF24L01.WriteWords | RPiRF24L01.py:214-217 | a write command is `[0x20 + a] ++ data` |
| RPiRF24L01.RegisterWordFields | RPiRF24L01.py:203-215 | the opcode's low 5 bits are the address; bits 7..5 are 001 for a write and 000 for a read |
| RPiRF24L01.Init | RPiRF24L01.py:178-181 | SpiInit, then INT a pulled-up input and CSN an output at 0; MISO stays an input |
| RPiRF24L01.SendCommand | RPiRF24L01.py:189-195 | CSN low, one word transfer per command word in order, CSN high; the response has one word per command word, aligned; CSN ends high and no other non-bus pin changes |
| RPiRF24L01.RepliesAt | RPiRF24L01.py:192-193 | response k is the word clocked back during the k-th word sent |
| RPiRF24L01.RepliesTail | RPiRF24L01.py:388 | dropping the first response word leaves the replies from the next word on |
| RPiRF24L01.ReadRegister | RPiRF24L01.py:202-207 | exactly the frame of `ReadCommand`; the response is as long as the command |
| RPiRF24L01.WriteRegister | RPiRF24L01.py:214-219 | exactly the frame of `WriteCommand`; 1 + len(data) replies |
| RPiRF24L01.FlushTxBuffer | RPiRF24L01.py:226-229 | exactly the one-word frame 0xE1 |
| RPiRF24L01.FlushRxBuffer | RPiRF24L01.py:236-239 | exactly the one-word frame 0xE2 |
| RPiRF24L01.AddressWords | RPiRF24L01.py:248-253 | an address write is opcode, 0x1C + n, 0x93, 0xB5, 0xFE, 0xD2 |
| RPiRF24L01.Configure | RPiRF24L01.py:246-265 | exactly the frames of `ConfigureCommands`, in order |
| RPiRF24L01.ConfigureWords | RPiRF24L01.py:246-265 | TX_ADDR and RX_ADDR_P0 = base; RX_ADDR_P1 = base with byte 0 + 1; P2..P5 = 0x1E..0x21; RF_SETUP = 0x07; CONFIG = 0x08, in that order |
| RPiRF24L01.ConfigureWordCount | RPiRF24L01.py:246-265 | Configure clocks 30 words |
| RPiRF24L01.ConfigureTx | RPiRF24L01.py:272-277 | the two frames of `ConfigureTxCommands`, then CSN low |
| RPiRF24L01.ConfigureTxWords | RPiRF24L01.py:274-276 | RF_CH = channel, then CONFIG = 0x0A |
| RPiRF24L01.ConfigureRx | RPiRF24L01.py:284-292 | the four frames of `ConfigureRxCommands`, then CSN high |
| RPiRF24L01.ConfigureRxWords | RPiRF24L01.py:286-291 | RF_CH = ch, RX_PW_P0+p = n, CONFIG = 0x0B, EN_RXADDR = 1 \| (1 << p), in that order; pipe 0 is always enabled |
| RPiRF24L01.EnabledPipes | RPiRF24L01.py:291 | `1 \| (1 << p)` is 1 for p = 0 and 1 + 2^p otherwise |
| RPiRF24L01.ConfigureOff | RPiRF24L01.py:299-302 | CONFIG = EN_CRC, then CSN low |
| RPiRF24L01.Reset | RPiRF24L01.py:309-315 | exactly the frames of `ResetCommands` |
| RPiRF24L01.ResetWords | RPiRF24L01.py:309-315 | FLUSH_TX, FLUSH_RX, then STATUS = 0x70 |
| RPiRF24L01.GetIntFlags | RPiRF24L01.py:322-334 | returns the unmasked word 0 of the FIFO_STATUS read; the frames are that read then one clear per latch bit set |
| RPiRF24L01.ClearIfSet | RPiRF24L01.py:324-332 | one STATUS write of the bit when the bit is set, nothing otherwise |
| RPiRF24L01.IntFlagsWords | RPiRF24L01.py:323-332 | the first frame reads FIFO_STATUS; each later frame writes STATUS with one cleared bit; at most four frames |
| RPiRF24L01.ClearedBitsExact | RPiRF24L01.py:324-332 | a bit is cleared iff it is MAX_RT, TX_DS or RX_DR and set in the flags; each bit at most once, in the order 0x10, 0x20, 0x40 |
| RPiRF24L01.ClearedBitsSum | RPiRF24L01.py:324-332 | the bits cleared add up to flags & 0x70: the latch bits observed and no others |
| RPiRF24L01.LatchBitsSum | RPiRF24L01.py:324-332 | flags & 0x70 splits into its three latch bits |
| RPiRF24L01.Ords | RPiRF24L01.py:358-359 | one word per character, the character's code |
| RPiRF24L01.BuildPayload | RPiRF24L01.py:357-359 | the loop builds `[W_TX_PAYLOAD]` followed by ord of each character |
| RPiRF24L01.SendData | RPiRF24L01.py:341-365 | exactly the frames of `SendDataCommands`, then CSN high, a 1 us sleep, CSN low |
| RPiRF24L01.SendDataWords | RPiRF24L01.py:343-360 | TX_ADDR and RX_ADDR_P0 = base with byte 0 + p, RF_CH, FLUSH_TX, CONFIG = 0x0A, then `[0xA0] ++ ord(chars)` |
| RPiRF24L01.BuildPayloadRead | RPiRF24L01.py:383-384 | the read command is 0x61 followed by `RxBytes` zeros |
| RPiRF24L01.ReadPayload | RPiRF24L01.py:381-385 | reads RX_PW_P0+pipe, then clocks 0x61 and that many zeros; the payload is the replies after word 0 |
| RPiRF24L01.FetchPayload | RPiRF24L01.py:379-388 | pipeline < 7: width read, payload read, FLUSH_RX; pipeline 7: FLUSH_RX only, empty result |
| RPiRF24L01.GetData | RPiRF24L01.py:372-388 | CSN low, FIFO_STATUS read, then as FetchPayload; the result has exactly `width` words, each a reply to a payload word, or is empty when the pipeline is 7 |
| RPiRF24L01.RxPipelineBits | RPiRF24L01.py:378 | the pipeline is bits 3..1 of the status; it is 7 iff status & 0x0E == 0x0E |
| RPiRF24L01.GetDataWords | RPiRF24L01.py:377-387 | the frames are FIFO_STATUS read, RX_PW_P0+pipe read, 0x61 with w zeros, FLUSH_RX; or FIFO_STATUS read then FLUSH_RX |
| RPiRF24L01.GetDataWordCount | RPiRF24L01.py:377-387 | GetData clocks 6 + w words, or 3 |
| RF24L01Display.ReadByte | RPiRF24L01.py:477 | `ReadRegister(a, 1)[1]` is the reply to the second word |
| RF24L01Display.DisplayStatus | RPiRF24L01.py:395-423 | one FIFO_STATUS read; the text is `StatusReport` of the two reply words |
| RF24L01Display.SelectExact | RPiRF24L01.py:398-421 | a report line appears iff its test holds |
| RF24L01Display.SelectAvoids | RPiRF24L01.py:397-423 | no line appears that is not one of the candidates |
| RF24L01Display.StatusLinesExact | RPiRF24L01.py:398-421 | each of the 11 status lines appears iff its flag test holds |
| RF24L01Display.StatusFieldsDecode | RPiRF24L01.py:404-410 | the pipeline is bits 3..1 of STATUS; the CRC length is bit 2 + 1 bytes |
| RF24L01Display.RfChannelWords | RPiRF24L01.py:477-507 | the reads are RF_SETUP, RF_CH, CD, OBSERVE_TX, SETUP_RETR, in that order |
| RF24L01Display.DisplayRfChannel | RPiRF24L01.py:475-513 | exactly those five reads; the text is `RfChannelText` of their values, with the power label as written |
| RF24L01Display.FrequencyDecode | RPiRF24L01.py:480-486 | 2400 + 2·ch MHz when bit 0x08 is set, else 2400 + ch |
| RF24L01Display.PacketCountsDecode | RPiRF24L01.py:501-505 | lost = high nibble, resent = low nibble, and together they rebuild the byte |
| RF24L01Display.RetransmitDecode | RPiRF24L01.py:507-511 | delay = 250·(high nibble) + 86 us, from 86 to 3836 in steps of 250; count = low nibble |
| RF24L01Display.NibbleSplit | RPiRF24L01.py:502-503 | the two masks and the shift split a byte into its nibbles |
| RF24L01Display.PowerField | RPiRF24L01.py:487-494 | the three power tests see bits 2..1 of RF_SETUP |
| RF24L01Display.PowerLabelAsWrittenConstant | RPiRF24L01.py:487-494 | as written, the label is "0dBm " for every RF_SETUP |
| RF24L01Display.PowerLabelAsWrittenMislabels | RPiRF24L01.py:487-494 | setting 0x04 is printed as "0dBm " where the setting's name says 10 dBm |
| RF24L01Display.PowerLabelDecode | RPiRF24L01.py:487-494 | the corrected label names each of the four settings by bits 2..1 |
| RF24L01Display.ChannelItemsDecode | RPiRF24L01.py:476-511 | the report, item by item: rate, frequency, the power label "0dBm " for every setting, carrier, lost, resent, delay, count as functions of the bits |
| RF24L01Display.RfChannelPowerAlwaysZeroDbm | RPiRF24L01.py:475-513 | for all five register values, the report's third item is "0dBm " and the text is the first two items, "0dBm ", then the other five |
| GpsNeo6.EmptyStruct | GPS_NEO_6.py:150 | 8 slots, all the integer 0 |
| GpsNeo6.GpsDecode | GPS_NEO_6.py:147-168 | the decoded record always has 8 slots, and `GetGpsDecode` never raises ValueError |
| GpsNeo6.DecodeErrorSticky | GPS_NEO_6.py:152-159 | an IndexError on one line ends the decoding with IndexError |
| GpsNeo6.GetGpsDecode | GPS_NEO_6.py:147-168 | the nested loops compute `GpsDecode`: each field is placed through the table, with IndexError past the table's end |
| GpsNeo6.RmcTableInverse | GPS_NEO_6.py:62-67 | field→slot: 1→time, 3→lat, 4→N/S, 5→long, 6→E/W, 7→speed, 8→course, 9→date; STATUS is field 2 and the others are discarded |
| GpsNeo6.RmcFieldsPlace | GPS_NEO_6.py:158-164 | after k RMC fields, each slot holds its field if reached, else its old value; the flag is set by field 2 == "A" and never cleared |
| GpsNeo6.DecodeLineEffect | GPS_NEO_6.py:153-164 | a line without a table changes nothing; IndexError iff an RMC line has more than 14 fields |
| GpsNeo6.DecodeLinesOutcome | GPS_NEO_6.py:152-164 | IndexError iff some RMC line is too long; otherwise valid iff some RMC line has status exactly "A" |
| GpsNeo6.GpsDecodeValidity | GPS_NEO_6.py:161-167 | all zeros unless some RMC line has status "A"; with one, the record the lines built |
| GpsNeo6.SingleRmcDecode | GPS_NEO_6.py:147-168 | for one valid RMC sentence, slot j is field `RMC_SLOT_FIELD[j]` when present, else 0 |
| GpsNeo6.SatelliteErrorSticky | GPS_NEO_6.py:106-111 | the first int() error ends GetSatelliteData with that error |
| GpsNeo6.LineSatellites | GPS_NEO_6.py:107-123 | one line's records: none unless GSV; IndexError with no field 3; ValueError when int() rejects it |
| GpsNeo6.SignedCountAccepted | GPS_NEO_6.py:106-123 | a GSV line with count field "+ 3" and 8 fields is not an error and yields its one record, fields 4 to 7 |
| GpsNeo6.GetSatelliteData | GPS_NEO_6.py:103-124 | the records of all lines in order, or the first exception |
| GpsNeo6.SatelliteRecordsShape | GPS_NEO_6.py:112-123 | record k is fields 4k+4..4k+7, with as many records as fit, up to 4 |
| GpsNeo6.SatelliteLineBound | GPS_NEO_6.py:112-123 | a line yields at most 4 records of 4 fields each |
| GpsNeo6.SatelliteLinesOutcome | GPS_NEO_6.py:103-124 | success iff every line succeeds; at most 4 records per line |
| GpsNeo6.DisplaySatelliteData | GPS_NEO_6.py:131-140 | the loop builds `SatelliteSummary` of the records' texts |
| GpsNeo6.SummaryKeepsHead | GPS_NEO_6.py:132-138 | the header stays a prefix |
| GpsNeo6.SummaryLineBreaks | GPS_NEO_6.py:134-138 | one line break per complete group of three records |
| GpsNeo6.HeaderLineBreaks | GPS_NEO_6.py:132 | the header holds exactly one line break |
| GpsNeo6.SummaryLayout | GPS_NEO_6.py:131-140 | the summary starts with the header and ends with "\n\n", and has len/3 + 2 line breaks beyond the header's |
| GpsNeo6.GetGpsData | GPS_NEO_6.py:83-96 | the read loop computes `GpsDataOf` of the successive reads |
| GpsNeo6.GatherInStep | GPS_NEO_6.py:87-95 | reads starting with '$' up to the first empty read are concatenated in order |
| GpsNeo6.GatherOutOfStep | GPS_NEO_6.py:90-93 | a non-empty read not starting with '$' makes the result empty |
| GpsNeo6.GpsDataResync | GPS_NEO_6.py:83-96 | the two cases for the whole input: the concatenation, or "" after an out-of-step read |
| RadioCallback.LatchBits | PiRF24L01_Tx.py:72-90 | each `IntFlags & mask` test reads bit 4, 5 or 6 |
| RadioCallback.ErrorFlagOutcome | PiRF24L01_Tx.py:72-96 | afterwards the flag is false if TX_DS or RX_DR was set, true if only MAX_RT was, and unchanged with no latch bit |
| RadioCallback.LedsOutcome | PiRF24L01_Tx.py:72-96 | TX_DS or RX_DR leave green on and red off; MAX_RT alone swaps the LEDs; with any latch bit exactly one LED is lit; no other pin changes |
| RadioCallback.LatchedTraceQuiet | PiRF24L01_Tx.py:70-90 | with no latch bit set, the callback performs only the FIFO_STATUS read |
| RadioCallback.OnMaxRetries | PiRF24L01_Tx.py:72-83 | exactly one FLUSH_TX, a read of green, then the two LED writes that swap them |
| RadioCallback.ShowGreen | PiRF24L01_Tx.py:88-89 | red off, green on |
| RadioCallback.ShowRed | PiRF24L01_Tx.py:168-169 | red on, green off |
| RadioCallback.HandleLatched | PiRF24L01_Tx.py:70-89 | GetIntFlags, then the MAX_RT and TX_DS branches in order, each on its own bit |
| RadioCallback.ReceivedPacketBytes | PiRF24L01_Tx.py:98-99 | every word of a received packet is a byte, so chr() accepts it |
| RadioCallback.RearmWords | PiRF24L01_Tx.py:102 | re-arming writes RF_CH = 100, RX_PW_P1 = 30, CONFIG = 0x0B, EN_RXADDR = 0x03 |
| RadioCallback.ReceivePacket | PiRF24L01_Tx.py:95-98 | green on, then exactly GetData's frames; returns GetData's packet |
| RadioCallback.Rearm | PiRF24L01_Tx.py:102 | exactly ConfigureRx(100, 1, 30) |
| PiRF24L01Tx.PacketDefined | PiRF24L01_Tx.py:179-183 | the packet is built iff its five slots hold text, else ValueError; never IndexError |
| PiRF24L01Tx.PacketLength | PiRF24L01_Tx.py:179-183 | at least 30 characters, and exactly 30 iff speed ≤ 7, lat ≤ 10 and long ≤ 11 |
| PiRF24L01Tx.PacketFields | PiRF24L01_Tx.py:179-183 | slicing at [0:7], [7:8], [8:18], [18:19], [19:30] gives back each formatted field |
| PiRF24L01Tx.PacketAlignment | PiRF24L01_Tx.py:179-183 | each field ends its slot, right-aligned after spaces; the hemisphere characters are the first characters of N/S and E/W |
| PiRF24L01Tx.ReadGps | PiRF24L01_Tx.py:157-158 | a decoded reading has 8 slots |
| PiRF24L01Tx.Acquire | PiRF24L01_Tx.py:151-160 | the loop makes k reads, or stops at the read that raised |
| PiRF24L01Tx.AcquireFailure | PiRF24L01_Tx.py:153-158 | failed after k iterations iff one of the first k decodes raised |
| PiRF24L01Tx.AcquireStopsAtFirstFailure | PiRF24L01_Tx.py:153-158 | a failed loop stopped at the first read that raised |
| PiRF24L01Tx.AcquireStaysFailed | PiRF24L01_Tx.py:153-158 | once failed, the state no longer changes |
| PiRF24L01Tx.AcquireKeepsLatest | PiRF24L01_Tx.py:159-160 | the fix held is the last record whose slot 0 is set, or empty when none was |
| PiRF24L01Tx.ResendHeldFix | PiRF24L01_Tx.py:151-184 | with the error flag raised and a fix held, no GPS read happens and the same packet is resent, with no LED change |
| PiRF24L01Tx.SendWheneverFixHeld | PiRF24L01_Tx.py:166-184 | with a fix, the packet is sent whatever the flag and green is lit only without error; without one, red is lit and nothing is sent |
| PiRF24L01Tx.Transmitter.constructor | PiRF24L01_Tx.py:58 | no error flag and no fix held at start |
| PiRF24L01Tx.Transmitter.Callback | PiRF24L01_Tx.py:65-103 | error flag and LEDs as `ErrorFlagAfter`/`LedsAfter`; the pins see exactly `TxInterruptTrace` (MAX_RT, TX_DS, RX_DR branches in order, RX_DR ending with GetData and ConfigureRx); the fix is untouched |
| PiRF24L01Tx.Transmitter.AcquireFix | PiRF24L01_Tx.py:152-160 | the loop computes `Acquire` over four reads: a one-second sleep per read made, and the fix kept |
| PiRF24L01Tx.Transmitter.LoopStep | PiRF24L01_Tx.py:148-184 | one iteration: outcome, new fix, pin actions, samples and LEDs exactly as the step functions say; the error flag is untouched |
| PiRF24L01Tx.Transmitter.ShowNoFix | PiRF24L01_Tx.py:166-172 | red on, green off, then the satellite records of the last data read, or GetSatelliteData's error |
| PiRF24L01Tx.Transmitter.TransmitFix | PiRF24L01_Tx.py:173-184 | green on only without error, then SendData(100, 1, packet), or ValueError from the format |
| PiRF24L01Rx.CoordinateOutcome | PiRF24L01_Rx.py:119-131 | a hemisphere/degrees/minutes group raises iff the minutes are non-blank and fail float(); it stays valid iff the letter is one of its two and neither part is blank; it adds sign, degrees and minutes |
| PiRF24L01Rx.LogEntryOutcome | PiRF24L01_Rx.py:114-144 | ValueError iff float() rejects the speed or a non-blank minutes field; valid iff [7:8] ∈ {N, S}, [18:19] ∈ {E, W} and no degrees/minutes slice is blank; then the pieces are speed, "-" iff S, lat degrees and minutes, "-" iff W, long degrees and minutes |
| PiRF24L01Rx.LatitudeFields | PiRF24L01_Rx.py:119-131 | fields 1-3 are the latitude's sign, degrees and minutes |
| PiRF24L01Rx.LongitudeFields | PiRF24L01_Rx.py:132-144 | fields 4-6 are the longitude's sign, degrees and minutes |
| PiRF24L01Rx.LogLine | PiRF24L01_Rx.py:103 | one character per code, plus the newline |
| PiRF24L01Rx.LogLineChars | PiRF24L01_Rx.py:103 | character k is chr(code k), and the line ends in "\n" |
| PiRF24L01Rx.LogLineOrds | PiRF24L01_Rx.py:103 | chr() undoes the transmitter's ord(): the line is the packet plus "\n" |
| PiRF24L01Rx.PacketSlices | PiRF24L01_Rx.py:117-144 | the receiver's slices of a full-width packet are the transmitter's fields, with latitude split after 2 digits and longitude after 3 |
| PiRF24L01Rx.LineFields | PiRF24L01_Rx.py:117-144 | the receiver's seven slices of a 30-character line |
| PiRF24L01Rx.PacketLogged | PiRF24L01_Rx.py:114-144 | a well-formed packet is logged, and its log line carries exactly the fix's fields |
| PiRF24L01Rx.SentPacketLogged | PiRF24L01_Rx.py:103-144 | end to end: the codes the transmitter sends, turned back into a line, log exactly the fix's fields |
| PiRF24L01Rx.Receiver.constructor | PiRF24L01_Rx.py:60-62 | no error flag, receive time = start time, empty log |
| PiRF24L01Rx.Receiver.Callback | PiRF24L01_Rx.py:69-107 | error flag and LEDs as for the transmitter; receive time set iff RX_DR; the log grows by the valid entry; ConfigureRx is skipped iff WriteLogLine raised; the pin actions are exact |
| PiRF24L01Rx.Receiver.OnFlags | PiRF24L01_Rx.py:94-106 | the RX_DR test: the branch when the bit is set, nothing otherwise |
| PiRF24L01Rx.Receiver.OnReceived | PiRF24L01_Rx.py:94-106 | flag cleared, time recorded, green lit, GetData, WriteLogLine of chr() of the packet plus "\n", then ConfigureRx unless that raised |
| PiRF24L01Rx.Receiver.WriteLogLine | PiRF24L01_Rx.py:114-157 | raises iff `LogEntry` does; appends exactly one line iff the entry is valid, nothing otherwise |
| PiRF24L01Rx.Receiver.Watch | PiRF24L01_Rx.py:189-194 | a one-second sleep, then red on and green off iff nothing arrived in the last ten seconds |
| PiRF24L01.EchoAt | PiRF24L01.py:64-69 | echo character i is the digit of bit i |
| PiRF24L01.EchoValue | PiRF24L01.py:64-69 | the echo, read as a binary numeral, is the value of the bits |
| PiRF24L01.WordEchoIsBinary | PiRF24L01.py:62-70 | the 8 echoed characters are binary digits, read as a numeral they are the word mod 256, and digit n is the MOSI level written in period n |
| PiRF24L01.SpiSendReceiveWord | PiRF24L01.py:59-81 | the same bus behaviour and result as RPiSPI's, and the echo is `WordEcho` of the word |
| PiRF24L01.EchoBit | PiRF24L01.py:63-79 | one period: the digit written is the level driven on MOSI |
| PiRF24L01.EchoLinesStep | PiRF24L01.py:103-105 | the printout grows by one word line per word sent |
| PiRF24L01.EchoCommand | PiRF24L01.py:103-105 | one transfer per word in order; the printout is each word's echo, " = ", its reply in "{:2X}", and a space |
| PiRF24L01.EchoWord | PiRF24L01.py:104-105 | one word: its echo line with the reply in hex |
| PiRF24L01.Setup | PiRF24L01.py:90-95 | INT and MISO pulled-up inputs; CSN, CE at 1; MOSI, SCK at 0 |
| PiRF24L01.LoopPass | PiRF24L01.py:97-112 | CE low, CSN low, the command's words, the printout line and "\n", CSN high, CE high, a 0.1 s sleep |
| PiRF24L01.NopIteration | PiRF24L01.py:97-112 | one loop iteration with the command NOP |
| PiRF24L01.NopPassTrace | PiRF24L01.py:98-112 | the pins see exactly CE low, CSN low, the 48 events of 0xFF, CSN high, CE high, the sleep |
| PiRF24L01.NopPassPrints | PiRF24L01.py:101-106 | it prints "11111111 = ", the reply in hex, and a space |
| PiRF24L01.AllOnesLine | PiRF24L01.py:103-105 | a word with all 8 bits set prints "11111111 = " and its reply |
| PiRF24L01.Select | PiRF24L01.py:98-99 | CE low, then CSN low |
| PiRF24L01.Deselect | PiRF24L01.py:109-112 | CSN high, CE high, a 0.1 s sleep |
| PiRF24L01.OneWordLine | PiRF24L01.py:103-105 | a one-word command prints one echo line |
| PiRF24L01.OneWordTrace | PiRF24L01.py:97-112 | the pin actions of a one-word pass |
| PiRF24L01.NopShifted | PiRF24L01.py:55 | 0xFF shifted right by j is 2^(8-j) - 1 |
| PiRF24L01.NopMosiHigh | PiRF24L01.py:64-69 | every bit of NOP drives MOSI high |
| PiRF24L01.AllOnesEcho | PiRF24L01.py:64-69 | a word whose 8 bits are set echoes "11111111" |
| PiRF24L01.NopEcho | PiRF24L01.py:64-69 | NOP echoes "11111111" |
| PyText.NatToString | GPS_NEO_6.py:132 | str(n) is non-empty decimal digits without a leading zero |
| PyText.NatToStringRoundTrip | GPS_NEO_6.py:132 | str(n) read back as a number is n |
| PyText.NatToStringInjective | GPS_NEO_6.py:132 | different numbers print differently |
| PyText.Split | GPS_NEO_6.py:106 | split gives at least one part, none containing the separator |
| PyText.JoinSplit | GPS_NEO_6.py:106-108 | joining the parts of a split gives back the text |
| PyText.SplitJoin | GPS_NEO_6.py:106-108 | splitting a join of separator-free parts gives back the parts |
| PyText.SplitPlain | GPS_NEO_6.py:152 | a text without the separator is one part; a separator adds a part |
| PyText.StripEmptyIffBlank | PiRF24L01_Rx.py:123-140 | strip() is "" iff every character is white space |
| PyText.RStripKeepsFirst | PiRF24L01_Rx.py:123 | rstrip() of a text starting with a non-space is not empty |
| PyText.Slice | PiRF24L01_Rx.py:117-144 | slicing clamps both ends to the length, as Python does |
| PyText.SliceFrom | RPiRF24L01.py:388 | `xs[i:]`: the elements from i on, or nothing |
| PyText.DropLast | GPS_NEO_6.py:107 | `s[:-k]`: the prefix of length max(len - k, 0) |
| PyText.Spaces | PiRF24L01_Tx.py:179 | n spaces |
| PyText.RJust | PiRF24L01_Tx.py:179 | "{:>Ns}" has length max(N, len) |
| PyText.RJustParts | PiRF24L01_Tx.py:179-183 | "{:>Ns}" is the text preceded by spaces (never truncated) |
| PyText.Fmt1 | PiRF24L01_Tx.py:180-182 | "{:1.1s}" is exactly one character: the first, or a space |
| PyText.Hex2 | PiRF24L01.py:105 | "{:2X}" of a byte: two upper-case hex digits, space-padded below 16 |
| PyText.IntTextSignSpace | GPS_NEO_6.py:111 | int() accepts white space after the sign ("+ 3", " - 5 ") and leading zeros, and rejects a sign alone, a sign before white space only, and "" |
| PyText.FloatNotBlank | PiRF24L01_Rx.py:127-130 | float() rejects a blank text |
| PyText.LStripSpaces | PiRF24L01_Rx.py:117 | leading spaces do not change what lstrip() leaves |
| PyText.RJustFloat | PiRF24L01_Rx.py:117 | right-justifying does not change whether float() accepts a text |

## Left out

- Concurrency: the RPi.GPIO edge callback runs beside the main loop and could interleave bus transfers with it. Each callback is one atomic step on the board.
- Radio and hardware behaviour: the chip is the MISO oracle, so the model does not know whether a STATUS bit really clears or what the FIFOs hold.
- Floating point: `KNOTS_TO_MPH`, `float()` values and the `{:3.2f}`/`{:5.5f}` formats in `WriteLogLine` are the opaque pieces `Speed` and `Minutes`; so is the `lstrip('0')` of each formatted minutes value (PiRF24L01_Rx.py:131, 144), which acts on float text. Only whether `float()` raises is modelled.
- File and clock I/O: the log file's name, header and open/write are left out; the log is the sequence of lines written. `datetime.now()` is a parameter in microseconds. Sleeps are trace events.
- `print` and `sys.stdout` output: left out, except the bit echo and reply line of `PiRF24L01.py`, which are returned as text. `print` in the callbacks and `DisplaySatelliteData`'s printed text are not traced.
- `str()` of a Python list: `DisplaySatelliteData` takes each record's text as a parameter. `DisplayAddresses` (RPiRF24L01.py:430-468) is not modelled, because its text is made of `str()` of lists.
- The transmitter's `WriteLogLine`: it does nothing, so the callback drops the received line.
- Top-level programs: `setwarnings`, `setmode`, the LED set-up, `add_event_detect`, the bring-up calls and the infinite `while True` loops. One loop iteration is modelled for each program.
- `PiRF24L01_SPI_INVALID.py`: a wrapper over the `spidev` library, outside this model.
- `OpenGPS` (GPS_NEO_6.py:74-76): opening the serial port. `GetGpsData` reads a given sequence of chunks, and its `time.sleep(0.1)` is not traced.
- The commented-out alternative `Command` in `PiRF24L01.py`: `LoopPass` covers any command.
- DisplayStatus: the tests of `StatusReport` are stated per line. `{:d}` and `str()` of the pipeline number and CRC length are `NatToString`.
- An exception ends a Python program or a callback thread. Here it is an `Outcome` value, or the `raised` result of `Receiver.Callback`; what the runtime does afterwards is not modelled.

## Findings

| source | as written | input that shows it | evidently intended | confidence | as-written member | corrected member |
|---|---|---|---|---|---|---|
| RPiRF24L01.py:487-494 | `if RfSetup & RF24L01_RF_SETUP_0DBM` (mask 0x06) comes first. It holds for every non-zero power field, so the "10dBm " and "12dBm " branches are dead and the label is always "0dBm " | RF_SETUP = 0x04 (the driver's `RF24L01_RF_SETUP_10DBM`) prints "0dBm " | compare the power field `RfSetup & 0x06` with each setting constant, giving one label per setting | not executed | RF24L01Display.PowerLabelAsWrittenMislabels | RF24L01Display.PowerLabelDecode |
