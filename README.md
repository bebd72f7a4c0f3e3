# Bushido trainer link and slope controller, in Dafny

This project models the protocol and control core of a browser front end for
a Tacx Bushido smart trainer. The trainer is reached over USB through an ANT
radio stick. The model covers four parts:

- **ANT frame codec** (`ant_frame.dfy`, module `AntFrame`): a frame is the
  sync byte 0xA4, a length byte, a message id, the content and an XOR
  checksum. The module defines `Encode`, which builds a frame as
  `Message.encode` does. `Parse` specifies `_receiveMessage`: skip bytes up to
  the next sync byte, then read one frame there (`ReadFrame`), and refuse it
  when the checksum does not match. `ReceiveMessage` is that loop, proved
  equal to `Parse`.
- **Command catalog** (`catalog.dfy`, module `Catalog`): one `Command`
  variant per `*Message` class. Each variant has a builder with the same
  message id and content bytes, including:
  - the little-endian channel period;
  - the RF frequency as its offset from 2400 MHz;
  - the Data01 slope encoding, a 0xFF/0x00 marker followed by
    `256 + slope` or `slope`, with the slope clamped to [-50, 200] tenths of
    a percent.
- **Connection** (`connection.dfy`, module `Connection`, class
  `BushidoUSB`): the outgoing queue and its start-up commands, and the send
  step of `_sendMessage`. The send step sends queued messages in order and
  waits for each one's acknowledgement. It stops after the first broadcast
  command. The dispatcher `_processMessage` updates the telemetry record and
  the pause flag, queues the response commands and fires callbacks.
  `Dispatch` is its specification as a function. `Tick` is one pass of the
  `run` loop.
- **Resistance controller** (`simulator.dfy`, module `Simulator`, class
  `BushidoSimulator`): `onDistanceUpdated` adds the seek offset to the
  distance. It then picks the 20 m route segment `ceil(distance / 20)` and
  writes that segment's slope through `setSlope`, limited to within
  `MAX_SLOPE_CHANGE = 1.0` of the current slope. `seek` shifts the offset and
  steers again.

The integer arithmetic of the telemetry record (`telemetry.dfy`, module
`Telemetry`) is written out with JavaScript's 32-bit shift semantics. The
distance expression `(((d2 << 24) + d3 << 16) + d4 << 8) + d5` groups as
`((((d2 << 24) + d3) << 16) + d4) << 8) + d5`, because `+` binds tighter than
`<<`. The model keeps that literal reading. `LiteralDistanceIsBigEndianIff`
proves that it agrees with a big-endian reading exactly when the two high
bytes are zero, that is for distances below 65536 m.
`LiteralDistanceMisreads65536` shows that 65536 m is read as 2^24 m.

Byte values are the values the wire carries. `new Uint8Array(...)` reduces
every array element modulo 256 (`Catalog.ToByte`), and the low eight bits of
a JavaScript XOR depend only on the low eight bits of its operands. So the
checksum over the stored array and the checksum over the bytes agree.
`_initializeANTConnection` passes an array as the channel type of
`AssignChannelMessage` (`bushido.usb.js:264`). That array becomes 0 in
both the `Uint8Array` and the XOR, so the model queues
`AssignChannel(0x00)`.

`getData`, `isPaused` and `isConnected` are the reader functions
`BushidoUSB.GetData`, `IsPaused` and `IsConnected`. Their contracts would only
repeat their bodies, so they have no row below.

The telemetry record `BushidoData` (`bushido.usb.js:175-187`) is the datatype
`Telemetry.BushidoData`, and its initial value, all zero except a weight of
70, is the constant `Telemetry.InitialData`. The connection's constructor
starts from it (row `Connection.BushidoUSB.constructor`).

What the code does not do, and the model therefore does not do either:

- `seek` does not check the offset against a negative effective distance.
- No button frame (0xDD/0x10) is handled, and there is no button debounce.
- No per-segment sample of the telemetry is logged.
- There is no connection-state enumeration; the state is the `connected`,
  `running` and `isPaused` fields.
- The 0xDD/0x02 distance is not read big-endian (see above).

## Model

| member | source | states |
|---|---|---|
| AntFrame.XorFold | bushido.usb.js:18-22 | the `reduce((prev, cur) => prev ^ cur, 0)` fold: zero for no bytes, and each byte XORed onto the fold of those before it |
| AntFrame.XorFoldAppend | bushido.usb.js:18-22 | the fold of a concatenation is the XOR of the folds of its parts |
| AntFrame.Header | bushido.usb.js:10-16 | the header is three bytes: the sync byte 0xA4, the content length modulo 256 (as `Uint8Array` stores it), and the message id |
| AntFrame.Checksum | bushido.usb.js:18-22 | the checksum is the XOR fold of header and content |
| AntFrame.ChecksumUnique | bushido.usb.js:18-22 | appended to header and content, the checksum makes the frame fold to zero, and no other byte does |
| AntFrame.Encode | bushido.usb.js:24-29 | a frame is four bytes longer than the content |
| AntFrame.EncodeLayout | bushido.usb.js:10-29 | frame = sync 0xA4, content length, message id, content, then a checksum equal to the XOR of all preceding bytes, so the whole frame XORs to zero |
| AntFrame.LengthByte | bushido.usb.js:10-16 | the length byte of a frame with at most 255 content bytes is the content length |
| AntFrame.XorFoldUpdate | bushido.usb.js:18-22 | overwriting one byte changes the checksum fold by the XOR of the old and the new byte |
| AntFrame.Parse | bushido.usb.js:316-333 | one read consumes the message's content plus four bytes at least, and never more than the input |
| AntFrame.ReadFrame | bushido.usb.js:320-329 | the frame at a sync byte: length byte, then id, that many content bytes and the checksum; a message is read only when the checksum matches |
| AntFrame.ParseDecomposes | bushido.usb.js:316-333 | converse of the round trip: whatever is read is an encoded frame of at most 255 content bytes, preceded only by non-sync bytes and followed by the unread rest |
| AntFrame.ReceiveMessage | bushido.usb.js:316-333 | the read loop returns exactly what the frame parser specifies for the input stream |
| AntFrame.ParseFrameAt | bushido.usb.js:320-329 | a frame starting at the sync byte is read back as its message and the rest of the input, or as a checksum error when the trailing byte is not the checksum |
| AntFrame.ParseSkips | bushido.usb.js:318-320 | bytes other than the sync byte before a frame are skipped without effect |
| AntFrame.ParseEncode | bushido.usb.js:316-333 | round trip: junk without sync bytes, then an encoded message, parses back to that message, leaving the following bytes unread |
| AntFrame.ParseBadChecksum | bushido.usb.js:327-329 | a frame whose trailing byte differs from the checksum is refused with a checksum error |
| AntFrame.CorruptedFrameRejected | bushido.usb.js:327-329 | changing any single id or content byte of an encoded frame makes the read fail with a checksum error |
| Catalog.ToByte | bushido.usb.js:28 | a stored array element reaches the wire as its value modulo 256 |
| Catalog.IsBroadcast | bushido.usb.js:313 | the commands whose classes extend `BroadcastMessage`: reset-head-unit, continue, start-cycling, init-PC-connection, start-time-slope, Data01 and Data02 |
| Catalog.ToMessage | bushido.usb.js:48-172 | each command is sent as the message its class builds |
| Catalog.ResetMessage | bushido.usb.js:48-53 | id 0xA4, content 00 |
| Catalog.SetNetworkKeyMessage | bushido.usb.js:56-61 | id 0x46, content 00 followed by the key |
| Catalog.AssignChannelMessage | bushido.usb.js:64-69 | id 0x42, content 00, the channel type, 00 |
| Catalog.SetChannelIdMessage | bushido.usb.js:72-77 | id 0x51, content 00 00 00, the device type, 00 |
| Catalog.OpenChannelMessage | bushido.usb.js:99-104 | id 0x4B, content 00 |
| Catalog.BushidoResetHeadUnitMessage | bushido.usb.js:115-120 | broadcast of AC 03 01 00 00 00 00 00 |
| Catalog.BushidoContinueMessage | bushido.usb.js:123-128 | broadcast of AC 03 02 00 00 00 00 00 |
| Catalog.BushidoStartCyclingMessage | bushido.usb.js:131-136 | broadcast of AC 03 03 00 00 00 00 00 |
| Catalog.BushidoInitPCConnectionMessage | bushido.usb.js:139-144 | broadcast of AC 03 04 00 00 00 00 00 |
| Catalog.BushidoStartTimeSlopeMessage | bushido.usb.js:147-152 | broadcast of DC 0A 00 00 00 00 00 00 |
| Catalog.BushidoData02Message | bushido.usb.js:167-172 | broadcast of DC 02 00 99 00 00 00 00 |
| Catalog.SetChannelPeriodMessage | bushido.usb.js:80-88 | id 0x43, channel 0, then the period modulo 2^16 as two bytes, low byte first |
| Catalog.SetChannelRfFrequencyMessage | bushido.usb.js:91-96 | id 0x45, channel 0, then one byte that for 2400..2655 MHz is the offset from 2400 |
| Catalog.BroadcastMessage | bushido.usb.js:107-112 | id 0x4E, channel 0, then the data bytes unchanged |
| Catalog.BushidoData01Message | bushido.usb.js:155-165 | a Data01 command is a nine-byte broadcast on channel 0 |
| Catalog.Round | bushido.usb.js:158 | `Math.round`: the result lies within one half of the argument, halves rounding up |
| Catalog.CorrectedSlope | bushido.usb.js:158 | the slope in tenths is in [-50, 200], hits -50 / 200 exactly when the scaled slope rounds below / above those bounds, and otherwise is the rounded scaled slope |
| Catalog.MsgType | bushido.usb.js:35-37 | the message id of a command's message (`getType()`) |
| Catalog.BroadcastType | bushido.usb.js:107-112 | every broadcast command is sent with id 0x4E |
| Catalog.LinkType | bushido.usb.js:48-104 | each link command's id is that of its message class |
| Catalog.SlopeBytes | bushido.usb.js:159-163 | the marker and value bytes of a slope in [-50, 200] decode back to that slope, and the marker is 0xFF exactly for negative slopes |
| Catalog.Data01Slope | bushido.usb.js:155-165 | a Data01 message carries the corrected slope in body bytes 3 and 4, recoverable by the marker rule; the marker is 0xFF iff the slope is negative |
| Catalog.Data01Layout | bushido.usb.js:160-162 | the rest of a Data01 body: 0xDC 0x01 0x00, the weight modulo 256, then two zero bytes |
| Catalog.BroadcastIffType | bushido.usb.js:107-172 | a command is a broadcast exactly when its message id is 0x4E |
| Catalog.BroadcastShape | bushido.usb.js:115-172 | every broadcast command carries channel 0 and an eight-byte body |
| Catalog.ResetFrame | bushido.usb.js:48-53 | the reset command goes out as A4 01 A4 00 01 |
| Catalog.PeriodFrame | bushido.usb.js:80-88 | period 4096 goes out as content 00 00 10, frame A4 03 43 00 00 10 F4 |
| Catalog.FrequencyContent | bushido.usb.js:91-96 | 2460 MHz goes out as content 00 3C |
| Catalog.Data01Example | bushido.usb.js:155-165 | slope -5.5 % at 70 kg is clamped to -50 and goes out as 00 DC 01 00 FF CE 46 00 00 |
| Telemetry.ToInt32 | bushido.usb.js:346 | ECMAScript ToInt32 lands in the signed 32-bit range and differs from its argument by a multiple of 2^32 |
| Telemetry.ShiftLeft | bushido.usb.js:346 | `a << n` is the signed 32-bit value congruent to `ToInt32(a) * 2^n` modulo 2^32 |
| Telemetry.ShiftByteClearsLow | bushido.usb.js:346 | a shift by 8 leaves the low byte zero |
| Telemetry.LiteralDistance | bushido.usb.js:346 | the distance expression adds the last byte to a signed 32-bit value whose low byte is zero (see `LiteralDistanceLowByte`) |
| Telemetry.LiteralDistanceLowByte | bushido.usb.js:346 | for any four values, the distance less the last byte is a signed 32-bit value with a zero low byte |
| Telemetry.U16 | bushido.usb.js:340-341 | `(hi << 8) + lo` is a 16-bit value whose high and low bytes are `hi` and `lo` |
| Telemetry.ShiftTopByte | bushido.usb.js:346 | `d2 << 24` is `d2 * 2^24`, less 2^32 from 128 on |
| Telemetry.ShiftOutTop | bushido.usb.js:346 | shifting `(d2 << 24) + d3` by 16 leaves only `d3 * 2^16`: the first byte is lost |
| Telemetry.ShiftLow | bushido.usb.js:346 | the last shift by 8 gives the 32-bit value of `d3 * 2^24 + d4 * 2^8` |
| Telemetry.LiteralDistanceValue | bushido.usb.js:346 | the distance expression equals `ToInt32(d3 * 2^24 + d4 * 2^8) + d5` for all byte inputs |
| Telemetry.LiteralDistanceIsBigEndianIff | bushido.usb.js:346 | the distance expression equals the big-endian reading of its four bytes if and only if the first two bytes are zero |
| Telemetry.LiteralDistanceShort | bushido.usb.js:346 | with both high bytes zero the distance is `d4 * 256 + d5` |
| Telemetry.LiteralDistanceMisreads65536 | bushido.usb.js:346 | 65536 m, sent big-endian as 00 01 00 00, is read as 2^24 m |
| Connection.IsAck | bushido.usb.js:302-309 | a frame ends the wait for a sent id when its id is 0x40 and content byte 1 is the sent id, or content bytes 1 and 2 are 01 03 |
| Connection.FirstAck | bushido.usb.js:300-311 | the first frame that ends the acknowledgement wait: an ack for the sent id, or the EVENT_TX (01 03) channel event, with none before it |
| Connection.DrainCount | bushido.usb.js:288-313 | a send step takes messages from the queue up to and including the first broadcast, or the whole queue, and at least one message when the queue is not empty |
| Connection.AckWaitsLength | bushido.usb.js:288-313 | the waits for a run of sent messages consume at most the inbound frames available |
| Connection.AwaitAck | bushido.usb.js:300-311 | the wait loop consumes frames up to and including the first acknowledgement, which is the only ack among them |
| Connection.Dispatch | bushido.usb.js:335-367 | a frame queues at most two commands and fires at most two callbacks; a frame that fires no callback changes neither the record, the flag nor the queue |
| Connection.DispatchIgnores | bushido.usb.js:338-366 | a frame that is neither 0xDD/0x01, 0x02 or 0x03 telemetry nor an 0xAD 01 02 resume or 0xAD 01 03 pause changes nothing and fires no callback |
| Connection.DispatchKeepsSetpoint | bushido.usb.js:335-367 | dispatching a frame never changes the commanded slope or the weight |
| Connection.DispatchQueues | bushido.usb.js:354-366 | a pause frame sets the flag, queues one Continue and fires onPaused; a resume frame clears it, queues Data01 with the current slope and weight then Data02, and fires onResumed; no other frame queues anything or changes the flag |
| Connection.DispatchEvents | bushido.usb.js:338-353 | each telemetry frame fires one onDataUpdated with the new record; onDistanceUpdated follows only for a 0xDD/0x02 frame that changed the distance, with the new distance |
| Connection.DispatchDistance | bushido.usb.js:344-347 | a 0xDD/0x02 frame sets the distance to the literal expression over payload bytes 2 to 5 |
| Connection.ShortDistanceBytes | bushido.usb.js:346 | a payload whose distance bytes 2 and 3 are zero yields bytes 4 and 5 read big-endian |
| Connection.DispatchShortDistance | bushido.usb.js:344-349 | a 0xDD/0x02 frame with zero high distance bytes sets the big-endian value of the low two |
| Connection.BushidoUSB.constructor | bushido.usb.js:192-211 | fresh connection: initial record (weight 70), not paused, empty queue, not connected, not running |
| Connection.BushidoUSB.SetSlope | bushido.usb.js:217-219 | only the record's slope changes |
| Connection.BushidoUSB.QueueMessage | bushido.usb.js:369-371 | the command is appended to the queue |
| Connection.BushidoUSB.InitializeANTConnection | bushido.usb.js:262-269 | the six link commands are appended in order |
| Connection.BushidoUSB.InitializeBushidoConnection | bushido.usb.js:271-275 | init-PC-connection, reset-head-unit and start-cycling are appended in order |
| Connection.BushidoUSB.SendData | bushido.usb.js:277-280 | Data01 with the current slope and weight, then Data02, are appended |
| Connection.BushidoUSB.Continue | bushido.usb.js:282-284 | one Continue is appended |
| Connection.BushidoUSB.Run | bushido.usb.js:247-254 | the link and trainer start-up are queued, then the connection is marked connected and running |
| Connection.BushidoUSB.SendMessage | bushido.usb.js:286-313 | the send step sends exactly the first DrainCount queued messages and leaves the rest queued; each sent message is paired with the frames of its wait, which ends in its ack; the waits and the unread rest make up the inbound frames |
| Connection.BushidoUSB.ProcessMessage | bushido.usb.js:335-367 | the record, flag, queue and fired callbacks are those `Dispatch` specifies, with the queued commands appended |
| Connection.BushidoUSB.Tick | bushido.usb.js:255-259 | one pass of the run loop: a send step, then the next frame after the waits is dispatched |
| Connection.FirstSendStep | bushido.usb.js:247-275 | the first send step after start-up sends the six link commands and init-PC-connection, leaving reset-head-unit and start-cycling queued |
| Simulator.SegmentIndex | bushido.sim.js:124 | `Math.ceil(distance / 20)`: the distance lies in the 20 m segment ending at 20 times the index |
| Simulator.SegmentIndexUnique | bushido.sim.js:124 | every distance has exactly one segment index |
| Simulator.LimitSlope | bushido.sim.js:129 | the next slope is within 1.0 of the current one; it is the target when the target is that close, and otherwise saturates toward it |
| Simulator.LimitSlopeTowardTarget | bushido.sim.js:129 | the limited slope lies between the current slope and the target |
| Simulator.ApproachReaches | bushido.sim.js:121-138 | within one segment the commanded slope reaches the segment slope after as many updates as 1.0-steps separate them |
| Simulator.NextSlope | bushido.sim.js:124-132 | the written slope is within 1.0 of the current one, and is unchanged when the index is outside the route |
| Simulator.NextSlopeTakesNearTarget | bushido.sim.js:128-132 | inside the route, a segment slope within 1.0 of the current one is taken exactly |
| Simulator.Steer | bushido.sim.js:121-133 | steering changes only the record's slope, by at most 1.0, and nothing at all when the corrected distance is outside the route |
| Simulator.BushidoSimulator.constructor | bushido.sim.js:32-50 | offset, progressed distance and subprogress start at zero; the connection and route are kept |
| Simulator.BushidoSimulator.OnDistanceUpdated | bushido.sim.js:121-138 | the connection's record is steered at distance + offset; the progressed distance becomes that corrected distance and the subprogress resets |
| Simulator.BushidoSimulator.Seek | bushido.sim.js:72-75 | the offset moves by the value, then the controller steers again at the connection's current distance plus the new offset |
| Simulator.BushidoSimulator.OnEvent | bushido.sim.js:52-57 | a distance callback steers; the data, pause and resume callbacks leave the controller and the record unchanged |

## Left out

- WebUSB device selection, opening and transfers (`init`, `transferIn`,
  `transferOut`): inbound data is a given byte sequence or frame sequence,
  and sending is recorded as the sequence of sent commands.
- The once-per-second retransmission (`setInterval`) during an
  acknowledgement wait: it re-sends identical bytes and changes no state the
  model keeps.
- The endless `run` loop and `async`/`await`: `Run` models the start-up and
  `Tick` one pass of the loop.
- AntFrame.ReceiveMessage: when the input ends before a whole frame it
  returns `Starved`, where the source's read would block.
- Connection.BushidoUSB.SendMessage: works on already parsed frames, so a
  checksum error during an acknowledgement wait, which the source lets
  propagate out of `run`, is not modelled.
- Connection.BushidoUSB.SendMessage: requires that every wait of the step
  ends within the given frames; the source would wait for ever otherwise.
- Connection.BushidoUSB.ProcessMessage: requires telemetry frames to carry
  every payload byte they are read at; the source would store `NaN` or
  `undefined` from a short frame.
- Connection.BushidoUSB.Tick: has the same requirements as SendMessage and
  ProcessMessage, and needs one more frame after the waits.
- Callbacks are recorded as events whether or not one is registered; the
  simulator registers all four. Their bodies only redraw the page, except
  `onDistanceUpdated`, which is `BushidoSimulator.OnDistanceUpdated`.
- The data callback receives the connection's live record object; the model
  records a copy of its value at the time of the call.
- Logging (`_log_info`, `console.log`), and the page rendering, map, chart,
  GPX parsing and smoothing of the simulator (`start`, `_smooth`,
  `_drawChart`, `_renderLoop`, `MathHelpers`): the route is given to the
  constructor as its segment slopes.
- `SetNetworkKeyMessage` is built but never queued by the source; it is in
  the catalog with no lemma about it.
- Floating-point numbers are modelled as mathematical reals (speed, slope);
  `Math.round` is `floor(x + 0.5)`.
- Catalog.SetChannelRfFrequencyMessage: its offset property is stated for
  2400..2655 MHz only; outside that range the byte is the offset modulo 256.
- AntFrame.EncodeLayout: stated for content of at most 255 bytes; longer
  content would wrap the length byte, and every message the source builds
  is shorter.
- AntFrame.CorruptedFrameRejected: covers a change to the message id or a
  content byte; a changed sync or length byte moves where the frame is
  read instead.
