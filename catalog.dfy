/**
 * The messages the host sends: the ANT link set-up commands and the
 * trainer's own broadcast commands, one variant per message class.
 */
module Catalog {
  import opened AntFrame

  /** One variant per `*Message` class the connection builds. */
  datatype Command =
    | Reset
    | SetNetworkKey(key: seq<byte>)
    | AssignChannel(channelType: byte)
    | SetChannelId(deviceType: byte)
    | SetChannelPeriod(period: int)
    | SetChannelRfFrequency(frequency: int)
    | OpenChannel
    | ResetHeadUnit
    | Continue
    | StartCycling
    | InitPCConnection
    | StartTimeSlope
    | Data01(slope: real, weight: int)
    | Data02

  /** The subclasses of `BroadcastMessage`: after one of these is acknowledged a send step ends. */
  predicate IsBroadcast(c: Command)
  {
    c.ResetHeadUnit? || c.Continue? || c.StartCycling? || c.InitPCConnection?
    || c.StartTimeSlope? || c.Data01? || c.Data02?
  }

  /** What `new Uint8Array(...)` stores for an integer: its value modulo 256. */
  function ToByte(x: int): (b: byte)
    ensures b as int == x % 256
  {
    ByteOfInt(x % 256);
    (x % 256) as byte
  }

  function ResetMessage(): Message
  {
    Message(0xA4, [0x00])
  }

  function SetNetworkKeyMessage(key: seq<byte>): Message
  {
    Message(0x46, [0x00] + key)
  }

  function AssignChannelMessage(channelType: byte): Message
  {
    Message(0x42, [0x00, channelType, 0x00])
  }

  function SetChannelIdMessage(deviceType: byte): Message
  {
    Message(0x51, [0x00, 0x00, 0x00, deviceType, 0x00])
  }

  /** The period goes out as an unsigned 16-bit little-endian value (`setUint16(0, period, true)`). */
  function SetChannelPeriodMessage(period: int): (m: Message)
    ensures m.msgType == 0x43 && |m.content| == 3 && m.content[0] == 0x00
    ensures m.content[1] as int + 256 * (m.content[2] as int) == period % 0x1_0000
  {
    var v := period % 0x1_0000;
    assert v == 256 * (v / 256) + v % 256 && (v % 256) % 256 == v % 256 && (v / 256) % 256 == v / 256;
    Message(0x43, [0x00, ToByte(v % 256), ToByte(v / 256)])
  }

  /** The RF frequency goes out as its offset from 2400 MHz. */
  function SetChannelRfFrequencyMessage(frequency: int): (m: Message)
    ensures m.msgType == 0x45 && |m.content| == 2 && m.content[0] == 0x00
    ensures 2400 <= frequency < 2400 + 256 ==> 2400 + m.content[1] as int == frequency
  {
    Message(0x45, [0x00, ToByte(frequency - 2400)])
  }

  function OpenChannelMessage(): Message
  {
    Message(0x4B, [0x00])
  }

  function BroadcastMessage(data: seq<byte>): (m: Message)
    ensures m.msgType == 0x4E && |m.content| == |data| + 1
    ensures m.content[0] == 0x00 && m.content[1..] == data
  {
    Message(0x4E, [0x00] + data)
  }

  function BushidoResetHeadUnitMessage(): Message
  {
    BroadcastMessage([0xAC, 0x03, 0x01, 0x00, 0x00, 0x00, 0x00, 0x00])
  }

  function BushidoContinueMessage(): Message
  {
    BroadcastMessage([0xAC, 0x03, 0x02, 0x00, 0x00, 0x00, 0x00, 0x00])
  }

  function BushidoStartCyclingMessage(): Message
  {
    BroadcastMessage([0xAC, 0x03, 0x03, 0x00, 0x00, 0x00, 0x00, 0x00])
  }

  function BushidoInitPCConnectionMessage(): Message
  {
    BroadcastMessage([0xAC, 0x03, 0x04, 0x00, 0x00, 0x00, 0x00, 0x00])
  }

  function BushidoStartTimeSlopeMessage(): Message
  {
    BroadcastMessage([0xDC, 0x0A, 0x00, 0x00, 0x00, 0x00, 0x00, 0x00])
  }

  /** `Math.round`: the nearest integer, halves rounded up. */
  function Round(x: real): (n: int)
    ensures n as real - 0.5 <= x < n as real + 0.5
  {
    (x + 0.5).Floor
  }

  /**
   * The slope in tenths of a percent, clamped to [-50, 200]
   * (`Math.max(-50, Math.min(200, Math.round(slope * 10.0)))`).
   */
  function CorrectedSlope(slope: real): (c: int)
    ensures -50 <= c <= 200
    ensures c == -50 <==> slope * 10.0 < -49.5
    ensures c == 200 <==> slope * 10.0 >= 199.5
    ensures -50 < c < 200 ==> c as real - 0.5 <= slope * 10.0 < c as real + 0.5
  {
    var r := Round(slope * 10.0);
    if r < -50 then -50 else if r > 200 then 200 else r
  }

  /**
   * Slope and weight: a negative corrected slope goes out as the marker 0xFF
   * followed by 256 + slope, any other as 0x00 followed by the slope itself.
   */
  function BushidoData01Message(slope: real, weight: int): (m: Message)
    ensures m.msgType == 0x4E && |m.content| == 9 && m.content[0] == 0x00
  {
    var c := CorrectedSlope(slope);
    if c < 0 then
      BroadcastMessage([0xDC, 0x01, 0x00, 0xFF, ToByte(256 + c), ToByte(weight), 0x00, 0x00])
    else
      BroadcastMessage([0xDC, 0x01, 0x00, 0x00, ToByte(c), ToByte(weight), 0x00, 0x00])
  }

  function BushidoData02Message(): Message
  {
    BroadcastMessage([0xDC, 0x02, 0x00, 0x99, 0x00, 0x00, 0x00, 0x00])
  }

  /** The message a command is sent as. */
  function ToMessage(c: Command): Message
  {
    match c
    case Reset => ResetMessage()
    case SetNetworkKey(key) => SetNetworkKeyMessage(key)
    case AssignChannel(t) => AssignChannelMessage(t)
    case SetChannelId(d) => SetChannelIdMessage(d)
    case SetChannelPeriod(p) => SetChannelPeriodMessage(p)
    case SetChannelRfFrequency(f) => SetChannelRfFrequencyMessage(f)
    case OpenChannel => OpenChannelMessage()
    case ResetHeadUnit => BushidoResetHeadUnitMessage()
    case Continue => BushidoContinueMessage()
    case StartCycling => BushidoStartCyclingMessage()
    case InitPCConnection => BushidoInitPCConnectionMessage()
    case StartTimeSlope => BushidoStartTimeSlopeMessage()
    case Data01(slope, weight) => BushidoData01Message(slope, weight)
    case Data02 => BushidoData02Message()
  }

  /** The message id a command is sent with (`getType()`). */
  function MsgType(c: Command): (t: byte)
    ensures t == ToMessage(c).msgType
  {
    if IsBroadcast(c) then BroadcastType(c) else LinkType(c)
  }

  function BroadcastType(c: Command): (t: byte)
    requires IsBroadcast(c)
    ensures t == ToMessage(c).msgType
  {
    0x4E
  }

  function LinkType(c: Command): (t: byte)
    requires !IsBroadcast(c)
    ensures t == ToMessage(c).msgType
  {
    match c
    case Reset => 0xA4
    case SetNetworkKey(_) => 0x46
    case AssignChannel(_) => 0x42
    case SetChannelId(_) => 0x51
    case SetChannelPeriod(_) => 0x43
    case SetChannelRfFrequency(_) => 0x45
    case OpenChannel => 0x4B
  }

  /** The slope the trainer reads back from a Data01 body's marker and value bytes. */
  function SignedSlope(marker: byte, value: byte): int
  {
    if marker == 0xFF then value as int - 256 else value as int
  }

  /**
   * A Data01 message carries the corrected slope, recovered from its marker
   * and value bytes; the marker is 0xFF exactly when the slope is negative.
   */
  lemma Data01Slope(slope: real, weight: int)
    ensures var m := BushidoData01Message(slope, weight);
      && SignedSlope(m.content[4], m.content[5]) == CorrectedSlope(slope)
      && (m.content[4] == 0xFF <==> CorrectedSlope(slope) < 0)
  {
    var c := CorrectedSlope(slope);
    var m := BushidoData01Message(slope, weight);
    assert m.content[4] == SlopeMarker(c) && m.content[5] == SlopeValue(c);
    SlopeBytes(c);
  }

  function SlopeMarker(c: int): byte
  {
    if c < 0 then 0xFF else 0x00
  }

  function SlopeValue(c: int): byte
  {
    if c < 0 then ToByte(256 + c) else ToByte(c)
  }

  /** The marker and value bytes of a slope in [-50, 200] read back as that slope. */
  lemma SlopeBytes(c: int)
    requires -50 <= c <= 200
    ensures SignedSlope(SlopeMarker(c), SlopeValue(c)) == c
    ensures SlopeMarker(c) == 0xFF <==> c < 0
  {
    if c < 0 {
      assert (256 + c) % 256 == 256 + c;
    } else {
      assert c % 256 == c;
    }
  }

  /** The rest of a Data01 body: its command bytes, the weight at body byte 5, two zero bytes. */
  lemma Data01Layout(slope: real, weight: int)
    ensures var m := BushidoData01Message(slope, weight);
      && m.content[1..4] == [0xDC, 0x01, 0x00]
      && m.content[6] as int == weight % 256
      && m.content[7..] == [0x00, 0x00]
  {
    var m := BushidoData01Message(slope, weight);
    var c := CorrectedSlope(slope);
    assert m.content == [0x00, 0xDC, 0x01, 0x00, SlopeMarker(c), SlopeValue(c), ToByte(weight), 0x00, 0x00];
  }

  /** Exactly the broadcast commands are sent with message id 0x4E. */
  lemma BroadcastIffType(c: Command)
    ensures IsBroadcast(c) <==> ToMessage(c).msgType == 0x4E
  {
    assert MsgType(c) == ToMessage(c).msgType;
  }

  /** Every broadcast command carries channel 0 and an eight-byte body. */
  lemma BroadcastShape(c: Command)
    requires IsBroadcast(c)
    ensures |ToMessage(c).content| == 9 && ToMessage(c).content[0] == 0x00
  {
  }

  /** The link set-up of `_initializeANTConnection`; the channel-type argument reaches the wire as 0x00. */
  const AntBringUp: seq<Command> :=
    [Reset, AssignChannel(0x00), SetChannelId(0x52), SetChannelPeriod(4096),
     SetChannelRfFrequency(2460), OpenChannel]

  /** The trainer start-up of `_initializeBushidoConnection`. */
  const BushidoBringUp: seq<Command> := [InitPCConnection, ResetHeadUnit, StartCycling]

  /** The Reset command on the wire, byte for byte. */
  lemma ResetFrame()
    ensures Encode(ToMessage(Reset)) == [0xA4, 0x01, 0xA4, 0x00, 0x01]
  {
    var m := ToMessage(Reset);
    assert m == Message(0xA4, [0x00]);
    HeaderOf(m, 0x01);
    var h: seq<byte> := [0xA4, 0x01, 0xA4, 0x00];
    assert Header(m) + m.content == h;
    XorFoldOf4(0xA4, 0x01, 0xA4, 0x00);
  }

  /** A channel period of 4096 is sent low byte first: 0x00, 0x10. */
  lemma PeriodFrame()
    ensures ToMessage(SetChannelPeriod(4096)).content == [0x00, 0x00, 0x10]
    ensures Encode(ToMessage(SetChannelPeriod(4096))) == [0xA4, 0x03, 0x43, 0x00, 0x00, 0x10, 0xF4]
  {
    assert 4096 % 0x1_0000 == 4096;
    assert 4096 % 256 == 0 && 4096 / 256 == 16;
    assert ToByte(0) == 0x00 && ToByte(16) == 0x10;
    assert SetChannelPeriodMessage(4096).content == [0x00, 0x00, 0x10];
    var m := ToMessage(SetChannelPeriod(4096));
    assert m == Message(0x43, [0x00, 0x00, 0x10]);
    HeaderOf(m, 0x03);
    var p4: seq<byte> := [0xA4, 0x03, 0x43, 0x00];
    XorFoldOf4(0xA4, 0x03, 0x43, 0x00);
    XorFoldSnoc(p4, 0x00);
    XorFoldSnoc(p4 + [0x00], 0x10);
    assert Header(m) + m.content == p4 + [0x00] + [0x10];
  }

  /** An RF frequency of 2460 MHz is sent as the offset 60. */
  lemma FrequencyContent()
    ensures ToMessage(SetChannelRfFrequency(2460)).content == [0x00, 60]
  {
    assert 2460 - 2400 == 60 && 60 % 256 == 60;
    assert ToByte(2460 - 2400) == 60 as byte;
  }

  /** Slope -5.5 % at 70 kg: the clamped slope -50 goes out as 0xFF, 0xCE. */
  lemma Data01Example()
    ensures ToMessage(Data01(-5.5, 70)).content == [0x00, 0xDC, 0x01, 0x00, 0xFF, 0xCE, 0x46, 0x00, 0x00]
  {
    assert -5.5 * 10.0 == -55.0;
    assert Round(-55.0) == -55;
    assert CorrectedSlope(-5.5) == -50;
    assert ToByte(206) == 0xCE by { assert 206 % 256 == 206; }
    assert ToByte(70) == 0x46 by { assert 70 % 256 == 70; }
    var body: seq<byte> := [0xDC, 0x01, 0x00, 0xFF, 0xCE, 0x46, 0x00, 0x00];
    assert BushidoData01Message(-5.5, 70) == BroadcastMessage(body);
  }
}
