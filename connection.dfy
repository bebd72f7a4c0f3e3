/**
 * The trainer connection (`BushidoUSB`): the outgoing queue, the send step
 * that waits for each message's acknowledgement, and the dispatcher that
 * turns inbound frames into telemetry updates, pause/resume state and
 * response commands. The USB transfers are replaced by a sequence of
 * inbound frames; callbacks are recorded as a sequence of events.
 */
module Connection {
  import opened AntFrame
  import opened Catalog
  import opened Telemetry

  datatype Option<T> = None | Some(value: T)

  /** The callbacks the connection invokes (`onDataUpdated`, `onDistanceUpdated`, `onPaused`, `onResumed`). */
  datatype Event =
    | DataUpdated(snapshot: BushidoData)
    | DistanceUpdated(distance: int)
    | Paused
    | Resumed

  // ---------------------------------------------------------------- send step

  /**
   * A frame that ends the wait for a sent message of type `sentType`: a
   * channel response/event (id 0x40) whose byte 1 names that type, or whose
   * bytes 1 and 2 are the EVENT_TX channel event (0x01, 0x03).
   */
  predicate IsAck(frame: Message, sentType: byte)
  {
    frame.msgType == 0x40
    && ((|frame.content| > 1 && frame.content[1] == sentType)
        || (|frame.content| > 2 && frame.content[1] == 0x01 && frame.content[2] == 0x03))
  }

  /** The position of the first frame that ends a wait for `sentType`, if any. */
  function FirstAck(frames: seq<Message>, sentType: byte): (r: Option<nat>)
    ensures r.Some? ==> r.value < |frames| && IsAck(frames[r.value], sentType)
    ensures forall j :: 0 <= j < |frames| && (r.None? || j < r.value) ==> !IsAck(frames[j], sentType)
  {
    if frames == [] then None
    else if IsAck(frames[0], sentType) then Some(0)
    else
      match FirstAck(frames[1..], sentType)
      case None => None
      case Some(k) => Some(k + 1)
  }

  /** The frames read while waiting for one acknowledgement: it ends with the first frame that ends the wait. */
  predicate IsAckWait(wait: seq<Message>, sentType: byte)
  {
    && |wait| > 0
    && IsAck(wait[|wait| - 1], sentType)
    && forall j :: 0 <= j < |wait| - 1 ==> !IsAck(wait[j], sentType)
  }

  /**
   * How many messages one send step takes from the head of the queue: all
   * of them up to and including the first broadcast, or the whole queue.
   */
  function DrainCount(queue: seq<Command>): (n: nat)
    ensures n <= |queue| && (queue != [] ==> n > 0)
    ensures forall i :: 0 <= i < n - 1 ==> !IsBroadcast(queue[i])
    ensures n < |queue| ==> IsBroadcast(queue[n - 1])
  {
    if queue == [] then 0
    else if IsBroadcast(queue[0]) then 1
    else 1 + DrainCount(queue[1..])
  }

  /**
   * How many inbound frames the waits for `cmds`, sent one after another,
   * consume; None when one of the waits would not end within `frames`.
   */
  function AckWaitsLength(cmds: seq<Command>, frames: seq<Message>): (r: Option<nat>)
    ensures r.Some? ==> r.value <= |frames|
    decreases |cmds|
  {
    if cmds == [] then Some(0)
    else
      match FirstAck(frames, MsgType(cmds[0]))
      case None => None
      case Some(k) =>
        match AckWaitsLength(cmds[1..], frames[k + 1..])
        case None => None
        case Some(n) => Some(k + 1 + n)
  }

  function Concat(waits: seq<seq<Message>>): seq<Message>
  {
    if waits == [] then [] else Concat(waits[..|waits| - 1]) + waits[|waits| - 1]
  }

  /** The frames up to and including the first acknowledgement form a wait. */
  lemma AckWaitPrefix(frames: seq<Message>, sentType: byte, i: nat)
    requires FirstAck(frames, sentType).Some? && i == FirstAck(frames, sentType).value + 1
    ensures IsAckWait(frames[..i], sentType)
  {
    assert forall j :: 0 <= j < i ==> frames[..i][j] == frames[j];
  }

  /** The inner loop of `_sendMessage`: read frames until one acknowledges the sent type. */
  method AwaitAck(frames: seq<Message>, sentType: byte) returns (wait: seq<Message>, rest: seq<Message>)
    requires FirstAck(frames, sentType).Some?
    ensures frames == wait + rest
    ensures IsAckWait(wait, sentType)
    ensures |wait| == FirstAck(frames, sentType).value + 1
  {
    var i := 0;
    while true
      invariant i <= FirstAck(frames, sentType).value
      decreases |frames| - i
    {
      var inMsg := frames[i];
      i := i + 1;
      if inMsg.msgType == 0x40 {
        if |inMsg.content| > 1 && inMsg.content[1] == sentType {
          break;
        } else if |inMsg.content| > 2 && inMsg.content[1] == 0x01 && inMsg.content[2] == 0x03 {
          break;
        }
      }
    }
    wait, rest := frames[..i], frames[i..];
    AckWaitPrefix(frames, sentType, i);
  }

  // ---------------------------------------------------------------- dispatch

  /** The content with its first (channel) byte removed, as `data.shift()` leaves it. */
  function Payload(m: Message): seq<byte>
  {
    if |m.content| == 0 then [] else m.content[1..]
  }

  predicate IsTelemetry(d: seq<byte>, subtype: byte)
  {
    |d| > 1 && d[0] == 0xDD && d[1] == subtype
  }

  predicate IsResume(d: seq<byte>)
  {
    |d| > 2 && d[0] == 0xAD && d[1] == 0x01 && d[2] == 0x02
  }

  predicate IsPause(d: seq<byte>)
  {
    |d| > 2 && d[0] == 0xAD && d[1] == 0x01 && d[2] == 0x03
  }

  /** The distance of a 0xDD/0x02 payload: the literal expression over its bytes 2 to 5. */
  function DistanceBytes(d: seq<byte>): int
    requires |d| > 5
  {
    LiteralDistance(d[2] as int, d[3] as int, d[4] as int, d[5] as int)
  }

  lemma ShortDistanceBytes(d: seq<byte>)
    requires |d| > 5 && d[2] == 0 && d[3] == 0
    ensures DistanceBytes(d) == d[4] as int * 256 + d[5] as int
  {
    assert d[2] as int == 0 && d[3] as int == 0;
    LiteralDistanceShort(d[4] as int, d[5] as int);
  }

  /** Telemetry frames carry every byte the dispatcher reads from them. */
  predicate Decodable(m: Message)
  {
    var d := Payload(m);
    && (IsTelemetry(d, 0x01) || IsTelemetry(d, 0x02) ==> |d| > 6)
    && (IsTelemetry(d, 0x03) ==> |d| > 4)
  }

  /** What dispatching one frame does: the new record and flag, the commands it queues, the callbacks it fires. */
  datatype Outcome = Outcome(data: BushidoData, isPaused: bool, queued: seq<Command>, events: seq<Event>)

  /** `_processMessage` as a function of the record, the pause flag and the frame. */
  function Dispatch(data: BushidoData, isPaused: bool, message: Message): (o: Outcome)
    requires Decodable(message)
    ensures |o.queued| <= 2 && |o.events| <= 2
    ensures o.events == [] ==> o == Outcome(data, isPaused, [], [])
  {
    var d := Payload(message);
    if IsTelemetry(d, 0x01) then
      var data' := data.(speed := U16(d[2] as int, d[3] as int) as real / 10.0,
                         power := U16(d[4] as int, d[5] as int),
                         cadence := d[6] as int);
      Outcome(data', isPaused, [], [DataUpdated(data')])
    else if IsTelemetry(d, 0x02) then
      var data' := data.(distance := DistanceBytes(d),
                         heartRate := d[6] as int);
      var moved := if data'.distance != data.distance then [DistanceUpdated(data'.distance)] else [];
      Outcome(data', isPaused, [], [DataUpdated(data')] + moved)
    else if IsTelemetry(d, 0x03) then
      var data' := data.(breakTemp := d[4] as int);
      Outcome(data', isPaused, [], [DataUpdated(data')])
    else if IsResume(d) then
      Outcome(data, false, [Data01(data.slope, data.weight), Data02], [Resumed])
    else if IsPause(d) then
      Outcome(data, true, [Catalog.Continue], [Paused])
    else
      Outcome(data, isPaused, [], [])
  }

  /**
   * Dispatch never touches the commanded slope or the weight: only the
   * resistance controller sets the slope.
   */
  lemma DispatchKeepsSetpoint(data: BushidoData, isPaused: bool, message: Message)
    requires Decodable(message)
    ensures var o := Dispatch(data, isPaused, message);
      o.data.slope == data.slope && o.data.weight == data.weight
  {
  }

  /**
   * Only pause and resume frames queue commands or change the pause flag: a
   * pause queues exactly one Continue, a resume Data01 with the current slope
   * and weight followed by Data02. Every other frame leaves both alone.
   */
  lemma DispatchQueues(data: BushidoData, isPaused: bool, message: Message)
    requires Decodable(message)
    ensures var o := Dispatch(data, isPaused, message); var d := Payload(message);
      && (IsPause(d) ==> o.isPaused && o.queued == [Catalog.Continue] && o.events == [Paused] && o.data == data)
      && (IsResume(d) ==> !o.isPaused && o.queued == [Data01(data.slope, data.weight), Data02]
                          && o.events == [Resumed] && o.data == data)
      && (!IsPause(d) && !IsResume(d) ==> o.queued == [] && o.isPaused == isPaused)
  {
  }

  /**
   * Every telemetry frame fires exactly one data-updated event, carrying the
   * new record; a distance event follows only for a 0xDD/0x02 frame, and
   * only when the distance changed, carrying the new distance.
   */
  lemma DispatchEvents(data: BushidoData, isPaused: bool, message: Message)
    requires Decodable(message)
    ensures var o := Dispatch(data, isPaused, message); var d := Payload(message);
      && (IsTelemetry(d, 0x01) || IsTelemetry(d, 0x02) || IsTelemetry(d, 0x03)
          ==> |o.events| >= 1 && o.events[0] == DataUpdated(o.data)
              && (|o.events| == 2 <==> IsTelemetry(d, 0x02) && o.data.distance != data.distance)
              && |o.events| <= 2
              && (|o.events| == 2 ==> o.events[1] == DistanceUpdated(o.data.distance)))
      && (forall e :: e in o.events && e.DistanceUpdated? ==> IsTelemetry(d, 0x02) && e.distance != data.distance)
  {
  }

  /**
   * A frame that is neither telemetry of a known subtype nor a pause or
   * resume leaves the record, the flag and the queue as they were and fires
   * no callback.
   */
  lemma DispatchIgnores(data: BushidoData, isPaused: bool, message: Message)
    requires Decodable(message)
    requires var d := Payload(message);
      && !IsTelemetry(d, 0x01) && !IsTelemetry(d, 0x02) && !IsTelemetry(d, 0x03)
      && !IsPause(d) && !IsResume(d)
    ensures Dispatch(data, isPaused, message) == Outcome(data, isPaused, [], [])
  {
  }

  /** The distance a 0xDD/0x02 frame sets is the literal expression over its payload bytes 2 to 5. */
  lemma DispatchDistance(data: BushidoData, isPaused: bool, message: Message)
    requires Decodable(message) && IsTelemetry(Payload(message), 0x02)
    ensures var d := Payload(message);
      Dispatch(data, isPaused, message).data.distance == LiteralDistance(d[2] as int, d[3] as int, d[4] as int, d[5] as int)
  {
  }

  /**
   * A 0xDD/0x02 frame whose first two distance bytes are zero sets the
   * distance to the big-endian value of the last two (below 65536 m).
   */
  lemma DispatchShortDistance(data: BushidoData, isPaused: bool, message: Message)
    requires Decodable(message)
    requires IsTelemetry(Payload(message), 0x02)
    requires Payload(message)[2] == 0 && Payload(message)[3] == 0
    ensures var d := Payload(message);
      Dispatch(data, isPaused, message).data.distance == d[4] as int * 256 + d[5] as int
  {
    DispatchDistance(data, isPaused, message);
    ShortDistanceBytes(Payload(message));
  }

  /** The waits for a non-empty run of sends: the first wait, then the waits for the others. */
  lemma AckWaitsStep(cmds: seq<Command>, frames: seq<Message>)
    requires cmds != [] && AckWaitsLength(cmds, frames).Some?
    ensures var k := FirstAck(frames, MsgType(cmds[0]));
      && k.Some?
      && AckWaitsLength(cmds[1..], frames[k.value + 1..]).Some?
      && AckWaitsLength(cmds, frames).value == k.value + 1 + AckWaitsLength(cmds[1..], frames[k.value + 1..]).value
  {
  }

  lemma DropPrefix<T>(whole: seq<T>, prefix: seq<T>, rest: seq<T>)
    requires whole == prefix + rest
    ensures rest == whole[|prefix|..]
  {
  }

  lemma Regroup<T>(whole: seq<T>, done: seq<T>, todo: seq<T>, next: seq<T>, rest: seq<T>)
    requires whole == done + todo && todo == next + rest
    ensures whole == (done + next) + rest
  {
  }

  /** Appending one sent message and its wait keeps every wait matched to its message. */
  lemma WaitsSnoc(sent: seq<Command>, waits: seq<seq<Message>>, c: Command, wait: seq<Message>)
    requires |waits| == |sent|
    requires forall i :: 0 <= i < |sent| ==> IsAckWait(waits[i], MsgType(sent[i]))
    requires IsAckWait(wait, MsgType(c))
    ensures forall i :: 0 <= i < |sent| + 1 ==> IsAckWait((waits + [wait])[i], MsgType((sent + [c])[i]))
  {
    forall i | 0 <= i < |sent| + 1
      ensures IsAckWait((waits + [wait])[i], MsgType((sent + [c])[i]))
    {
      if i < |sent| {
        assert (waits + [wait])[i] == waits[i] && (sent + [c])[i] == sent[i];
      }
    }
  }

  lemma ConcatSnoc(waits: seq<seq<Message>>, wait: seq<Message>)
    ensures Concat(waits + [wait]) == Concat(waits) + wait
  {
    assert (waits + [wait])[..|waits|] == waits;
  }

  /**
   * A send step part-way through: `sent` is the start of the step's
   * messages, each matched with the frames read while waiting for it, and
   * the waits for the others still end within `rest`.
   */
  ghost predicate SendProgress(step: seq<Command>, inbound: seq<Message>,
                               sent: seq<Command>, waits: seq<seq<Message>>, rest: seq<Message>)
  {
    && |sent| <= |step| && sent == step[..|sent|]
    && |waits| == |sent|
    && (forall i :: 0 <= i < |sent| ==> IsAckWait(waits[i], MsgType(sent[i])))
    && inbound == Concat(waits) + rest
    && AckWaitsLength(step, inbound).Some?
    && AckWaitsLength(step[|sent|..], rest).Some?
    && AckWaitsLength(step, inbound).value == |Concat(waits)| + AckWaitsLength(step[|sent|..], rest).value
  }

  lemma SendProgressStart(step: seq<Command>, inbound: seq<Message>)
    requires AckWaitsLength(step, inbound).Some?
    ensures SendProgress(step, inbound, [], [], inbound)
  {
    assert step[0..] == step;
  }

  /** The wait for the next message of the step ends within what is left. */
  lemma SendProgressNext(step: seq<Command>, inbound: seq<Message>,
                         sent: seq<Command>, waits: seq<seq<Message>>, rest: seq<Message>)
    requires SendProgress(step, inbound, sent, waits, rest) && |sent| < |step|
    ensures FirstAck(rest, MsgType(step[|sent|])).Some?
  {
    AckWaitsStep(step[|sent|..], rest);
  }

  /** Sending the next message of the step and waiting for it keeps the bookkeeping. */
  lemma SendProgressStep(step: seq<Command>, inbound: seq<Message>,
                         sent: seq<Command>, waits: seq<seq<Message>>, rest: seq<Message>,
                         wait: seq<Message>, rest': seq<Message>)
    requires SendProgress(step, inbound, sent, waits, rest) && |sent| < |step|
    requires FirstAck(rest, MsgType(step[|sent|])).Some?
    requires rest == wait + rest' && |wait| == FirstAck(rest, MsgType(step[|sent|])).value + 1
    requires IsAckWait(wait, MsgType(step[|sent|]))
    ensures SendProgress(step, inbound, sent + [step[|sent|]], waits + [wait], rest')
  {
    var c := step[|sent|];
    AckWaitsStep(step[|sent|..], rest);
    assert step[|sent|..][1..] == step[|sent| + 1..];
    assert step[..|sent| + 1] == sent + [c];
    DropPrefix(rest, wait, rest');
    WaitsSnoc(sent, waits, c, wait);
    ConcatSnoc(waits, wait);
    Regroup(inbound, Concat(waits), rest, wait, rest');
  }

  /** A finished step: every message was acknowledged, and what is left follows the waits. */
  lemma SendProgressDone(step: seq<Command>, inbound: seq<Message>,
                         sent: seq<Command>, waits: seq<seq<Message>>, rest: seq<Message>)
    requires SendProgress(step, inbound, sent, waits, rest) && |sent| == |step|
    ensures sent == step
    ensures rest == inbound[AckWaitsLength(step, inbound).value..]
  {
    assert step[|sent|..] == [];
    DropPrefix(inbound, Concat(waits), rest);
  }

  // ---------------------------------------------------------------- the connection

  class BushidoUSB {
    var data: BushidoData
    var isPaused: bool
    var outQueue: seq<Command>
    var connected: bool
    var running: bool

    constructor ()
      ensures data == InitialData && !isPaused && outQueue == [] && !connected && !running
    {
      data := InitialData;
      isPaused := false;
      outQueue := [];
      connected := false;
      running := false;
    }

    function GetData(): BushidoData
      reads this
    {
      data
    }

    function IsPaused(): bool
      reads this
    {
      isPaused
    }

    function IsConnected(): bool
      reads this
    {
      connected
    }

    method SetSlope(slope: real)
      modifies this`data
      ensures data == old(data).(slope := slope)
    {
      data := data.(slope := slope);
    }

    method QueueMessage(c: Command)
      modifies this`outQueue
      ensures outQueue == old(outQueue) + [c]
    {
      outQueue := outQueue + [c];
    }

    method InitializeANTConnection()
      modifies this`outQueue
      ensures outQueue == old(outQueue) + AntBringUp
    {
      QueueMessage(Reset);
      QueueMessage(AssignChannel(0x00));
      QueueMessage(SetChannelId(0x52));
      QueueMessage(SetChannelPeriod(4096));
      QueueMessage(SetChannelRfFrequency(2460));
      QueueMessage(OpenChannel);
    }

    method InitializeBushidoConnection()
      modifies this`outQueue
      ensures outQueue == old(outQueue) + BushidoBringUp
    {
      QueueMessage(InitPCConnection);
      QueueMessage(ResetHeadUnit);
      QueueMessage(StartCycling);
    }

    method SendData()
      modifies this`outQueue
      ensures outQueue == old(outQueue) + [Data01(data.slope, data.weight), Data02]
    {
      QueueMessage(Data01(data.slope, data.weight));
      QueueMessage(Data02);
    }

    method Continue()
      modifies this`outQueue
      ensures outQueue == old(outQueue) + [Catalog.Continue]
    {
      QueueMessage(Catalog.Continue);
    }

    /** `run` up to its endless loop: queue the link and trainer start-up, mark the connection. */
    method Run()
      modifies this`outQueue, this`connected, this`running
      ensures outQueue == old(outQueue) + AntBringUp + BushidoBringUp
      ensures connected && running
    {
      InitializeANTConnection();
      InitializeBushidoConnection();
      connected := true;
      running := true;
    }

    /**
     * `_sendMessage`: send queued messages in order, each followed by a wait
     * for its acknowledgement, and stop after the first broadcast or when
     * the queue is empty. Frames read while waiting are dropped.
     */
    method SendMessage(inbound: seq<Message>) returns (sent: seq<Command>, waits: seq<seq<Message>>, rest: seq<Message>)
      requires AckWaitsLength(outQueue[..DrainCount(outQueue)], inbound).Some?
      modifies this`outQueue
      ensures var n := DrainCount(old(outQueue));
        sent == old(outQueue)[..n] && outQueue == old(outQueue)[n..]
      ensures |waits| == |sent|
      ensures forall i :: 0 <= i < |sent| ==> IsAckWait(waits[i], MsgType(sent[i]))
      ensures inbound == Concat(waits) + rest
      ensures rest == inbound[AckWaitsLength(sent, inbound).value..]
    {
      sent, waits, rest := [], [], inbound;
      ghost var n := DrainCount(outQueue);
      ghost var step := outQueue[..n];
      SendProgressStart(step, inbound);
      while true
        invariant SendProgress(step, inbound, sent, waits, rest)
        invariant |sent| <= |old(outQueue)| && outQueue == old(outQueue)[|sent|..]
        invariant |sent| == n ==> outQueue == []
        decreases |outQueue|
      {
        if outQueue == [] {
          SendProgressDone(step, inbound, sent, waits, rest);
          break;
        }
        var outMessage := outQueue[0];
        assert outMessage == step[|sent|];
        SendProgressNext(step, inbound, sent, waits, rest);
        outQueue := outQueue[1..];
        var wait, rest';
        wait, rest' := AwaitAck(rest, MsgType(outMessage));
        SendProgressStep(step, inbound, sent, waits, rest, wait, rest');
        sent, waits, rest := sent + [outMessage], waits + [wait], rest';
        if IsBroadcast(outMessage) {
          SendProgressDone(step, inbound, sent, waits, rest);
          break;
        }
      }
    }

    /**
     * `_processMessage`: update the record and the pause flag, queue the
     * response commands and fire the callbacks, as `Dispatch` says.
     */
    method ProcessMessage(message: Message) returns (events: seq<Event>)
      requires Decodable(message)
      modifies this`data, this`isPaused, this`outQueue
      ensures var o := Dispatch(old(data), old(isPaused), message);
        && data == o.data && isPaused == o.isPaused
        && outQueue == old(outQueue) + o.queued && events == o.events
    {
      var d := Payload(message);
      ghost var o := Dispatch(data, isPaused, message);
      ghost var before := data;
      events := [];
      if |d| > 0 && d[0] == 0xDD {
        if |d| > 1 && d[1] == 0x01 {
          assert IsTelemetry(d, 0x01) && o.queued == [];
          data := data.(speed := U16(d[2] as int, d[3] as int) as real / 10.0,
                        power := U16(d[4] as int, d[5] as int),
                        cadence := d[6] as int);
          events := [DataUpdated(data)];
        } else if |d| > 1 && d[1] == 0x02 {
          assert IsTelemetry(d, 0x02) && !IsTelemetry(d, 0x01) && o.queued == [];
          var oldDistance := data.distance;
          data := data.(distance := DistanceBytes(d),
                        heartRate := d[6] as int);
          events := [DataUpdated(data)];
          if oldDistance != data.distance {
            events := events + [DistanceUpdated(data.distance)];
          }
        } else if |d| > 1 && d[1] == 0x03 {
          assert IsTelemetry(d, 0x03) && !IsTelemetry(d, 0x01) && !IsTelemetry(d, 0x02) && o.queued == [];
          data := data.(breakTemp := d[4] as int);
          events := [DataUpdated(data)];
        } else {
          DispatchIgnores(before, isPaused, message);
        }
      } else if |d| > 0 && d[0] == 0xAD {
        if |d| > 2 && d[1] == 0x01 && d[2] == 0x02 {
          assert IsResume(d) && !IsTelemetry(d, 0x01) && !IsTelemetry(d, 0x02) && !IsTelemetry(d, 0x03);
          assert o.queued == [Data01(data.slope, data.weight), Data02];
          isPaused := false;
          events := [Resumed];
          SendData();
        } else if |d| > 2 && d[1] == 0x01 && d[2] == 0x03 {
          assert IsPause(d) && !IsResume(d) && !IsTelemetry(d, 0x01) && !IsTelemetry(d, 0x02) && !IsTelemetry(d, 0x03);
          assert o.queued == [Catalog.Continue];
          isPaused := true;
          events := [Paused];
          Continue();
        } else {
          DispatchIgnores(before, isPaused, message);
        }
      } else {
        DispatchIgnores(before, isPaused, message);
      }
      assert outQueue == old(outQueue) + o.queued;
    }

    /**
     * One pass of the `run` loop: a send step, then one more frame read and
     * dispatched.
     */
    method Tick(inbound: seq<Message>) returns (sent: seq<Command>, frame: Message, events: seq<Event>, rest: seq<Message>)
      requires AckWaitsLength(outQueue[..DrainCount(outQueue)], inbound).Some?
      requires AckWaitsLength(outQueue[..DrainCount(outQueue)], inbound).value < |inbound|
      requires Decodable(inbound[AckWaitsLength(outQueue[..DrainCount(outQueue)], inbound).value])
      modifies this`data, this`isPaused, this`outQueue
      ensures sent == old(outQueue)[..DrainCount(old(outQueue))]
      ensures var k := AckWaitsLength(sent, inbound).value;
        frame == inbound[k] && rest == inbound[k + 1..]
      ensures Decodable(frame)
      ensures var o := Dispatch(old(data), old(isPaused), frame);
        && data == o.data && isPaused == o.isPaused
        && outQueue == old(outQueue)[|sent|..] + o.queued
        && events == o.events
    {
      var waits, afterWaits;
      sent, waits, afterWaits := SendMessage(inbound);
      assert data == old(data) && isPaused == old(isPaused);
      assert outQueue == old(outQueue)[|sent|..];
      ghost var k := AckWaitsLength(sent, inbound).value;
      frame, rest := afterWaits[0], afterWaits[1..];
      assert frame == inbound[k] && rest == inbound[k + 1..];
      events := ProcessMessage(frame);
    }
  }

  /**
   * The first send step after `run` queues its start-up sends the six link
   * commands and the first trainer command, and leaves the other two trainer
   * commands queued.
   */
  lemma FirstSendStep()
    ensures DrainCount(AntBringUp + BushidoBringUp) == 7
    ensures (AntBringUp + BushidoBringUp)[7..] == [ResetHeadUnit, StartCycling]
  {
    var q := AntBringUp + BushidoBringUp;
    var tail: seq<Command> := [InitPCConnection, ResetHeadUnit, StartCycling];
    assert q[6..] == tail;
    assert DrainCount(tail) == 1;
    assert DrainCount(q[5..]) == 2 by { assert q[5..][1..] == tail; }
    assert DrainCount(q[4..]) == 3 by { assert q[4..][1..] == q[5..]; }
    assert DrainCount(q[3..]) == 4 by { assert q[3..][1..] == q[4..]; }
    assert DrainCount(q[2..]) == 5 by { assert q[2..][1..] == q[3..]; }
    assert DrainCount(q[1..]) == 6 by { assert q[1..][1..] == q[2..]; }
  }
}
