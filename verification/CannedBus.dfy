/** The canned EZO devices behind the mock bus (src/i2c/ezo_canned_bus.cpp): one state per
    address, moved by the commands written to it and the reads that answer them. */
module CannedBus {
  import opened Statuses
  import opened Compensation
  import opened Probe

  newtype uint8 = x: int | 0 <= x < 0x100
  newtype uint32 = x: int | 0 <= x < 0x1_0000_0000
  newtype uint64 = x: int | 0 <= x < 0x1_0000_0000_0000_0000

  datatype CannedFamily = UnknownFamily | Board(family: Family)

  datatype Options = Options(
    statusCommand: string, statusCode: uint8,
    pendingCommand: string, pendingReads: uint32,
    calibrationLevel: uint32, revertAfter: uint32, salinityPpt: bool, startTemperature: real)

  /** Reading and printing numbers, which the C library does for the original. */
  datatype Text = Text(number: string -> real, fixed: (real, nat) -> string, decimal: uint32 -> string)

  datatype Unit = Unit(
    family: CannedFamily, lastCommand: string, readSeq: uint64, pendingLeft: uint32,
    level: uint32, held: Settings, readings: uint64)

  const SUCCESS_CODE: uint8 := 0x01
  const PENDING_CODE: uint8 := 0xFE

  function FamilyForAddress(address: uint8): CannedFamily {
    match address
    case 0x61 => Board(Do)
    case 0x62 => Board(Orp)
    case 0x63 => Board(Ph)
    case 0x64 => Board(Ec)
    case 0x66 => Board(Rtd)
    case 0x6F => Board(Hum)
    case _ => UnknownFamily
  }

  /** The datasheet defaults; the unit salinity is reported in stays as it is. */
  function ResetCompensation(u: Unit): Unit {
    u.(held := u.held.(t := if u.family == Board(Do) then DO_DEFAULT_TEMPERATURE else PH_DEFAULT_TEMPERATURE,
                       s := DO_DEFAULT_SALINITY, p := DO_DEFAULT_PRESSURE))
  }

  function FreshUnit(o: Options, address: uint8): Unit {
    var u := ResetCompensation(Unit(FamilyForAddress(address), "", 0, 0, o.calibrationLevel,
                                    Settings(0.0, 0.0, o.salinityPpt, 0.0), 0));
    if o.startTemperature > 0.0 then u.(held := u.held.(t := o.startTemperature)) else u
  }

  // ---- What a command written to a device does --------------------------------------------

  datatype Effect =
    | NoEffect
    | Temperature(value: real)
    | Salinity(value: real, ppt: bool)
    | Pressure(value: real)
    | LevelTo(level: uint32)
    | OneMorePoint

  predicate FoundAt(s: string, part: string, i: nat) { i + |part| <= |s| && s[i..i + |part|] == part }

  predicate Contains(s: string, part: string) { exists i :: 0 <= i <= |s| && FoundAt(s, part, i) }

  predicate IsSetting(cmd: string) {
    |cmd| > 2 && cmd[1] == ',' && cmd[2] != '?' && (cmd[0] == 'T' || cmd[0] == 'S' || cmd[0] == 'P')
  }

  function SettingEffect(text: Text, cmd: string): Effect
    requires IsSetting(cmd)
  {
    var value := text.number(cmd[2..]);
    if cmd[0] == 'T' then Temperature(value)
    else if cmd[0] == 'P' then Pressure(value)
    else Salinity(value, Contains(cmd, ",ppt"))
  }

  function CalibrationEffect(family: CannedFamily, cmd: string): Effect {
    if !("Cal" <= cmd) || cmd == "Cal,?" then NoEffect
    else if cmd == "Cal,clear" then LevelTo(0)
    else if family == Board(Ph) then
      if "Cal,mid," <= cmd then LevelTo(1)
      else if "Cal,low," <= cmd then LevelTo(2)
      else if "Cal,high," <= cmd then LevelTo(3)
      else NoEffect
    else if family == Board(Do) then OneMorePoint
    else NoEffect
  }

  function EffectOf(text: Text, family: CannedFamily, cmd: string): Effect {
    if IsSetting(cmd) then SettingEffect(text, cmd) else CalibrationEffect(family, cmd)
  }

  /** A 32-bit increment, capped at two. */
  function OnePointUp(level: uint32): uint32 {
    if level == 0xFFFF_FFFF then 0 else if level + 1 < 2 then level + 1 else 2
  }

  function Affected(u: Unit, e: Effect): Unit {
    match e
    case NoEffect => u
    case Temperature(v) => u.(held := u.held.(t := v))
    case Salinity(v, ppt) => u.(held := u.held.(s := v, ppt := ppt))
    case Pressure(v) => u.(held := u.held.(p := v))
    case LevelTo(n) => u.(level := n)
    case OneMorePoint => u.(level := OnePointUp(u.level))
  }

  /** `record_command`: a command to be answered with an error code has no effect. */
  function Recorded(o: Options, text: Text, u: Unit, cmd: string): Unit {
    var noted := u.(lastCommand := cmd, pendingLeft := if cmd == o.pendingCommand then o.pendingReads else 0);
    if cmd == o.statusCommand then noted else Affected(noted, EffectOf(text, u.family, cmd))
  }

  // ---- What a read answers -----------------------------------------------------------------

  function InfoPayload(family: CannedFamily): string {
    match family
    case Board(Ph) => "?I,pH,mock-1.0"
    case Board(Orp) => "?I,ORP,mock-1.0"
    case Board(Ec) => "?I,EC,mock-1.0"
    case Board(Do) => "?I,D.O.,mock-1.0"
    case Board(Rtd) => "?I,RTD,mock-1.0"
    case Board(Hum) => "?I,HUM,mock-1.0"
    case UnknownFamily => "?I,UNK,mock-1.0"
  }

  function OutputConfigPayload(family: CannedFamily): string {
    match family
    case Board(Do) => "?O,mg"
    case Board(Ec) => "?O,EC,TDS"
    case Board(Hum) => "?O,HUM,T"
    case _ => ""
  }

  function ReadPayload(text: Text, family: CannedFamily, address: uint8, seqNo: uint64): string {
    var base := (address as int % 17 + 1) as real * 0.1;
    var delta := (seqNo as int % 25) as real * 0.01;
    match family
    case Board(Ph) => text.fixed(6.5 + base + delta, 3)
    case Board(Orp) => text.fixed(250.0 + base * 10.0 + delta * 100.0, 1)
    case Board(Rtd) => text.fixed(20.0 + base + delta, 2)
    case Board(Do) => text.fixed(7.0 + base + delta, 2)
    case Board(Ec) =>
      text.fixed(700.0 + base * 100.0 + delta * 100.0, 1) + "," + text.fixed(350.0 + base * 50.0 + delta * 80.0, 1)
    case Board(Hum) =>
      text.fixed(45.0 + base * 5.0 + delta * 10.0, 1) + "," + text.fixed(22.0 + base + delta, 1)
    case UnknownFamily => ""
  }

  function Bumped(n: uint64): uint64 { if n == 0xFFFF_FFFF_FFFF_FFFF then 0 else n + 1 }

  predicate IsReading(cmd: string) { cmd == "r" || "rt," <= cmd }

  /** A reading counts toward the simulated power cut, and takes the next value. */
  function AfterReading(o: Options, u: Unit): Unit {
    var counted := if o.revertAfter > 0 then u.(readings := Bumped(u.readings)) else u;
    var kept :=
      if o.revertAfter > 0 && counted.readings as int == o.revertAfter as int then ResetCompensation(counted)
      else counted;
    kept.(readSeq := Bumped(u.readSeq))
  }

  function ResponsePayload(text: Text, address: uint8, u: Unit): string {
    var cmd := u.lastCommand;
    if cmd == "i" then InfoPayload(u.family)
    else if cmd == "O,?" then OutputConfigPayload(u.family)
    else if IsReading(cmd) then ReadPayload(text, u.family, address, u.readSeq)
    else if cmd == "Cal,?" then "?Cal," + text.decimal(u.level)
    else if cmd == "T,?" then "?T," + text.fixed(u.held.t, 2)
    else if cmd == "S,?" then "?S," + text.fixed(u.held.s, 1) + (if u.held.ppt then ",ppt" else ",uS")
    else if cmd == "P,?" then "?P," + text.fixed(u.held.p, 2)
    else ""
  }

  predicate Rejects(o: Options, u: Unit) { u.lastCommand != "" && u.lastCommand == o.statusCommand }

  datatype Answer = Answer(code: uint8, payload: string)

  function AnswerFrame(o: Options, text: Text, address: uint8, u: Unit): Answer {
    if Rejects(o, u) then Answer(o.statusCode, "")
    else if u.pendingLeft > 0 then Answer(PENDING_CODE, "")
    else Answer(SUCCESS_CODE, ResponsePayload(text, address, u))
  }

  function AfterAnswer(o: Options, u: Unit): Unit {
    if Rejects(o, u) then u
    else if u.pendingLeft > 0 then u.(pendingLeft := u.pendingLeft - 1)
    else if IsReading(u.lastCommand) then AfterReading(o, u)
    else u
  }

  // ---- The bus ------------------------------------------------------------------------------

  datatype Bus = Bus(open: bool, devices: map<uint8, Unit>)

  /** A receive buffer: whether there is one, and the length the caller gives for it. */
  datatype Room = Room(present: bool, len: nat)

  datatype Op =
    | Open
    | Close
    | WriteTo(address: uint8, tx: string)
    | ReadFrom(address: uint8, room: Room)
    | WriteThenRead(address: uint8, tx: string, room: Room)

  datatype BusError = NotOpen | BadWrite | BadRead | BadExchange

  /** What a caller sees; `received` is None when the count is left as it was. */
  datatype Reply = Failed(error: BusError) | Done(bytes: seq<uint8>, received: Option<nat>)

  datatype Stepped = Stepped(bus: Bus, reply: Reply)

  function ByteOf(c: char): uint8 { (c as int % 0x100) as uint8 }

  /** The whole frame as bytes, cut off where the buffer ends. */
  function FrameBytes(f: Answer, len: nat): (bytes: seq<uint8>)
    requires len > 0
    ensures |bytes| == if |f.payload| < len then |f.payload| + 1 else len
    ensures bytes[0] == f.code
    ensures forall i :: 0 < i < |bytes| ==> bytes[i] as int == f.payload[i - 1] as int % 0x100
  {
    var all := [f.code] + seq(|f.payload|, i requires 0 <= i < |f.payload| => ByteOf(f.payload[i]));
    if |all| <= len then all else all[..len]
  }

  function Emitted(f: Answer, room: Room): Reply {
    if !room.present || room.len == 0 then Failed(BadRead)
    else
      var bytes := FrameBytes(f, room.len);
      Done(bytes, Some(|bytes|))
  }

  /** The state of an address, as it is or as the first access makes it. */
  function UnitAt(o: Options, bus: Bus, address: uint8): Unit {
    if address in bus.devices then bus.devices[address] else FreshUnit(o, address)
  }

  function Put(bus: Bus, address: uint8, u: Unit): Bus { bus.(devices := bus.devices[address := u]) }

  function Written(o: Options, text: Text, bus: Bus, address: uint8, tx: string): Bus {
    Put(bus, address, Recorded(o, text, UnitAt(o, bus, address), tx))
  }

  function Replied(o: Options, text: Text, bus: Bus, address: uint8, room: Room): Stepped {
    var u := UnitAt(o, bus, address);
    Stepped(Put(bus, address, AfterAnswer(o, u)), Emitted(AnswerFrame(o, text, address, u), room))
  }

  function Step(o: Options, text: Text, bus: Bus, op: Op): Stepped {
    match op
    case Open => Stepped(bus.(open := true), Done([], None))
    case Close => Stepped(bus.(open := false), Done([], None))
    case WriteTo(address, tx) =>
      if !bus.open then Stepped(bus, Failed(NotOpen))
      else if tx == [] then Stepped(bus, Failed(BadWrite))
      else Stepped(Written(o, text, bus, address, tx), Done([], None))
    case ReadFrom(address, room) =>
      if !bus.open then Stepped(bus, Failed(NotOpen)) else Replied(o, text, bus, address, room)
    case WriteThenRead(address, tx, room) =>
      if !bus.open then Stepped(bus, Failed(NotOpen))
      else if tx == [] && room.len == 0 then Stepped(bus, Failed(BadExchange))
      else
        var sent := if tx != [] then Written(o, text, bus, address, tx) else bus;
        if room.len == 0 then Stepped(sent, Done([], Some(0))) else Replied(o, text, sent, address, room)
  }

  function After(o: Options, text: Text, bus: Bus, ops: seq<Op>): Bus
  {
    if ops == [] then bus
    else Step(o, text, After(o, text, bus, ops[..|ops| - 1]), ops[|ops| - 1]).bus
  }

  /** The bytes of a reply at the front of the buffer, and everything else as it was. */
  predicate Lands(reply: Reply, was: seq<uint8>, now: seq<uint8>) {
    if reply.Failed? then now == was
    else |reply.bytes| <= |was| && now == reply.bytes + was[|reply.bytes|..]
  }

  // ---- The object ---------------------------------------------------------------------------

  class EzoCannedBus {
    const options: Options
    const text: Text
    var isOpen: bool
    var devices: map<uint8, Unit>

    ghost function View(): Bus
      reads this
    {
      Bus(isOpen, devices)
    }

    constructor (options: Options, text: Text)
      ensures this.options == options && this.text == text && View() == Bus(false, map[])
    {
      this.options, this.text := options, text;
      isOpen, devices := false, map[];
    }

    method OpenBus()
      modifies `isOpen
      ensures View() == Step(options, text, old(View()), Open).bus
    {
      isOpen := true;
    }

    method CloseBus()
      modifies `isOpen
      ensures View() == Step(options, text, old(View()), Close).bus
    {
      isOpen := false;
    }

    /** `state_for`. */
    method StateFor(address: uint8) returns (u: Unit)
      modifies `devices
      ensures u == UnitAt(options, old(View()), address) && View() == Put(old(View()), address, u)
    {
      if address !in devices {
        devices := devices[address := FreshUnit(options, address)];
      }
      u := devices[address];
    }

    /** `record_command`. */
    method RecordCommand(address: uint8, cmd: string)
      requires address in devices
      modifies `devices
      ensures View() == Put(old(View()), address, Recorded(options, text, old(devices)[address], cmd))
    {
      var u := devices[address];
      u := u.(lastCommand := cmd);
      u := u.(pendingLeft := if u.lastCommand == options.pendingCommand then options.pendingReads else 0);
      if cmd == options.statusCommand {
        devices := devices[address := u];
        return;
      }
      if IsSetting(cmd) {
        var value := text.number(cmd[2..]);
        if cmd[0] == 'T' {
          u := u.(held := u.held.(t := value));
        } else if cmd[0] == 'P' {
          u := u.(held := u.held.(p := value));
        } else {
          u := u.(held := u.held.(s := value));
          u := u.(held := u.held.(ppt := Contains(cmd, ",ppt")));
        }
      } else {
        u := Affected(u, CalibrationEffect(u.family, cmd));
      }
      devices := devices[address := u];
    }

    /** `emit_frame`: the status byte and as much of the payload as fits; the rest of the
        buffer stays as it was. */
    method EmitFrame(status: uint8, payload: string, rx: array?<uint8>, rxLen: nat) returns (reply: Reply)
      requires rx != null ==> rxLen <= rx.Length
      modifies rx
      ensures reply == Emitted(Answer(status, payload), Room(rx != null, rxLen))
      ensures rx != null ==> Lands(reply, old(rx[..]), rx[..])
    {
      if rx == null || rxLen == 0 {
        return Failed(BadRead);
      }
      ghost var was := rx[..];
      ghost var want := FrameBytes(Answer(status, payload), rxLen);
      rx[0] := status;
      var written := 1;
      var i := 0;
      while i < |payload| && written < rxLen
        invariant written == i + 1 <= |want|
        invariant rx[..] == want[..written] + was[written..]
      {
        rx[written] := ByteOf(payload[i]);
        i, written := i + 1, written + 1;
      }
      assert want[..written] == want && rx[..written] == want;
      reply := Done(rx[..written], Some(written));
    }

    /** `answer_read`. */
    method AnswerRead(address: uint8, rx: array?<uint8>, rxLen: nat) returns (reply: Reply)
      requires address in devices && (rx != null ==> rxLen <= rx.Length)
      modifies `devices, rx
      ensures Stepped(View(), reply) == Replied(options, text, old(View()), address, Room(rx != null, rxLen))
      ensures rx != null ==> Lands(reply, old(rx[..]), rx[..])
    {
      var u := devices[address];
      if u.lastCommand != "" && u.lastCommand == options.statusCommand {
        assert AfterAnswer(options, u) == u;
        assert devices == devices[address := u];
        reply := EmitFrame(options.statusCode, "", rx, rxLen);
      } else if u.pendingLeft > 0 {
        devices := devices[address := u.(pendingLeft := u.pendingLeft - 1)];
        reply := EmitFrame(PENDING_CODE, "", rx, rxLen);
      } else {
        devices := devices[address := if IsReading(u.lastCommand) then AfterReading(options, u) else u];
        reply := EmitFrame(SUCCESS_CODE, ResponsePayload(text, address, u), rx, rxLen);
      }
    }

    /** `write`. */
    method Write(address: uint8, tx: string) returns (reply: Reply)
      modifies `devices
      ensures Stepped(View(), reply) == Step(options, text, old(View()), WriteTo(address, tx))
    {
      if !isOpen {
        return Failed(NotOpen);
      }
      if |tx| == 0 {
        return Failed(BadWrite);
      }
      var _ := StateFor(address);
      RecordCommand(address, tx);
      reply := Done([], None);
    }

    /** `read`. */
    method Read(address: uint8, rx: array?<uint8>, rxLen: nat) returns (reply: Reply)
      requires rx != null ==> rxLen <= rx.Length
      modifies `devices, rx
      ensures Stepped(View(), reply) == Step(options, text, old(View()), ReadFrom(address, Room(rx != null, rxLen)))
      ensures rx != null ==> Lands(reply, old(rx[..]), rx[..])
    {
      if !isOpen {
        return Failed(NotOpen);
      }
      var _ := StateFor(address);
      reply := AnswerRead(address, rx, rxLen);
    }

    /** `write_then_read`. */
    method WriteAndRead(address: uint8, tx: string, rx: array?<uint8>, rxLen: nat) returns (reply: Reply)
      requires rx != null ==> rxLen <= rx.Length
      modifies `devices, rx
      ensures Stepped(View(), reply) ==
        Step(options, text, old(View()), WriteThenRead(address, tx, Room(rx != null, rxLen)))
      ensures rx != null ==> Lands(reply, old(rx[..]), rx[..])
    {
      if !isOpen {
        return Failed(NotOpen);
      }
      if |tx| == 0 && rxLen == 0 {
        return Failed(BadExchange);
      }
      var _ := StateFor(address);
      if |tx| > 0 {
        RecordCommand(address, tx);
      }
      if rxLen == 0 {
        return Done([], Some(0));
      }
      reply := AnswerRead(address, rx, rxLen);
    }
  }
}
