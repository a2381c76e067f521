/** The EZO probe as the environment: it may refuse a command, stay busy, lose the
    transport or lose power between any two bus operations
    (the behaviour src/i2c/ezo_canned_bus.cpp imitates, made adversarial). */
module Probe {
  import opened Statuses
  import opened Compensation

  datatype Family = Ph | Do | Ec | Hum | Orp | Rtd

  /** What the probe compensates for. `ppt`: it reports its salinity in ppt. */
  datatype Settings = Settings(t: real, s: real, ppt: bool, p: real)

  /** `clock` counts exchanges. `calibratedAt` and `told` are history: the settings in force at
      each Cal or Cal,0 the probe acted on, and the commands sent to it, acted on or not. */
  datatype Device = Device(
    family: Family,
    held: Settings,
    level: nat,
    clock: nat,
    calibratedAt: seq<Settings>,
    told: seq<Command>)

  datatype Command =
    | SetTemperature(value: real)
    | SetSalinity(value: real)
    | SetPressure(value: real)
    | CalibrateDo(zero: bool)
    | CalibratePh(point: nat, reference: real)
    | ClearCalibration
    | Find
    | Led(on: bool)
    | Sleep

  /** A power cut loses the compensation and keeps the calibration. */
  function Cut(d: Device): Device {
    d.(held := d.held.(t := if d.family.Do? then DO_DEFAULT_TEMPERATURE else PH_DEFAULT_TEMPERATURE,
                       s := DO_DEFAULT_SALINITY, p := DO_DEFAULT_PRESSURE))
  }

  function CutIf(d: Device, cut: bool): Device { if cut then Cut(d) else d }

  predicate AtDefaults(h: Settings) {
    h.t == DO_DEFAULT_TEMPERATURE && h.s == DO_DEFAULT_SALINITY && h.p == DO_DEFAULT_PRESSURE
  }

  function Min(a: nat, b: nat): nat { if a < b then a else b }

  /** What a command does when the probe acts on it. */
  function Act(d: Device, c: Command): Device {
    match c
    case SetTemperature(v) => d.(held := d.held.(t := v))
    case SetSalinity(v) => d.(held := d.held.(s := v, ppt := false))
    case SetPressure(v) => d.(held := d.held.(p := v))
    case CalibrateDo(_) => d.(level := Min(d.level + 1, 2), calibratedAt := d.calibratedAt + [d.held])
    case CalibratePh(point, _) => d.(level := point + 1)
    case ClearCalibration => d.(level := 0)
    case Find => d
    case Led(_) => d
    case Sleep => d
  }

  // ---- The response to a command ------------------------------------------------

  /** One answer to a response read; `Broken` is a read the transport or the parser failed. */
  datatype Frame = Success | Fail | NotReady | NoData | Unknown | Broken(code: StatusCode)

  const PENDING_REREADS := 4

  function FrameAt(frames: seq<Frame>, i: nat): Frame {
    if i < |frames| then frames[i] else Broken(Unavailable)
  }

  function ErrorCode(code: StatusCode): StatusCode { if code == Ok then Internal else code }

  /** The status each final answer becomes. */
  function FinalStatus(f: Frame): Status {
    match f
    case Success => OK
    case Fail => Status(Internal, "device rejected the command (response code 2, syntax error)")
    case NotReady => Status(Unavailable, "device still processing the command (response code 254)")
    case NoData => Status(Unavailable, "device returned no data for the command (response code 255)")
    case Unknown => Status(Internal, "device returned an unknown response code")
    case Broken(code) => Status(ErrorCode(code), "read command response")
  }

  /** The index of the answer that settles a command: the first that is not 254, or the
      fifth. */
  function Settles(frames: seq<Frame>): (k: nat)
    ensures k <= PENDING_REREADS
    ensures forall i :: 0 <= i < k ==> FrameAt(frames, i) == NotReady
    ensures FrameAt(frames, k) != NotReady || k == PENDING_REREADS
  {
    if FrameAt(frames, 0) != NotReady then 0
    else if FrameAt(frames, 1) != NotReady then 1
    else if FrameAt(frames, 2) != NotReady then 2
    else if FrameAt(frames, 3) != NotReady then 3
    else 4
  }

  function Response(frames: seq<Frame>): Status { FinalStatus(FrameAt(frames, Settles(frames))) }

  /** `read_command_response`, against the answers the probe gives one read after another:
      it re-reads a busy probe up to four times, and is OK exactly when a SUCCESS comes
      within five answers, all before it being 254. */
  method ReadCommandResponse(frames: seq<Frame>) returns (status: Status, rereads: nat)
    ensures status == Response(frames) && rereads == Settles(frames)
    ensures rereads <= PENDING_REREADS
    ensures status.IsOk() <==>
      exists k :: 0 <= k <= PENDING_REREADS && FrameAt(frames, k) == Success && AllBusy(frames, k)
    ensures var last := FrameAt(frames, rereads);
      && (last == Success ==> status == OK)
      && (last == Fail ==>
            status == Status(Internal, "device rejected the command (response code 2, syntax error)"))
      && (last == NotReady ==>
            status == Status(Unavailable, "device still processing the command (response code 254)"))
      && (last == NoData ==>
            status == Status(Unavailable, "device returned no data for the command (response code 255)"))
      && (last == Unknown ==> status == Status(Internal, "device returned an unknown response code"))
      && (last.Broken? && last.code != Ok ==> status.code == last.code)
  {
    rereads := 0;
    while true
      invariant rereads <= PENDING_REREADS
      invariant AllBusy(frames, rereads)
      decreases PENDING_REREADS - rereads
    {
      var frame := FrameAt(frames, rereads);
      if frame == NotReady && rereads < PENDING_REREADS {
        rereads := rereads + 1;
        continue;
      }
      OnlyOneSettles(frames, rereads);
      status := FinalStatus(frame);
      return;
    }
  }

  predicate AllBusy(frames: seq<Frame>, k: nat) {
    forall i :: 0 <= i < k ==> FrameAt(frames, i) == NotReady
  }

  lemma OnlyOneSettles(frames: seq<Frame>, k: nat)
    requires k <= PENDING_REREADS && AllBusy(frames, k)
    requires FrameAt(frames, k) != NotReady || k == PENDING_REREADS
    ensures k == Settles(frames)
    ensures Response(frames).IsOk() <==>
      exists j :: 0 <= j <= PENDING_REREADS && FrameAt(frames, j) == Success && AllBusy(frames, j)
  {
    var m := Settles(frames);
    assert FrameAt(frames, m) != NotReady || m == PENDING_REREADS;
  }

  // ---- One command: send, settle, read the response ------------------------------

  /** What the environment does during one command: a power cut before the send; whether
      the transport reports the send done; whether the probe acts on the command; a power
      cut after that; and the answers to the response reads. */
  datatype Turn = Turn(cutBefore: bool, sent: bool, acts: bool, cutAfter: bool, frames: seq<Frame>)

  /** A probe answers SUCCESS only to a command it acted on, and code 2 only to one it
      did not. Nothing is assumed when the transport fails or the answer is another one. */
  predicate HonestTurn(turn: Turn) {
    && (turn.sent && Response(turn.frames) == FinalStatus(Success) ==> turn.acts)
    && (turn.sent && FrameAt(turn.frames, Settles(turn.frames)) == Fail ==> !turn.acts)
  }

  predicate NoCut(turn: Turn) { !turn.cutBefore && !turn.cutAfter }

  /** The state of the probe after some commands, what the caller was told, and what the
      commands cost: how many were sent, and so waited for, and how many re-reads they needed. */
  datatype Ran = Ran(device: Device, status: Status, commands: nat, rereads: nat)

  const SEND_FAILED := Status(Unavailable, "send command")

  function AfterTurn(d: Device, c: Command, turn: Turn): Device {
    var before := CutIf(d, turn.cutBefore);
    var acted := if turn.acts then Act(before, c) else before;
    CutIf(acted, turn.cutAfter).(clock := d.clock + 1, told := d.told + [c])
  }

  function TurnStatus(turn: Turn): Status {
    if turn.sent then Response(turn.frames) else SEND_FAILED
  }

  function SentCount(turn: Turn): nat { if turn.sent then 1 else 0 }

  function Exchange(d: Device, c: Command, turn: Turn): Ran {
    Ran(AfterTurn(d, c, turn), TurnStatus(turn), SentCount(turn), if turn.sent then Settles(turn.frames) else 0)
  }

  // ---- write_compensation ---------------------------------------------------------

  datatype WriteTurns = WriteTurns(t: Turn, s: Turn, p: Turn)

  /** The given values as the commands that carry them, in the order they are sent. */
  function CommandFor(values: Comp, i: nat): Option<Command>
    requires i < 3
  {
    match i
    case 0 => if values.t.Some? then Some(SetTemperature(SentTemperature(values.t.value))) else None
    case 1 => if values.s.Some? then Some(SetSalinity(SentSalinity(values.s.value))) else None
    case 2 => if values.p.Some? then Some(SetPressure(SentPressure(values.p.value))) else None
  }

  function TurnFor(turns: WriteTurns, i: nat): Turn
    requires i < 3
  {
    match i case 0 => turns.t case 1 => turns.s case 2 => turns.p
  }

  /** From the i-th value on: each value given is its own command and response, and the
      first one not accepted stops the rest. */
  function WriteFrom(d: Device, values: Comp, turns: WriteTurns, i: nat): Ran
    requires i <= 3
    decreases 3 - i
  {
    if i == 3 then Ran(d, OK, 0, 0)
    else if CommandFor(values, i).None? then WriteFrom(d, values, turns, i + 1)
    else
      var one := Exchange(d, CommandFor(values, i).value, TurnFor(turns, i));
      if !one.status.IsOk() then one
      else
        var rest := WriteFrom(one.device, values, turns, i + 1);
        rest.(commands := rest.commands + one.commands, rereads := rest.rereads + one.rereads)
  }

  /** The values a family's writer sends: pH takes only the temperature. */
  function Writable(family: Family, values: Comp): Comp {
    if family.Do? then values else Comp(values.t, None, None)
  }

  function Write(d: Device, values: Comp, turns: WriteTurns): Ran {
    WriteFrom(d, Writable(d.family, values), turns, 0)
  }

  predicate HonestWrite(turns: WriteTurns) {
    HonestTurn(turns.t) && HonestTurn(turns.s) && HonestTurn(turns.p)
  }

  predicate NoCutWrite(turns: WriteTurns) { NoCut(turns.t) && NoCut(turns.s) && NoCut(turns.p) }

  // ---- read_compensation ------------------------------------------------------------

  /** One query: a power cut before it, whether it is answered, where in the read-back
      digit the shown value lies, and a power cut after it. */
  datatype Query = Query(cutBefore: bool, answered: bool, failure: StatusCode, skew: real, cutAfter: bool)

  predicate HonestQuery(q: Query) { -1.0 <= q.skew <= 1.0 }

  datatype ReadTurns = ReadTurns(t: Query, s: Query, p: Query)

  predicate HonestRead(turns: ReadTurns) { HonestQuery(turns.t) && HonestQuery(turns.s) && HonestQuery(turns.p) }

  predicate NoCutQuery(q: Query) { !q.cutBefore && !q.cutAfter }

  predicate NoCutRead(turns: ReadTurns) { NoCutQuery(turns.t) && NoCutQuery(turns.s) && NoCutQuery(turns.p) }

  /** `asOf` is history: the probe's clock when the reading began. */
  datatype Reading = Reading(values: Comp, inPpt: bool, asOf: nat)

  const NO_READING := Reading(NOTHING, false, 0)

  datatype ReadBack = ReadBack(device: Device, status: Status, reading: Reading)

  function Asked(d: Device, q: Query): Device { CutIf(d, q.cutBefore) }
  function Answered(d: Device, q: Query): Device {
    CutIf(Asked(d, q), q.cutAfter).(clock := d.clock + 1)
  }
  function QueryFailed(q: Query): Status { Status(ErrorCode(q.failure), "read compensation") }

  function ShownTemperature(d: Device, q: Query): real { Asked(d, q).held.t + q.skew * TEMPERATURE_READBACK }
  function ShownSalinity(d: Device, q: Query): real { Asked(d, q).held.s + q.skew * SALINITY_READBACK }
  function ShownPressure(d: Device, q: Query): real { Asked(d, q).held.p + q.skew * PRESSURE_READBACK }

  function ReadPh(d: Device, turns: ReadTurns): ReadBack {
    if !turns.t.answered then ReadBack(Answered(d, turns.t), QueryFailed(turns.t), NO_READING)
    else
      ReadBack(Answered(d, turns.t), OK,
               Reading(Comp(Some(ShownTemperature(d, turns.t)), None, None), false, d.clock))
  }

  function ReadDo(d: Device, turns: ReadTurns): ReadBack {
    var d1 := Answered(d, turns.t);
    if !turns.t.answered then ReadBack(d1, QueryFailed(turns.t), NO_READING)
    else
      var d2 := Answered(d1, turns.s);
      if !turns.s.answered then ReadBack(d2, QueryFailed(turns.s), NO_READING)
      else
        var d3 := Answered(d2, turns.p);
        if !turns.p.answered then ReadBack(d3, QueryFailed(turns.p), NO_READING)
        else
          var ppt := Asked(d1, turns.s).held.ppt;
          ReadBack(d3, OK,
                   Reading(Comp(Some(ShownTemperature(d, turns.t)),
                                if ppt then None else Some(ShownSalinity(d1, turns.s)),
                                Some(ShownPressure(d2, turns.p))),
                           ppt, d.clock))
  }

  function Read(d: Device, turns: ReadTurns): ReadBack {
    if d.family.Do? then ReadDo(d, turns) else ReadPh(d, turns)
  }
}
