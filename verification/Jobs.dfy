/** The bus jobs the provider submits for one device, as what they do to the probe and
    what they report, whatever the environment does meanwhile
    (src/core/ezo_provider_runtime.cpp:360-436, src/core/runtime_state.cpp:681-884). */
module Jobs {
  import opened Statuses
  import opened Compensation
  import opened Probe
  import opened Signals

  datatype Job =
    | Sample
    | Level
    | Check(wanted: Comp)
    | SetValues(values: Comp)
    | Calibrate(point: nat, reference: real, restore: Comp)
    | Clear
    | Plain(command: Command)
    | GoToSleep
    | Foreign  // a job for another device on the same bus

  datatype SampleTurn = SampleTurn(
    cutBefore: bool,
    answered: bool,
    failure: StatusCode,
    signals: seq<Slot>,
    cutAfter: bool)

  /** Everything the environment may do during one job; each job uses the parts it needs. */
  datatype Env = Env(
    bound: bool,
    sample: SampleTurn,
    level: Query,
    first: ReadTurns,
    write: WriteTurns,
    command: Turn,
    restore: WriteTurns,
    again: ReadTurns)

  predicate Honest(e: Env) {
    && HonestRead(e.first) && HonestWrite(e.write) && HonestTurn(e.command) && HonestWrite(e.restore)
    && HonestRead(e.again)
  }

  predicate NoCuts(e: Env) {
    NoCutRead(e.first) && NoCutWrite(e.write) && NoCut(e.command) && NoCutWrite(e.restore) && NoCutRead(e.again)
    && NoCutQuery(e.level) && !e.sample.cutBefore && !e.sample.cutAfter
  }

  /** `reading` and `reapplied` are the shared outcome of a check job; `levelAsOf` is
      history, the probe's clock when it answered Cal,?. */
  datatype Outcome = Outcome(
    device: Device,
    status: Status,
    signals: seq<Slot>,
    level: real,
    levelAsOf: nat,
    reading: Reading,
    reapplied: bool,
    commands: nat,
    rereads: nat)

  function Plainly(d: Device, status: Status): Outcome {
    Outcome(d, status, [], 0.0, 0, NO_READING, false, 0, 0)
  }

  function FromRan(r: Ran): Outcome {
    Outcome(r.device, r.status, [], 0.0, 0, NO_READING, false, r.commands, r.rereads)
  }

  const BIND_FAILED := Status(Internal, "ezo_device_init failed")

  // ---- check_compensation's job: read, re-send if something is lost, read again ----

  function CheckRun(d: Device, wanted: Comp, e: Env): Outcome {
    var first := Read(d, e.first);
    if !first.status.IsOk() || HoldsAll(wanted, first.reading.values) then
      Plainly(first.device, first.status).(reading := first.reading)
    else
      var sent := Write(first.device, wanted, e.write);
      if !sent.status.IsOk() then
        Plainly(sent.device, Status(sent.status.code, "probe lost its compensation and sending it again failed"))
          .(reading := first.reading)
      else
        var again := Read(sent.device, e.again);
        Plainly(again.device, again.status)
          .(reading := if again.status.IsOk() then again.reading else first.reading, reapplied := true)
  }

  // ---- A DO calibration: defaults, Cal, restore -------------------------------------

  function Both(a: Ran, b: Ran, status: Status): Ran {
    Ran(b.device, status, a.commands + b.commands, a.rereads + b.rereads)
  }

  /** If the send itself fails the restore is not reached. */
  function CalThenRestore(d: Device, zero: bool, restore: Comp, e: Env): Ran {
    var cal := Exchange(d, CalibrateDo(zero), e.command);
    if !e.command.sent then cal
    else Both(cal, Write(cal.device, restore, e.restore), cal.status)
  }

  function CalibrateDoRun(d: Device, zero: bool, restore: Comp, e: Env): Ran {
    var defaults := Write(d, DO_DEFAULTS, e.write);
    if !defaults.status.IsOk() then
      Both(defaults, Write(defaults.device, restore, e.restore),
           Status(defaults.status.code, "could not set the default compensation a DO calibration needs"))
    else
      var rest := CalThenRestore(defaults.device, zero, restore, e);
      Both(defaults, rest, rest.status)
  }

  // ---- The other jobs -----------------------------------------------------------------

  function SampleRun(d: Device, t: SampleTurn): Outcome {
    var after := CutIf(CutIf(d, t.cutBefore), t.cutAfter).(clock := d.clock + 1);
    Plainly(after, if t.answered then OK else Status(ErrorCode(t.failure), "read sample")).(signals := t.signals)
  }

  function LevelRun(d: Device, q: Query): Outcome {
    Plainly(Answered(d, q), if q.answered then OK else Status(ErrorCode(q.failure), "read calibration status"))
      .(level := Asked(d, q).level as real, levelAsOf := d.clock)
  }

  /** After Sleep the response is not read. */
  function SleepRun(d: Device, turn: Turn): Ran {
    Ran(AfterTurn(d, Sleep, turn), if turn.sent then OK else SEND_FAILED, SentCount(turn), 0)
  }

  function RunJob(job: Job, d: Device, e: Env): Outcome {
    if !e.bound then Plainly(d, BIND_FAILED)
    else
      match job
      case Sample => SampleRun(d, e.sample)
      case Level => LevelRun(d, e.level)
      case Check(wanted) => CheckRun(d, wanted, e)
      case SetValues(values) => FromRan(Write(d, values, e.write))
      case Calibrate(point, reference, restore) =>
        FromRan(if d.family.Do? then CalibrateDoRun(d, point == 1, restore, e)
                else Exchange(d, CalibratePh(point, reference), e.command))
      case Clear => FromRan(Exchange(d, ClearCalibration, e.command))
      case Plain(command) => FromRan(Exchange(d, command, e.command))
      case GoToSleep => FromRan(SleepRun(d, e.command))
      case Foreign => Plainly(CutIf(d, e.command.cutBefore), OK)
  }

  // ---- What the writer guarantees -------------------------------------------------------

  /** The probe's value for the i-th field: 0 temperature, 1 salinity, 2 pressure. */
  function Field(h: Settings, i: nat): real
    requires i < 3
  {
    match i case 0 => h.t case 1 => h.s case 2 => h.p
  }

  function Wanted(values: Comp, i: nat): Option<real>
    requires i < 3
  {
    match i
    case 0 => if values.t.Some? then Some(SentTemperature(values.t.value)) else None
    case 1 => if values.s.Some? then Some(SentSalinity(values.s.value)) else None
    case 2 => if values.p.Some? then Some(SentPressure(values.p.value)) else None
  }

  /** Field j after a write that began at field i and stopped at field k (3: did not stop). */
  predicate FieldAfter(before: Settings, after: Settings, values: Comp, i: nat, k: nat, j: nat)
    requires j < 3
  {
    var kept := Field(after, j) == Field(before, j);
    var written := Wanted(values, j).Some? && Field(after, j) == Wanted(values, j).value;
    if j < i || k < j then kept
    else if j < k then (if Wanted(values, j).Some? then written else kept)
    else Wanted(values, j).Some? && (kept || written)
  }

  predicate Prefix(before: Settings, after: Settings, values: Comp, i: nat, k: nat) {
    && FieldAfter(before, after, values, i, k, 0)
    && FieldAfter(before, after, values, i, k, 1)
    && FieldAfter(before, after, values, i, k, 2)
  }

  lemma WriteKeepsRest(d: Device, values: Comp, turns: WriteTurns, i: nat)
    requires i <= 3
    ensures var r := WriteFrom(d, values, turns, i);
      && r.device.family == d.family && r.device.level == d.level && r.device.calibratedAt == d.calibratedAt
      && r.device.clock >= d.clock + r.commands && r.commands <= 3 - i && r.rereads <= PENDING_REREADS * r.commands
    decreases 3 - i
  {
    if i < 3 && CommandFor(values, i).None? {
      WriteKeepsRest(d, values, turns, i + 1);
    } else if i < 3 {
      var one := Exchange(d, CommandFor(values, i).value, TurnFor(turns, i));
      if one.status.IsOk() {
        WriteKeepsRest(one.device, values, turns, i + 1);
      }
    }
  }

  /** One command, without a power cut, touches its own field, for sure when accepted. */
  lemma OneFieldWritten(d: Device, values: Comp, turn: Turn, i: nat, j: nat)
    requires i < 3 && j < 3 && HonestTurn(turn) && NoCut(turn) && CommandFor(values, i).Some?
    ensures var one := Exchange(d, CommandFor(values, i).value, turn);
      && (j != i ==> Field(one.device.held, j) == Field(d.held, j))
      && (one.status.IsOk() ==> Field(one.device.held, i) == Wanted(values, i).value)
      && (Field(one.device.held, i) == Field(d.held, i) || Field(one.device.held, i) == Wanted(values, i).value)
  {
  }

  /** Without a power cut: an OK write has put every given value on the probe and touched
      nothing else; a refused one has written the values before some given field k, left
      the ones after k alone, and field k one way or the other. */
  lemma {:induction false} OrderedWrite(d: Device, values: Comp, turns: WriteTurns, i: nat) returns (k: nat)
    requires i <= 3 && HonestWrite(turns) && NoCutWrite(turns)
    ensures var r := WriteFrom(d, values, turns, i);
      i <= k <= 3 && (r.status.IsOk() <==> k == 3) && Prefix(d.held, r.device.held, values, i, k)
    decreases 3 - i
  {
    if i == 3 {
      k := 3;
    } else if CommandFor(values, i).None? {
      k := OrderedWrite(d, values, turns, i + 1);
    } else {
      var one := Exchange(d, CommandFor(values, i).value, TurnFor(turns, i));
      OneFieldWritten(d, values, TurnFor(turns, i), i, 0);
      OneFieldWritten(d, values, TurnFor(turns, i), i, 1);
      OneFieldWritten(d, values, TurnFor(turns, i), i, 2);
      if one.status.IsOk() {
        k := OrderedWrite(one.device, values, turns, i + 1);
      } else {
        k := i;
      }
    }
  }
}
