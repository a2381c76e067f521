/** Which commands each job sends to the probe, and in what order. */
module CommandTheorems {
  import opened Statuses
  import opened Compensation
  import opened Probe
  import opened Jobs

  /** The values given, as commands: temperature, salinity, pressure. */
  function Commands(values: Comp): seq<Command> {
    (if values.t.Some? then [SetTemperature(SentTemperature(values.t.value))] else []) +
    (if values.s.Some? then [SetSalinity(SentSalinity(values.s.value))] else []) +
    (if values.p.Some? then [SetPressure(SentPressure(values.p.value))] else [])
  }

  /** ... from the i-th value on. */
  function CommandsFrom(values: Comp, i: nat): seq<Command> {
    Commands(Comp(if i <= 0 then values.t else None, if i <= 1 then values.s else None,
                  if i <= 2 then values.p else None))
  }

  lemma CommandsStep(values: Comp, i: nat)
    requires i < 3
    ensures CommandsFrom(values, i) ==
      (if CommandFor(values, i).Some? then [CommandFor(values, i).value] else []) + CommandsFrom(values, i + 1)
  {
  }

  /** A write sends a prefix of the commands, all of them if it is OK, and at least one if there
      is one: the first refused is the last sent. */
  lemma {:induction false} WriteTells(d: Device, values: Comp, turns: WriteTurns, i: nat) returns (n: nat)
    requires i <= 3
    ensures var r, all := WriteFrom(d, values, turns, i), CommandsFrom(values, i);
      && n <= |all| && r.device.told == d.told + all[..n]
      && (r.status.IsOk() ==> n == |all|) && (all != [] ==> n > 0)
    decreases 3 - i
  {
    var all := CommandsFrom(values, i);
    if i == 3 {
      n := 0;
    } else if CommandFor(values, i).None? {
      CommandsStep(values, i);
      n := WriteTells(d, values, turns, i + 1);
    } else {
      CommandsStep(values, i);
      var c := CommandFor(values, i).value;
      var one := Exchange(d, c, TurnFor(turns, i));
      if one.status.IsOk() {
        var m := WriteTells(one.device, values, turns, i + 1);
        n := m + 1;
        assert all[..n] == [c] + CommandsFrom(values, i + 1)[..m];
      } else {
        n := 1;
      }
    }
  }

  /** An OK write sends exactly the values given, in order. */
  lemma OkWriteTells(d: Device, values: Comp, turns: WriteTurns)
    requires Write(d, values, turns).status.IsOk()
    ensures Write(d, values, turns).device.told == d.told + Commands(Writable(d.family, values))
  {
    var v := Writable(d.family, values);
    var n := WriteTells(d, v, turns, 0);
    assert CommandsFrom(v, 0) == Commands(v);
  }

  /** Any write sends a prefix of them. */
  lemma WriteTellsPrefix(d: Device, values: Comp, turns: WriteTurns) returns (n: nat)
    ensures n <= |Commands(Writable(d.family, values))|
    ensures Write(d, values, turns).device.told == d.told + Commands(Writable(d.family, values))[..n]
  {
    var v := Writable(d.family, values);
    n := WriteTells(d, v, turns, 0);
    assert CommandsFrom(v, 0) == Commands(v);
  }

  // ---- A DO calibration --------------------------------------------------------------------

  /** Once the defaults are set: the Cal, and unless its send failed, values to restore. */
  lemma CalTells(d: Device, zero: bool, restore: Comp, e: Env) returns (n: nat)
    requires d.family.Do?
    ensures n <= |Commands(restore)| && (!e.command.sent ==> n == 0)
    ensures CalThenRestore(d, zero, restore, e).device.told == d.told + [CalibrateDo(zero)] + Commands(restore)[..n]
  {
    var cal := Exchange(d, CalibrateDo(zero), e.command);
    if e.command.sent {
      n := WriteTellsPrefix(cal.device, restore, e.restore);
    } else {
      n := 0;
    }
  }

  /** A DO calibration sends the defaults; then, exactly if they were all accepted, the Cal or
      Cal,0 asked for; and last, unless the send of that failed, the values to restore, up to the
      first refused. */
  lemma CalibrationSends(d: Device, zero: bool, restore: Comp, e: Env) returns (m: nat, n: nat)
    requires d.family.Do?
    ensures m <= |Commands(DO_DEFAULTS)| && n <= |Commands(restore)|
    ensures var defaulted := Write(d, DO_DEFAULTS, e.write).status.IsOk();
      && (defaulted ==> m == 3) && (defaulted && !e.command.sent ==> n == 0)
      && CalibrateDoRun(d, zero, restore, e).device.told ==
           d.told + Commands(DO_DEFAULTS)[..m] + (if defaulted then [CalibrateDo(zero)] else [])
           + Commands(restore)[..n]
  {
    var defaults := Write(d, DO_DEFAULTS, e.write);
    m := WriteTellsPrefix(d, DO_DEFAULTS, e.write);
    WriteKeepsRest(d, DO_DEFAULTS, e.write, 0);
    if defaults.status.IsOk() {
      OkWriteTells(d, DO_DEFAULTS, e.write);
      m := 3;
      n := CalTells(defaults.device, zero, restore, e);
    } else {
      n := WriteTellsPrefix(defaults.device, restore, e.restore);
    }
  }

  lemma OkCalibrationDefaulted(d: Device, zero: bool, restore: Comp, e: Env)
    requires d.family.Do? && CalibrateDoRun(d, zero, restore, e).status.IsOk()
    ensures Write(d, DO_DEFAULTS, e.write).status.IsOk()
  {
  }

  /** An OK one sends all of the defaults, and the Cal or Cal,0. */
  lemma OkCalibrationSends(d: Device, point: nat, reference: real, restore: Comp, e: Env) returns (n: nat)
    requires d.family.Do? && e.bound && RunJob(Calibrate(point, reference, restore), d, e).status.IsOk()
    ensures n <= |Commands(restore)|
    ensures RunJob(Calibrate(point, reference, restore), d, e).device.told ==
      d.told + Commands(DO_DEFAULTS) + [CalibrateDo(point == 1)] + Commands(restore)[..n]
  {
    var m;
    m, n := CalibrationSends(d, point == 1, restore, e);
    OkCalibrationDefaulted(d, point == 1, restore, e);
    assert Commands(DO_DEFAULTS)[..3] == Commands(DO_DEFAULTS);
  }

  // ---- Every job -----------------------------------------------------------------------------

  lemma ReadTellsNothing(d: Device, turns: ReadTurns)
    ensures Read(d, turns).device.told == d.told && Read(d, turns).device.family == d.family
  {
  }

  /** A check sends nothing unless a wanted value is missing, and then the wanted values. */
  lemma CheckTells(d: Device, wanted: Comp, e: Env) returns (n: nat)
    ensures n <= |Commands(Writable(d.family, wanted))|
    ensures CheckRun(d, wanted, e).device.told == d.told + Commands(Writable(d.family, wanted))[..n]
    ensures !Read(d, e.first).status.IsOk() || HoldsAll(wanted, Read(d, e.first).reading.values) ==> n == 0
    ensures CheckRun(d, wanted, e).reapplied ==> n == |Commands(Writable(d.family, wanted))|
  {
    var first := Read(d, e.first);
    ReadTellsNothing(d, e.first);
    if !first.status.IsOk() || HoldsAll(wanted, first.reading.values) {
      n := 0;
    } else {
      n := WriteTellsPrefix(first.device, wanted, e.write);
      var sent := Write(first.device, wanted, e.write);
      ReadTellsNothing(sent.device, e.again);
      if sent.status.IsOk() {
        OkWriteTells(first.device, wanted, e.write);
        n := |Commands(Writable(d.family, wanted))|;
      }
    }
  }

  /** The one command of a job that has one. */
  function OnlyCommand(job: Job, family: Family): Option<Command> {
    match job
    case Calibrate(point, reference, _) => if family.Do? then None else Some(CalibratePh(point, reference))
    case Clear => Some(ClearCalibration)
    case Plain(command) => Some(command)
    case GoToSleep => Some(Sleep)
    case _ => None
  }

  lemma OneCommandTold(job: Job, d: Device, e: Env)
    requires e.bound && OnlyCommand(job, d.family).Some?
    ensures RunJob(job, d, e).device.told == d.told + [OnlyCommand(job, d.family).value]
  {
  }

  /** A sample, a level read and a job for another device send this one nothing. */
  lemma QueriesTellNothing(job: Job, d: Device, e: Env)
    requires job.Sample? || job.Level? || job.Foreign? || !e.bound
    ensures RunJob(job, d, e).device.told == d.told
  {
  }

  // ---- Sleep is not asked for an answer ---------------------------------------------------------

  /** The sleep job is OK exactly when the command was sent, whatever the probe would answer, and
      never re-reads. */
  lemma SleepAsksNothing(d: Device, e: Env)
    requires e.bound
    ensures var r := RunJob(GoToSleep, d, e); (r.status.IsOk() <==> e.command.sent) && r.rereads == 0
  {
  }

  /** Every other single command is OK exactly when it was sent and answered SUCCESS in time. */
  lemma OneCommandOk(job: Job, d: Device, e: Env)
    requires e.bound && OnlyCommand(job, d.family).Some? && !job.GoToSleep?
    ensures RunJob(job, d, e).status.IsOk() <==>
      e.command.sent && FrameAt(e.command.frames, Settles(e.command.frames)) == Success
    ensures RunJob(job, d, e).commands == if e.command.sent then 1 else 0
  {
  }

  /** A sample or a level read is OK exactly when the probe answered it. */
  lemma QueryOk(job: Job, d: Device, e: Env)
    requires e.bound && (job.Sample? || job.Level?)
    ensures RunJob(job, d, e).status.IsOk() <==> if job.Sample? then e.sample.answered else e.level.answered
    ensures RunJob(job, d, e).status.IsOk() && job.Sample? ==> RunJob(job, d, e).signals == e.sample.signals
  {
  }

  /** A device that cannot be bound is not spoken to. */
  lemma UnboundIsUntouched(job: Job, d: Device, e: Env)
    requires !e.bound
    ensures RunJob(job, d, e).device == d && RunJob(job, d, e).status.code == Internal
  {
  }
}
