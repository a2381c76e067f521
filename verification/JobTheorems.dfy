/** What the calibration and compensation jobs guarantee about the probe. */
module JobTheorems {
  import opened Statuses
  import opened Compensation
  import opened Probe
  import opened Jobs

  /** The jobs the provider makes: a plain command is find or set_led. */
  predicate WellFormed(job: Job) {
    job.Plain? ==> job.command.Find? || job.command.Led?
  }

  // ---- DO calibration safety -----------------------------------------------------

  /** The first i values are at their defaults. */
  predicate DefaultsUpTo(h: Settings, i: nat) {
    && (i > 0 ==> h.t == DO_DEFAULT_TEMPERATURE)
    && (i > 1 ==> h.s == DO_DEFAULT_SALINITY)
    && (i > 2 ==> h.p == DO_DEFAULT_PRESSURE)
  }

  lemma OneMoreDefault(d: Device, turn: Turn, i: nat)
    requires i < 3 && d.family.Do? && HonestTurn(turn) && DefaultsUpTo(d.held, i)
    ensures var one := Exchange(d, CommandFor(DO_DEFAULTS, i).value, turn);
      one.device.family.Do? && (one.status.IsOk() ==> DefaultsUpTo(one.device.held, i + 1))
  {
    DefaultsSentExactly();
  }

  /** Setting the defaults cannot be undone by a power cut: it restores the same values. */
  lemma {:induction false} DefaultsFrom(d: Device, turns: WriteTurns, i: nat)
    requires i <= 3 && d.family.Do? && HonestWrite(turns) && DefaultsUpTo(d.held, i)
    ensures var r := WriteFrom(d, DO_DEFAULTS, turns, i);
      r.device.family.Do? && (r.status.IsOk() ==> AtDefaults(r.device.held))
    decreases 3 - i
  {
    if i < 3 {
      var one := Exchange(d, CommandFor(DO_DEFAULTS, i).value, TurnFor(turns, i));
      OneMoreDefault(d, TurnFor(turns, i), i);
      if one.status.IsOk() {
        DefaultsFrom(one.device, turns, i + 1);
      }
    }
  }

  /** A DO probe went from one state to another having acted on at most one Cal or Cal,0,
      and on that one at the default compensation. */
  ghost predicate SafeStep(before: Device, after: Device) {
    after.family.Do? &&
    (after.calibratedAt == before.calibratedAt ||
     exists at :: AtDefaults(at) && after.calibratedAt == before.calibratedAt + [at])
  }

  lemma CalThenRestoreSafe(d: Device, zero: bool, restore: Comp, e: Env)
    requires d.family.Do? && AtDefaults(d.held)
    ensures SafeStep(d, CalThenRestore(d, zero, restore, e).device)
  {
    var cal := Exchange(d, CalibrateDo(zero), e.command);
    WriteKeepsRest(cal.device, restore, e.restore, 0);
    assert AtDefaults(CutIf(d, e.command.cutBefore).held);
  }

  lemma CalibrateDoSafe(d: Device, zero: bool, restore: Comp, e: Env)
    requires d.family.Do? && Honest(e)
    ensures SafeStep(d, CalibrateDoRun(d, zero, restore, e).device)
  {
    var defaults := Write(d, DO_DEFAULTS, e.write);
    DefaultsFrom(d, e.write, 0);
    WriteKeepsRest(d, DO_DEFAULTS, e.write, 0);
    if defaults.status.IsOk() {
      CalThenRestoreSafe(defaults.device, zero, restore, e);
    } else {
      WriteKeepsRest(defaults.device, restore, e.restore, 0);
    }
  }

  lemma ReadKeepsSettings(d: Device, turns: ReadTurns)
    ensures var r := Read(d, turns);
      && r.device.family == d.family && r.device.level == d.level && r.device.calibratedAt == d.calibratedAt
      && r.device.clock > d.clock
      && (NoCutRead(turns) ==> r.device.held == d.held)
      && (r.status.IsOk() ==> r.reading.asOf == d.clock)
  {
  }

  lemma CheckKeepsRest(d: Device, wanted: Comp, e: Env)
    ensures var after := CheckRun(d, wanted, e).device;
      && after.family == d.family && after.level == d.level && after.calibratedAt == d.calibratedAt
      && after.clock > d.clock
  {
    var first := Read(d, e.first);
    ReadKeepsSettings(d, e.first);
    WriteKeepsRest(first.device, Writable(d.family, wanted), e.write, 0);
    ReadKeepsSettings(Write(first.device, wanted, e.write).device, e.again);
  }

  /** Whatever the job and however often the power is cut during it, a Cal or Cal,0
      reaches a DO probe only while it compensates for 20 C, salinity 0 and 101.3 kPa. */
  lemma CalibrationOnlyAtDefaults(job: Job, d: Device, e: Env)
    requires d.family.Do? && Honest(e) && WellFormed(job)
    ensures SafeStep(d, RunJob(job, d, e).device)
  {
    match job
    case Calibrate(point, _, restore) => CalibrateDoSafe(d, point == 1, restore, e);
    case Check(wanted) => CheckKeepsRest(d, wanted, e);
    case SetValues(values) => WriteKeepsRest(d, values, e.write, 0);
    case _ =>
  }

  // ---- A write that goes through ------------------------------------------------------

  predicate AcceptedTurn(turn: Turn) {
    NoCut(turn) && turn.sent && turn.acts && FrameAt(turn.frames, Settles(turn.frames)) == Success
  }

  predicate AcceptedWrite(turns: WriteTurns) {
    AcceptedTurn(turns.t) && AcceptedTurn(turns.s) && AcceptedTurn(turns.p)
  }

  /** The probe holds each given value as it was sent; a given salinity is in uS/cm. */
  predicate HeldFor(h: Settings, values: Comp) {
    && (values.t.Some? ==> h.t == SentTemperature(values.t.value))
    && (values.s.Some? ==> h.s == SentSalinity(values.s.value) && !h.ppt)
    && (values.p.Some? ==> h.p == SentPressure(values.p.value))
  }

  /** The values the family takes at all. */
  predicate Covered(family: Family, values: Comp) {
    family.Do? || (values.s.None? && values.p.None?)
  }

  lemma {:induction false} UnitAfterWrite(d: Device, values: Comp, turns: WriteTurns, i: nat)
    requires i <= 3 && HonestWrite(turns) && NoCutWrite(turns)
    ensures var r := WriteFrom(d, values, turns, i);
      && (r.status.IsOk() && i <= 1 && values.s.Some? ==> !r.device.held.ppt)
      && (!d.held.ppt ==> !r.device.held.ppt)
    decreases 3 - i
  {
    if i < 3 && CommandFor(values, i).None? {
      UnitAfterWrite(d, values, turns, i + 1);
    } else if i < 3 {
      var one := Exchange(d, CommandFor(values, i).value, TurnFor(turns, i));
      if one.status.IsOk() {
        UnitAfterWrite(one.device, values, turns, i + 1);
      }
    }
  }

  lemma WriteEstablishes(d: Device, values: Comp, turns: WriteTurns)
    requires HonestWrite(turns) && NoCutWrite(turns) && Covered(d.family, values)
    requires Write(d, values, turns).status.IsOk()
    ensures HeldFor(Write(d, values, turns).device.held, values)
  {
    var k := OrderedWrite(d, Writable(d.family, values), turns, 0);
    UnitAfterWrite(d, Writable(d.family, values), turns, 0);
  }

  lemma AcceptedWriteIsOk(d: Device, values: Comp, turns: WriteTurns, i: nat)
    requires i <= 3 && AcceptedWrite(turns)
    ensures WriteFrom(d, values, turns, i).status.IsOk()
    decreases 3 - i
  {
  }

  function OrDefault(value: Option<real>, sent: real -> real, default: real): real {
    if value.Some? then sent(value.value) else default
  }

  /** When the probe accepts everything, a DO calibration adds its point and leaves the
      probe with every value to be restored, as sent; a value there is nothing to restore
      for is left at its default, and salinity in uS/cm. */
  lemma CalibrationRestores(d: Device, point: nat, reference: real, restore: Comp, e: Env)
    requires d.family.Do? && e.bound && Honest(e)
    requires AcceptedWrite(e.write) && AcceptedTurn(e.command) && AcceptedWrite(e.restore)
    ensures var r := RunJob(Calibrate(point, reference, restore), d, e);
      && r.status.IsOk()
      && r.device.level == Min(d.level + 1, 2)
      && r.device.held == Settings(OrDefault(restore.t, SentTemperature, DO_DEFAULT_TEMPERATURE),
                                   OrDefault(restore.s, SentSalinity, DO_DEFAULT_SALINITY),
                                   false,
                                   OrDefault(restore.p, SentPressure, DO_DEFAULT_PRESSURE))
  {
    var defaults := Write(d, DO_DEFAULTS, e.write);
    AcceptedWriteIsOk(d, DO_DEFAULTS, e.write, 0);
    DefaultsFrom(d, e.write, 0);
    UnitAfterWrite(d, DO_DEFAULTS, e.write, 0);
    WriteKeepsRest(d, DO_DEFAULTS, e.write, 0);
    var cal := Exchange(defaults.device, CalibrateDo(point == 1), e.command);
    AcceptedWriteIsOk(cal.device, restore, e.restore, 0);
    var k := OrderedWrite(cal.device, restore, e.restore, 0);
    UnitAfterWrite(cal.device, restore, e.restore, 0);
    WriteKeepsRest(cal.device, restore, e.restore, 0);
  }

  lemma CalThenRestoreLevel(d: Device, zero: bool, restore: Comp, e: Env)
    requires d.family.Do? && HonestTurn(e.command) && CalThenRestore(d, zero, restore, e).status.IsOk()
    ensures CalThenRestore(d, zero, restore, e).device.level == if d.level == 0 then 1 else 2
    ensures |CalThenRestore(d, zero, restore, e).device.calibratedAt| == |d.calibratedAt| + 1
  {
    var cal := Exchange(d, CalibrateDo(zero), e.command);
    WriteKeepsRest(cal.device, restore, e.restore, 0);
  }

  /** The level after a calibration that came out OK, power cuts or not. */
  lemma AcceptedCalibrationLevel(point: nat, reference: real, restore: Comp, d: Device, e: Env)
    requires (d.family.Do? || d.family.Ph?) && HonestTurn(e.command)
    requires RunJob(Calibrate(point, reference, restore), d, e).status.IsOk()
    ensures RunJob(Calibrate(point, reference, restore), d, e).device.level ==
      if d.family.Do? then (if d.level == 0 then 1 else 2) else point + 1
    ensures |RunJob(Calibrate(point, reference, restore), d, e).device.calibratedAt| ==
      |d.calibratedAt| + if d.family.Do? then 1 else 0
  {
    if d.family.Do? {
      WriteKeepsRest(d, DO_DEFAULTS, e.write, 0);
      CalThenRestoreLevel(Write(d, DO_DEFAULTS, e.write).device, point == 1, restore, e);
    }
  }

  /** A clear_calibration job that came out OK has left no calibration. */
  lemma ClearedLevel(d: Device, e: Env)
    requires HonestTurn(e.command) && RunJob(Clear, d, e).status.IsOk()
    ensures RunJob(Clear, d, e).device.level == 0
  {
  }

  // ---- The check job ----------------------------------------------------------------

  lemma ReadSeesHeld(d: Device, values: Comp, turns: ReadTurns)
    requires HeldFor(d.held, values) && Covered(d.family, values)
    requires HonestRead(turns) && NoCutRead(turns) && Read(d, turns).status.IsOk()
    ensures HoldsAll(values, Read(d, turns).reading.values)
  {
  }

  // ---- When an OK check can be believed ---------------------------------------------------

  predicate CutIn(turn: Turn) { turn.cutBefore || turn.cutAfter }
  predicate CutInQuery(q: Query) { q.cutBefore || q.cutAfter }

  function PowerUpTemperature(family: Family): real {
    if family.Do? then DO_DEFAULT_TEMPERATURE else PH_DEFAULT_TEMPERATURE
  }

  /** Power was lost after the value took effect and before the end of the write. */
  predicate CutAfterT(wanted: Comp, turns: WriteTurns) {
    turns.t.cutAfter || (wanted.s.Some? && CutIn(turns.s)) || (wanted.p.Some? && CutIn(turns.p))
  }
  predicate CutAfterS(wanted: Comp, turns: WriteTurns) { turns.s.cutAfter || (wanted.p.Some? && CutIn(turns.p)) }
  predicate CutAfterP(turns: WriteTurns) { turns.p.cutAfter }

  /** ... or before it was asked for again. */
  predicate LostT(wanted: Comp, e: Env) { CutAfterT(wanted, e.write) || e.again.t.cutBefore }
  predicate LostS(wanted: Comp, e: Env) { CutAfterS(wanted, e.write) || CutInQuery(e.again.t) || e.again.s.cutBefore }
  predicate LostP(e: Env) {
    CutAfterP(e.write) || CutInQuery(e.again.t) || CutInQuery(e.again.s) || e.again.p.cutBefore
  }

  /** Each wanted value was still there when asked for again, or the power-up value shown
      instead is within tolerance of it. */
  predicate ResendSeen(family: Family, wanted: Comp, e: Env) {
    && (wanted.t.Some? && LostT(wanted, e) ==>
          Abs(wanted.t.value - (PowerUpTemperature(family) + e.again.t.skew * TEMPERATURE_READBACK))
            <= TEMPERATURE_TOLERANCE)
    && (wanted.s.Some? && LostS(wanted, e) ==>
          Abs(wanted.s.value - (DO_DEFAULT_SALINITY + e.again.s.skew * SALINITY_READBACK)) <= SALINITY_TOLERANCE)
    && (wanted.p.Some? && LostP(e) ==>
          Abs(wanted.p.value - (DO_DEFAULT_PRESSURE + e.again.p.skew * PRESSURE_READBACK)) <= PRESSURE_TOLERANCE)
  }

  /** The settings with a cut, if there was one. */
  function Kept(family: Family, h: Settings, cut: bool): Settings {
    if cut then Settings(PowerUpTemperature(family), DO_DEFAULT_SALINITY, h.ppt, DO_DEFAULT_PRESSURE) else h
  }

  lemma HeldFromPressure(d: Device, v: Comp, turns: WriteTurns)
    requires HonestWrite(turns) && WriteFrom(d, v, turns, 2).status.IsOk()
    ensures var h, kept := WriteFrom(d, v, turns, 2).device.held, Kept(d.family, d.held, v.p.Some? && CutIn(turns.p));
      && h.t == kept.t && h.s == kept.s && h.ppt == kept.ppt
      && (v.p.Some? ==> h.p == if turns.p.cutAfter then DO_DEFAULT_PRESSURE else SentPressure(v.p.value))
  {
  }

  lemma HeldFromSalinity(d: Device, v: Comp, turns: WriteTurns)
    requires HonestWrite(turns) && WriteFrom(d, v, turns, 1).status.IsOk()
    ensures var h := WriteFrom(d, v, turns, 1).device.held;
      && h.t == Kept(d.family, d.held, (v.s.Some? && CutIn(turns.s)) || (v.p.Some? && CutIn(turns.p))).t
      && (v.s.Some? ==>
            !h.ppt && h.s == if CutAfterS(v, turns) then DO_DEFAULT_SALINITY else SentSalinity(v.s.value))
      && (v.p.Some? ==> h.p == if CutAfterP(turns) then DO_DEFAULT_PRESSURE else SentPressure(v.p.value))
  {
    HeldFromPressure(if v.s.Some? then AfterTurn(d, SetSalinity(SentSalinity(v.s.value)), turns.s) else d, v, turns);
  }

  /** What a probe holds after an OK write, power cuts and all. */
  predicate WrittenThrough(family: Family, h: Settings, wanted: Comp, turns: WriteTurns) {
    && (wanted.t.Some? ==>
          h.t == if CutAfterT(wanted, turns) then PowerUpTemperature(family) else SentTemperature(wanted.t.value))
    && (wanted.s.Some? ==>
          !h.ppt && h.s == if CutAfterS(wanted, turns) then DO_DEFAULT_SALINITY else SentSalinity(wanted.s.value))
    && (wanted.p.Some? ==>
          h.p == if CutAfterP(turns) then DO_DEFAULT_PRESSURE else SentPressure(wanted.p.value))
  }

  lemma HeldAfterWrite(d: Device, wanted: Comp, turns: WriteTurns)
    requires HonestWrite(turns) && Covered(d.family, wanted) && Write(d, wanted, turns).status.IsOk()
    ensures WrittenThrough(d.family, Write(d, wanted, turns).device.held, wanted, turns)
  {
    assert Writable(d.family, wanted) == wanted;
    var first := if wanted.t.Some? then AfterTurn(d, SetTemperature(SentTemperature(wanted.t.value)), turns.t) else d;
    HeldFromSalinity(first, wanted, turns);
  }

  /** Reading it back: the value held, or the power-up value if power was lost before its query. */
  lemma ShownAgain(d: Device, turns: ReadTurns)
    requires Read(d, turns).status.IsOk()
    ensures var r, h := Read(d, turns).reading.values, d.held;
      && r.t == Some((if turns.t.cutBefore then PowerUpTemperature(d.family) else h.t)
                     + turns.t.skew * TEMPERATURE_READBACK)
      && (d.family.Do? && !h.ppt ==>
            r.s == Some((if CutInQuery(turns.t) || turns.s.cutBefore then DO_DEFAULT_SALINITY else h.s)
                        + turns.s.skew * SALINITY_READBACK))
      && (d.family.Do? ==>
            r.p == Some((if CutInQuery(turns.t) || CutInQuery(turns.s) || turns.p.cutBefore
                         then DO_DEFAULT_PRESSURE else h.p) + turns.p.skew * PRESSURE_READBACK))
  {
  }

  /** The second read judges the re-send: a value kept is recognised, and one lost is judged by
      what is shown instead. */
  lemma ResendJudged(d: Device, wanted: Comp, e: Env)
    requires HonestRead(e.again) && Covered(d.family, wanted) && WrittenThrough(d.family, d.held, wanted, e.write)
    requires Read(d, e.again).status.IsOk()
    ensures HoldsAll(wanted, Read(d, e.again).reading.values) <==> ResendSeen(d.family, wanted, e)
  {
    var back := Read(d, e.again).reading.values;
    ShownAgain(d, e.again);
    if wanted.t.Some? {
      SentValuesAreRecognised(wanted.t.value, back.t.value);
    }
    if wanted.s.Some? {
      SentValuesAreRecognised(wanted.s.value, back.s.value);
    }
    if wanted.p.Some? {
      SentValuesAreRecognised(wanted.p.value, back.p.value);
    }
  }

  /** An OK check has reported values that hold every wanted one exactly when it had nothing to
      re-send, or power was not lost between the re-send of a value and its second query, or
      what it reported for a value so lost is within tolerance all the same. Power cuts during
      the first read, before a value is re-sent or after it is asked for again do no harm. */
  lemma CheckConverges(d: Device, wanted: Comp, e: Env)
    requires Honest(e) && Covered(d.family, wanted) && CheckRun(d, wanted, e).status.IsOk()
    ensures var r := CheckRun(d, wanted, e);
      HoldsAll(wanted, r.reading.values) <==> !r.reapplied || ResendSeen(d.family, wanted, e)
  {
    var first := Read(d, e.first);
    if !HoldsAll(wanted, first.reading.values) {
      var sent := Write(first.device, wanted, e.write);
      ReadKeepsSettings(d, e.first);
      WriteKeepsRest(first.device, Writable(d.family, wanted), e.write, 0);
      HeldAfterWrite(first.device, wanted, e.write);
      ResendJudged(sent.device, wanted, e);
    }
  }

  /** A probe that holds what is wanted is left alone, and the check says nothing was
      sent again. */
  lemma CheckLeavesHeldAlone(d: Device, wanted: Comp, e: Env)
    requires HonestRead(e.first) && NoCutRead(e.first) && Covered(d.family, wanted) && HeldFor(d.held, wanted)
    ensures var r := CheckRun(d, wanted, e); !r.reapplied && r.device.held == d.held
  {
    ReadKeepsSettings(d, e.first);
    if Read(d, e.first).status.IsOk() {
      ReadSeesHeld(d, wanted, e.first);
    }
  }

  const CLEAN_TURN := Turn(false, true, true, false, [Success])
  const CLEAN_QUERY := Query(false, true, Ok, 0.0, false)
  const CLEAN_WRITE := WriteTurns(CLEAN_TURN, CLEAN_TURN, CLEAN_TURN)
  const CLEAN_READ := ReadTurns(CLEAN_QUERY, CLEAN_QUERY, CLEAN_QUERY)
  const CLEAN_ENV := Env(true, SampleTurn(false, true, Ok, [], false), CLEAN_QUERY, CLEAN_READ, CLEAN_WRITE,
                         CLEAN_TURN, CLEAN_WRITE, CLEAN_READ)

  // ---- When a check sends again -------------------------------------------------------------

  predicate AllAnswered(family: Family, turns: ReadTurns) {
    turns.t.answered && (family.Do? ==> turns.s.answered && turns.p.answered)
  }

  /** Some wanted value is not what the probe shows for it, by more than the tolerance. */
  predicate ShowsOutside(d: Device, wanted: Comp, turns: ReadTurns) {
    var h := d.held;
    || (wanted.t.Some? &&
          Abs(wanted.t.value - ((if turns.t.cutBefore then PowerUpTemperature(d.family) else h.t)
                                + turns.t.skew * TEMPERATURE_READBACK)) > TEMPERATURE_TOLERANCE)
    || (wanted.s.Some? && (h.ppt ||
          Abs(wanted.s.value - ((if CutInQuery(turns.t) || turns.s.cutBefore then DO_DEFAULT_SALINITY else h.s)
                                + turns.s.skew * SALINITY_READBACK)) > SALINITY_TOLERANCE))
    || (wanted.p.Some? &&
          Abs(wanted.p.value - ((if CutInQuery(turns.t) || CutInQuery(turns.s) || turns.p.cutBefore
                                 then DO_DEFAULT_PRESSURE else h.p) + turns.p.skew * PRESSURE_READBACK))
            > PRESSURE_TOLERANCE)
  }

  lemma OutsideIsNotHeld(d: Device, wanted: Comp, turns: ReadTurns)
    requires Covered(d.family, wanted)
    ensures Read(d, turns).status.IsOk() <==> AllAnswered(d.family, turns)
    ensures AllAnswered(d.family, turns) ==>
      (HoldsAll(wanted, Read(d, turns).reading.values) <==> !ShowsOutside(d, wanted, turns))
  {
    if AllAnswered(d.family, turns) {
      ShownAgain(d, turns);
    }
  }

  /** On a probe that accepts what it is sent, a check sends again exactly when its first read
      is answered and shows some wanted value outside its tolerance. */
  lemma ResendsExactly(d: Device, wanted: Comp, e: Env)
    requires Covered(d.family, wanted) && AcceptedWrite(e.write)
    ensures CheckRun(d, wanted, e).reapplied <==> AllAnswered(d.family, e.first) && ShowsOutside(d, wanted, e.first)
  {
    var first := Read(d, e.first);
    OutsideIsNotHeld(d, wanted, e.first);
    AcceptedWriteIsOk(first.device, Writable(first.device.family, wanted), e.write, 0);
  }

  /** What was sent again is held, unless power is cut after it. */
  lemma ResentIsHeld(d: Device, wanted: Comp, e: Env)
    requires HonestWrite(e.write) && NoCutWrite(e.write) && NoCutRead(e.again) && Covered(d.family, wanted)
    requires CheckRun(d, wanted, e).reapplied
    ensures HeldFor(CheckRun(d, wanted, e).device.held, wanted)
  {
    var first := Read(d, e.first);
    ReadKeepsSettings(d, e.first);
    HeldAfterWrite(first.device, wanted, e.write);
    ReadKeepsSettings(Write(first.device, wanted, e.write).device, e.again);
  }

  /** A probe back at its power-up temperature is asked for, re-sent 37 C, and cut again before
      the second read: the check reports OK, and not 37 C. */
  lemma PowerCutExample(d: Device, e: Env)
    requires Covered(d.family, Comp(Some(37.0), None, None)) && d.held.t == PowerUpTemperature(d.family)
    requires Honest(e) && e.first == CLEAN_READ && AcceptedWrite(e.write)
    requires e.again.t.cutBefore && AllAnswered(d.family, e.again)
    ensures var wanted := Comp(Some(37.0), None, None);
      CheckRun(d, wanted, e).status.IsOk() && !HoldsAll(wanted, CheckRun(d, wanted, e).reading.values)
  {
    var wanted := Comp(Some(37.0), None, None);
    var sent := Write(Read(d, e.first).device, wanted, e.write).device;
    ResendsExactly(d, wanted, e);
    ReadKeepsSettings(d, e.first);
    WriteKeepsRest(Read(d, e.first).device, Writable(d.family, wanted), e.write, 0);
    OutsideIsNotHeld(sent, wanted, e.again);
    CheckConverges(d, wanted, e);
  }

  /** A DO probe that reports salinity in ppt, with no salinity set through the provider,
      has nothing to be restored for it: its salinity is lost to a calibration. */
  lemma PptSalinityNotRestored() returns (d: Device, restore: Comp, e: Env)
    ensures d.family.Do? && d.held.s == 35.0 && restore == Read(d, e.first).reading.values
    ensures Read(d, e.first).status.IsOk()
    ensures RunJob(Calibrate(0, 0.0, restore), d, e).status.IsOk()
    ensures RunJob(Calibrate(0, 0.0, restore), d, e).device.held.s == 0.0
  {
    d := Device(Do, Settings(20.0, 35.0, true, 101.3), 0, 0, [], []);
    e := CLEAN_ENV;
    restore := Read(d, e.first).reading.values;
    CalibrationRestores(d, 0, 0.0, restore, e);
  }

  // ---- What a reading says of the probe as it then is ------------------------------------------

  /** Power was lost after the query and before the end of the reading. */
  predicate LateCutT(family: Family, turns: ReadTurns) {
    turns.t.cutAfter || (family.Do? && (CutInQuery(turns.s) || CutInQuery(turns.p)))
  }
  predicate LateCutS(turns: ReadTurns) { turns.s.cutAfter || CutInQuery(turns.p) }
  predicate LateCutP(turns: ReadTurns) { turns.p.cutAfter }

  /** Each value reported is what the probe holds, to the digit shown; unless power was lost
      since, when the probe is back at its power-up value. */
  predicate Reflects(family: Family, h: Settings, values: Comp, turns: ReadTurns) {
    && (values.t.Some? ==>
          if LateCutT(family, turns) then h.t == PowerUpTemperature(family)
          else Abs(values.t.value - h.t) <= TEMPERATURE_READBACK)
    && (values.s.Some? ==>
          if LateCutS(turns) then h.s == DO_DEFAULT_SALINITY
          else !h.ppt && Abs(values.s.value - h.s) <= SALINITY_READBACK)
    && (values.p.Some? ==>
          if LateCutP(turns) then h.p == DO_DEFAULT_PRESSURE
          else Abs(values.p.value - h.p) <= PRESSURE_READBACK)
  }

  lemma ReadReflects(d: Device, turns: ReadTurns)
    requires HonestRead(turns) && Read(d, turns).status.IsOk()
    ensures Reflects(d.family, Read(d, turns).device.held, Read(d, turns).reading.values, turns)
  {
  }

  /** The read whose values a check reports. */
  function Reporting(e: Env, reapplied: bool): ReadTurns { if reapplied then e.again else e.first }

  lemma CheckReflects(d: Device, wanted: Comp, e: Env)
    requires Honest(e) && CheckRun(d, wanted, e).status.IsOk()
    ensures var r := CheckRun(d, wanted, e);
      Reflects(d.family, r.device.held, r.reading.values, Reporting(e, r.reapplied))
  {
    var first := Read(d, e.first);
    ReadKeepsSettings(d, e.first);
    if HoldsAll(wanted, first.reading.values) {
      ReadReflects(d, e.first);
    } else {
      WriteKeepsRest(first.device, Writable(d.family, wanted), e.write, 0);
      ReadReflects(Write(first.device, wanted, e.write).device, e.again);
    }
  }
}
