/** Calls whose caller gave up and whose job was carried out all the same: a set_compensation, the
    one way a value is sent again with no power lost, and a calibration. */
module LateSets {
  import opened Statuses
  import opened ServiceLine
  import opened Compensation
  import opened Probe
  import opened Signals
  import opened Jobs
  import opened JobTheorems
  import opened DeviceState
  import opened ArgValidation
  import opened Provider
  import opened Submissions
  import opened ProviderFold
  import opened ProviderTheorems
  import opened ProviderHistory

  /** A late value for a remembered field, shown as sent, is not within tolerance of what is
      remembered. */
  predicate Displaced(given: Comp, remembered: Comp, turns: ReadTurns) {
    || (given.t.Some? && remembered.t.Some? &&
          Abs(remembered.t.value - (SentTemperature(given.t.value) + turns.t.skew * TEMPERATURE_READBACK))
            > TEMPERATURE_TOLERANCE)
    || (given.s.Some? && remembered.s.Some? &&
          Abs(remembered.s.value - (SentSalinity(given.s.value) + turns.s.skew * SALINITY_READBACK))
            > SALINITY_TOLERANCE)
    || (given.p.Some? && remembered.p.Some? &&
          Abs(remembered.p.value - (SentPressure(given.p.value) + turns.p.skew * PRESSURE_READBACK))
            > PRESSURE_TOLERANCE)
  }

  lemma OutsideIsDisplaced(d: Device, given: Comp, remembered: Comp, turns: ReadTurns)
    requires HeldFor(d.held, Over(given, remembered)) && HonestRead(turns) && NoCutRead(turns)
    ensures ShowsOutside(d, remembered, turns) <==> Displaced(given, remembered, turns)
  {
    if remembered.t.Some? {
      SentValuesAreRecognised(remembered.t.value, d.held.t + turns.t.skew * TEMPERATURE_READBACK);
    }
    if remembered.s.Some? {
      SentValuesAreRecognised(remembered.s.value, d.held.s + turns.s.skew * SALINITY_READBACK);
    }
    if remembered.p.Some? {
      SentValuesAreRecognised(remembered.p.value, d.held.p + turns.p.skew * PRESSURE_READBACK);
    }
  }

  /** The work up to the last job in the line, which is carried out too, is calm but for that job
      being whatever it is. */
  predicate CalmUpToLast(w: World, ms: seq<Move<Job, Env>>)
    requires w.line.waiting != [] && Workable(|w.line.waiting|, ms)
    requires FateOfLast(|w.line.waiting|, ms) == CarriedOut
    decreases |ms|
  {
    if |w.line.waiting| == 1 && ms[0].Serve? then CalmEnv(ms[0].record)
    else
      (ms[0].Serve? ==> CalmServe(w.line.waiting[0], ms[0].record, w.record.remembered))
      && CalmUpToLast(Moved(w, ms[0]), ms[1..])
  }

  /** What the worker does from the moment a timed-out call's job joins the line to the moment
      its check is carried out. */
  function WorkBetween(act: Act): seq<Move<Job, Env>>
    requires act.Call? && act.main.Late? && act.check.Done?
  {
    act.main.moves + act.check.moves
  }

  function LateJob(w: World, act: Act, bound: int): Job
    requires AcceptedCall(w, act, bound)
  {
    SetValues(FilledArgs(w, act, bound).values)
  }

  /** A set_compensation whose caller timed out and whose job the worker carried out, before the
      caller had returned or after, but, as the line has it, before the call's own check. */
  predicate LateSet(w: World, act: Act, bound: int) {
    && AcceptedCall(w, act, bound) && act.f.SetCompensationFn? && act.main.Late?
    && act.check.Done? && act.check.env.bound && CalmEnv(act.check.env)
    && Workable(|w.line.waiting| + 1, WorkBetween(act))
    && FateOfLast(|w.line.waiting| + 1, WorkBetween(act)) == CarriedOut
    && CalmUpToLast(Joined(w, LateJob(w, act, bound)), WorkBetween(act))
  }

  /** Whether the late job came out OK, as on a calm probe it does if the device can be bound. */
  predicate LateOk(w: World, act: Act, bound: int)
    requires LateSet(w, act, bound)
  {
    var own := LastOutcome(Joined(w, LateJob(w, act, bound)), WorkBetween(act));
    own.Some? && own.value.status.IsOk()
  }

  /** The values the late call put on the probe. */
  function LateValues(w: World, act: Act, bound: int): Comp
    requires LateSet(w, act, bound)
  {
    if LateOk(w, act, bound) then FilledArgs(w, act, bound).values else NOTHING
  }

  /** The last job finds the remembered values on the probe. */
  lemma {:induction false} LastMeetsCalm(w: World, ms: seq<Move<Job, Env>>) returns (d: Device, e: Env)
    requires w.line.waiting != [] && Workable(|w.line.waiting|, ms)
    requires FateOfLast(|w.line.waiting|, ms) == CarriedOut && CalmUpToLast(w, ms)
    requires BusCalm(w.record.family, w.record.remembered, w.probe, w.line)
    ensures d.family == w.record.family && HeldFor(d.held, w.record.remembered) && CalmEnv(e)
    ensures LastOutcome(w, ms) == Some(RunJob(w.line.waiting[|w.line.waiting| - 1], d, e))
    decreases |ms|
  {
    if |w.line.waiting| == 1 && ms[0].Serve? {
      d, e := w.probe, ms[0].record;
    } else {
      MoveKeepsCalm(w, ms[0]);
      d, e := LastMeetsCalm(Moved(w, ms[0]), ms[1..]);
    }
  }

  lemma LateJobLands(w: World, values: Comp, ms: seq<Move<Job, Env>>)
    requires BusCalm(w.record.family, w.record.remembered, w.probe, w.line) && Covered(w.record.family, values)
    requires Workable(|w.line.waiting| + 1, ms) && FateOfLast(|w.line.waiting| + 1, ms) == CarriedOut
    requires CalmUpToLast(Joined(w, SetValues(values)), ms)
    ensures var own, after := LastOutcome(Joined(w, SetValues(values)), ms), Drained(Joined(w, SetValues(values)), ms);
      && own.Some? && after.line.waiting == [] && after.probe.family == w.record.family
      && HeldFor(after.probe.held,
                 Over(if own.value.status.IsOk() then values else NOTHING, w.record.remembered))
  {
    MoveKeepsCalm(w, Join(SetValues(values)));
    var d, e := LastMeetsCalm(Joined(w, SetValues(values)), ms);
    SetKeepsHeld(d, values, w.record.remembered, e);
    var before, env := CarriedOutLast(w, SetValues(values), ms);
  }

  /** When the call's check comes to be carried out the probe has the late values beside the
      remembered ones, and nothing new is remembered. */
  lemma LateSetLands(w: World, act: Act, bound: int)
    requires Calm(w) && LateSet(w, act, bound)
    ensures !Succeeded(w, act, bound)
    ensures var ran := WithJobEnded(w, act, bound);
      && ran.record == w.record && Serviceable(ran, act.check)
      && var met := Drained(ran, act.check.moves);
         && met.line.waiting == [] && met.probe.family == w.record.family
         && HeldFor(met.probe.held, Over(LateValues(w, act, bound), w.record.remembered))
  {
    FilledAsGiven(act.f, w.record.family, act.args, act.order);
    LateJobLands(w, FilledArgs(w, act, bound).values, WorkBetween(act));
    LateWork(w, act, bound);
  }

  /** The line when the check comes to be carried out, in terms of the work between. */
  lemma LateWork(w: World, act: Act, bound: int)
    requires LateSet(w, act, bound)
    ensures !Succeeded(w, act, bound)
    ensures var ran := WithJobEnded(w, act, bound);
      && ran.record == w.record && Serviceable(ran, act.check)
      && Drained(ran, act.check.moves) == Drained(Joined(w, LateJob(w, act, bound)), WorkBetween(act))
  {
    SubmitKeepsRecord(w, LateJob(w, act, bound), act.main);
    DrainedInParts(Joined(w, LateJob(w, act, bound)), act.main.moves, act.check.moves);
  }

  lemma CheckRunAfterLateSet(d: Device, given: Comp, remembered: Comp, e: Env)
    requires Covered(d.family, remembered) && HeldFor(d.held, Over(given, remembered)) && CalmEnv(e)
    ensures var r, again := CheckRun(d, remembered, e),
                            AllAnswered(d.family, e.first) && Displaced(given, remembered, e.first);
      r.reapplied == again && (again ==> HeldFor(r.device.held, remembered))
  {
    ResendsExactly(d, remembered, e);
    OutsideIsDisplaced(d, given, remembered, e.first);
    if CheckRun(d, remembered, e).reapplied {
      ResentIsHeld(d, remembered, e);
    }
  }

  lemma CheckAfterLateSet(w: World, given: Comp, check: Service, bound: int)
    requires Compensates(w.record.family) && check.Done? && Serviceable(w, check) && check.env.bound
    requires Covered(w.record.family, w.record.remembered) && CalmEnv(check.env)
    requires var met := Drained(w, check.moves).probe;
      met.family == w.record.family && HeldFor(met.held, Over(given, w.record.remembered))
    ensures var r, first := Checked(w, check, bound), check.env.first;
      var again := AllAnswered(w.record.family, first) && Displaced(given, w.record.remembered, first);
      && r.record.reapplied == w.record.reapplied + (if again then 1 else 0)
      && (again ==> HeldFor(r.probe.held, w.record.remembered))
  {
    SubmitKeepsRecord(w, Check(w.record.remembered), check);
    CheckRunAfterLateSet(Drained(w, check.moves).probe, given, w.record.remembered, check.env);
  }

  /** On a probe that loses nothing, the check of a set_compensation whose caller timed out and
      whose job was carried out all the same sends the remembered values again, and counts that,
      exactly when the job came out OK, the check can read the probe, and it finds a late value
      of a remembered field outside tolerance; the late value is then undone. */
  lemma LateSetIsReverted(w: World, act: Act, bound: int)
    requires Calm(w) && LateSet(w, act, bound)
    ensures var r, first := Acted(w, act, bound), act.check.env.first;
      var again := AllAnswered(w.record.family, first)
                   && Displaced(LateValues(w, act, bound), w.record.remembered, first);
      && r.record.reapplied == (if again then 1 else 0)
      && r.record.remembered == w.record.remembered
      && (again ==> HeldFor(r.probe.held, w.record.remembered))
  {
    LateSetLands(w, act, bound);
    var ran := WithJobEnded(w, act, bound);
    CheckAfterLateSet(ran, LateValues(w, act, bound), act.check, bound);
    CheckedKeepsRemembered(ran, act.check, bound);
    CallEndKeepsCompensation(CallReadBack(ran, act.f, act.check, bound), act.f, false, act.level, bound);
  }

  // ---- From startup ---------------------------------------------------------------------------

  function TemperatureArgs(x: real): Args { map[TEMPERATURE_ARG := Value(DoubleKind, false, "", Finite(x))] }

  /** set_compensation with a temperature, on a probe where everything goes well, except that the
      caller may give up while its job waits or runs; the job is then over before the check's. */
  function SetTemperatureTo(x: real, late: bool): Act {
    Call(SetCompensationFn, TemperatureArgs(x), [TEMPERATURE_ARG],
         if late then Late([]) else Done([], CLEAN_ENV),
         Done(if late then [Serve(CLEAN_ENV)] else [], CLEAN_ENV), Refused)
  }

  lemma TemperatureAccepted(family: Family, x: real)
    requires Compensates(family) && MIN_TEMPERATURE <= x <= MAX_TEMPERATURE
    ensures Declared(SetCompensationFn, family) && Enumerates([TEMPERATURE_ARG], TemperatureArgs(x))
    ensures Validate(SetCompensationFn, family, TemperatureArgs(x), [TEMPERATURE_ARG]) ==
      Accepted(NO_ARGS.(values := Comp(Some(x), None, None)))
  {
    var args := TemperatureArgs(x);
    ArgNamesDiffer();
    assert Defect(family, TEMPERATURE_ARG, args[TEMPERATURE_ARG]).None?;
    CompensationVerdict(family, args, [TEMPERATURE_ARG]);
  }

  lemma CleanIsCalm()
    ensures CalmEnv(CLEAN_ENV) && CLEAN_ENV.bound
  {
  }

  lemma OneServe()
    ensures var one := [Serve(CLEAN_ENV)];
      && Workable(1, one) && Left(1, one) == 0 && FateOfLast(1, one) == CarriedOut && [] + one == one
  {
    var one: seq<Move<Job, Env>> := [Serve(CLEAN_ENV)];
    assert one[1..] == [];
  }

  /** The call can be made, whether its caller gives up or not. */
  lemma CallPossible(w: World, x: real, late: bool, bound: int)
    requires Compensates(w.record.family) && w.line.waiting == [] && MIN_TEMPERATURE <= x <= MAX_TEMPERATURE
    ensures AcceptedCall(w, SetTemperatureTo(x, late), bound)
    ensures FilledArgs(w, SetTemperatureTo(x, late), bound) == NO_ARGS.(values := Comp(Some(x), None, None))
  {
    var act, job := SetTemperatureTo(x, late), SetValues(Comp(Some(x), None, None));
    TemperatureAccepted(w.record.family, x);
    SubmitKeepsRecord(w, job, act.main);
    OneServe();
    assert late ==> Submit(w, job, act.main).world == Joined(w, job);
  }

  lemma InTimeSucceeds(w: World, x: real, bound: int)
    requires AcceptedCall(w, SetTemperatureTo(x, false), bound) && w.line.waiting == []
    requires FilledArgs(w, SetTemperatureTo(x, false), bound) == NO_ARGS.(values := Comp(Some(x), None, None))
    ensures Succeeded(w, SetTemperatureTo(x, false), bound)
  {
    CleanIsCalm();
    AcceptedWriteIsOk(w.probe, Writable(w.probe.family, Comp(Some(x), None, None)), CLEAN_WRITE, 0);
  }

  lemma CheckLeavesNothing(w: World, check: Service, bound: int)
    requires Compensates(w.record.family) && check.Done? && Serviceable(w, check)
    ensures Checked(w, check, bound).line.waiting == [] && Checked(w, check, bound).record.family == w.record.family
  {
    SubmitKeepsRecord(w, Check(w.record.remembered), check);
  }

  /** A call whose check is done leaves nothing in the line. */
  lemma NothingLeft(w: World, act: Act, bound: int)
    requires AcceptedCall(w, act, bound) && act.f.SetCompensationFn? && Compensates(w.record.family) && act.check.Done?
    ensures Acted(w, act, bound).line.waiting == [] && Acted(w, act, bound).record.family == w.record.family
  {
    SubmitKeepsRecord(w, JobFor(act.f, w.record, FilledArgs(w, act, bound)), act.main);
    CheckLeavesNothing(WithJobEnded(w, act, bound), act.check, bound);
  }

  lemma SetInTime(w: World, x: real, bound: int)
    requires Calm(w) && Compensates(w.record.family) && w.line.waiting == []
    requires MIN_TEMPERATURE <= x <= MAX_TEMPERATURE
    ensures AcceptedCall(w, SetTemperatureTo(x, false), bound)
    ensures var r := Acted(w, SetTemperatureTo(x, false), bound);
      && Calm(r) && r.line.waiting == [] && r.record.family == w.record.family
      && r.record.remembered == Over(Comp(Some(x), None, None), w.record.remembered)
  {
    var act := SetTemperatureTo(x, false);
    CallPossible(w, x, false, bound);
    CleanIsCalm();
    ActKeepsCalm(w, act, bound);
    NothingLeft(w, act, bound);
    InTimeSucceeds(w, x, bound);
    ActRemembers(w, act, bound);
    ArgNamesDiffer();
  }

  lemma SetTooLate(w: World, y: real, bound: int)
    requires Compensates(w.record.family) && w.line.waiting == [] && MIN_TEMPERATURE <= y <= MAX_TEMPERATURE
    ensures LateSet(w, SetTemperatureTo(y, true), bound)
    ensures LateValues(w, SetTemperatureTo(y, true), bound) == Comp(Some(y), None, None)
  {
    CallPossible(w, y, true, bound);
    CleanIsCalm();
    OneServe();
    AcceptedWriteIsOk(w.probe, Writable(w.probe.family, Comp(Some(y), None, None)), CLEAN_WRITE, 0);
  }

  /** Two calls from startup, the second timing out while its job runs: the first value is sent
      again exactly when the second is not, as sent, within tolerance of it. */
  lemma LateSetFromStartup(w: World, x: real, y: real, bound: int)
    requires Startup(w) && Compensates(w.probe.family)
    requires MIN_TEMPERATURE <= x <= MAX_TEMPERATURE && MIN_TEMPERATURE <= y <= MAX_TEMPERATURE
    ensures var acts := [SetTemperatureTo(x, false), SetTemperatureTo(y, true)];
      && CanAct(w, acts, bound)
      && AfterActs(w, acts, bound).record.reapplied ==
           (if Abs(x - SentTemperature(y)) > TEMPERATURE_TOLERANCE then 1 else 0)
  {
    var first, second := SetTemperatureTo(x, false), SetTemperatureTo(y, true);
    StartupIsCalm(w);
    SetInTime(w, x, bound);
    var mid := Acted(w, first, bound);
    SetTooLate(mid, y, bound);
    LateSetIsReverted(mid, second, bound);
    TwoActs(w, first, second, bound);
  }

  lemma TwoActs(w: World, first: Act, second: Act, bound: int)
    requires Actable(w, first, bound) && Actable(Acted(w, first, bound), second, bound)
    ensures CanAct(w, [first, second], bound)
    ensures AfterActs(w, [first, second], bound) == Acted(Acted(w, first, bound), second, bound)
  {
    var mid := Acted(w, first, bound);
    assert [first, second][1..] == [second] && [second][1..] == [];
    assert AfterActs(mid, [second], bound) == AfterActs(Acted(mid, second, bound), [], bound);
  }

  // ---- A late calibration from startup ------------------------------------------------------------

  /** A DO calibrate whose caller gives up while the job runs; the check comes after it. */
  function CalibrateLate(): Act {
    Call(CalibrateFn, map["point" := Value(StringKind, false, "atmospheric", NotFinite)], ["point"], Late([]),
         Done([Serve(CLEAN_ENV)], CLEAN_ENV), Refused)
  }

  const LATE_POINT := Calibrate(0, 0.0, NOTHING)

  lemma CalibratePossible(w: World, bound: int)
    requires w.record.family.Do? && w.record.remembered == NOTHING && w.record.read == NO_READING
    requires w.line.waiting == []
    ensures AcceptedCall(w, CalibrateLate(), bound)
    ensures JobFor(CalibrateFn, w.record, FilledArgs(w, CalibrateLate(), bound)) == LATE_POINT
    ensures WithJobEnded(w, CalibrateLate(), bound) == Joined(w, LATE_POINT)
  {
    var act := CalibrateLate();
    assert Points(Do)[0] == "atmospheric" && IndexOf("atmospheric", Points(Do)) == 0;
    assert Enumerates(act.order, act.args);
    OneServe();
    assert Submit(w, LATE_POINT, act.main).world == Joined(w, LATE_POINT);
  }

  /** From startup, with the probe accepting everything: the level goes up, and none is shown. */
  lemma LateCalibrationFromStartup(w: World, bound: int)
    requires Startup(w) && w.probe.family.Do?
    ensures AcceptedCall(w, CalibrateLate(), bound)
    ensures var v := Acted(w, CalibrateLate(), bound);
      && Before(w, v) && CalibratedAt(w.probe, Since(w, v), 0, LATE_POINT)
      && v.record.level == None && v.probe.level == Min(w.probe.level + 1, 2)
  {
    CalibratePossible(w, bound);
    CheckAfterCalibration(w, bound);
    FailedCallKeepsLevel(w, CalibrateLate(), bound);
    var v := Acted(w, CalibrateLate(), bound);
    var checked := Checked(Joined(w, LATE_POINT), Done([Serve(CLEAN_ENV)], CLEAN_ENV), bound);
    assert v.line == checked.line && v.probe == checked.probe;
    assert Since(w, v) == Since(w, checked);
  }

  lemma CheckAfterCalibration(w: World, bound: int)
    requires w.probe.family.Do? && w.record.family.Do? && w.record.remembered == NOTHING && w.line.waiting == []
    ensures var ran, check := Joined(w, LATE_POINT), Done([Serve(CLEAN_ENV)], CLEAN_ENV);
      && Serviceable(ran, check)
      && var v := Checked(ran, check, bound);
         && v.probe.level == Min(w.probe.level + 1, 2)
         && Before(w, v) && CalibratedAt(w.probe, Since(w, v), 0, LATE_POINT)
  {
    var ran := Joined(w, LATE_POINT);
    OneServe();
    CleanIsCalm();
    CalibrationRestores(w.probe, 0, 0.0, NOTHING, CLEAN_ENV);
    assert Drained(ran, [Serve(CLEAN_ENV)]) == Moved(ran, Serve(CLEAN_ENV));
    CheckKeepsRest(RunJob(LATE_POINT, w.probe, CLEAN_ENV).device, NOTHING, CLEAN_ENV);
    var v := Checked(ran, Done([Serve(CLEAN_ENV)], CLEAN_ENV), bound);
    assert Since(w, v) == [JobRan(LATE_POINT, CLEAN_ENV), JobRan(Check(NOTHING), CLEAN_ENV)];
  }
}
