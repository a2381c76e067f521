/** What a control call does: which commands it sends, which level it leaves, and how it is
    counted (src/core/ezo_provider_runtime.cpp:755-818). */
module ProviderCalls {
  import opened Statuses
  import opened ServiceLine
  import opened Compensation
  import opened Probe
  import opened Signals
  import opened Jobs
  import opened JobTheorems
  import opened CommandTheorems
  import opened DeviceState
  import opened ArgValidation
  import opened Provider
  import opened ProviderFold
  import opened ProviderTheorems

  // ---- The commands of a call ------------------------------------------------------------

  /** The probe when the call's job comes to be carried out. */
  function ProbeBefore(w: World, act: Act): Device
    requires act.Call? && act.main.Done? && Serviceable(w, act.main)
  {
    Drained(w, act.main.moves).probe
  }

  lemma DrainKeepsFamily(w: World, ms: seq<Move<Job, Env>>)
    requires Workable(|w.line.waiting|, ms)
    ensures Drained(w, ms).probe.family == w.probe.family
  {
    DrainIsJobs(w, ms);
    HistoryKeepsFamily(w.probe, Since(w, Drained(w, ms)));
  }

  /** The one command of a call that sends one, read straight off its arguments. */
  function CommandOf(f: Function, family: Family, args: Args): Option<Command> {
    match f
    case FindFn => Some(Find)
    case SetLedFn => if "enabled" in args then Some(Led(args["enabled"].flag)) else None
    case SleepFn => Some(Sleep)
    case ClearCalibrationFn => Some(ClearCalibration)
    case CalibrateFn =>
      if family.Ph? && "point" in args && "reference_ph" in args && args["reference_ph"].number.Finite?
      then Some(CalibratePh(IndexOf(args["point"].text, ["mid", "low", "high"]), args["reference_ph"].number.value))
      else None
    case SetCompensationFn => None
  }

  lemma CommandOfJob(w: World, act: Act, bound: int)
    requires AcceptedCall(w, act, bound) && CommandOf(act.f, w.record.family, act.args).Some?
    ensures OnlyCommand(JobFor(act.f, w.record, FilledArgs(w, act, bound)), w.record.family)
         == CommandOf(act.f, w.record.family, act.args)
  {
  }

  /** A call that sends one command sends that one, with what it was given, and nothing else. */
  lemma CallSendsItsCommand(w: World, act: Act, bound: int)
    requires AcceptedCall(w, act, bound) && w.probe.family == w.record.family
    requires act.main.Done? && act.main.env.bound && CommandOf(act.f, w.record.family, act.args).Some?
    ensures WithJobEnded(w, act, bound).probe.told ==
      ProbeBefore(w, act).told + [CommandOf(act.f, w.record.family, act.args).value]
  {
    var job := JobFor(act.f, w.record, FilledArgs(w, act, bound));
    DrainKeepsFamily(w, act.main.moves);
    CommandOfJob(w, act, bound);
    OneCommandTold(job, ProbeBefore(w, act), act.main.env);
  }

  /** A successful set_compensation sends the values it was given, temperature first, and nothing
      else. */
  lemma SetSendsItsValues(w: World, act: Act, bound: int)
    requires AcceptedCall(w, act, bound) && w.probe.family == w.record.family
    requires act.f.SetCompensationFn? && Succeeded(w, act, bound)
    ensures WithJobEnded(w, act, bound).probe.told == ProbeBefore(w, act).told +
      Commands(Comp(Given(act.args, TEMPERATURE_ARG), Given(act.args, SALINITY_ARG), Given(act.args, PRESSURE_ARG)))
  {
    FilledAsGiven(act.f, w.record.family, act.args, act.order);
    DrainKeepsFamily(w, act.main.moves);
    OkWriteTells(ProbeBefore(w, act), FilledArgs(w, act, bound).values, act.main.env.write);
  }

  /** A successful DO calibrate sends the defaults, the Cal or Cal,0 asked for, and then what was
      set or else read, up to the first value refused. */
  lemma CalibrateSendsItsCommands(w: World, act: Act, bound: int) returns (n: nat)
    requires AcceptedCall(w, act, bound) && w.probe.family == w.record.family && w.record.family.Do?
    requires act.f.CalibrateFn? && Succeeded(w, act, bound)
    ensures var known := Commands(Over(w.record.remembered, w.record.read.values));
      && n <= |known|
      && WithJobEnded(w, act, bound).probe.told ==
           ProbeBefore(w, act).told + Commands(DO_DEFAULTS) + [CalibrateDo(act.args["point"].text == "zero")]
           + known[..n]
  {
    var a := FilledArgs(w, act, bound);
    PointIsZero(w, act, bound);
    DrainKeepsFamily(w, act.main.moves);
    n := OkCalibrationSends(ProbeBefore(w, act), a.point, a.reference, Over(w.record.remembered, w.record.read.values),
                            act.main.env);
  }

  lemma PointIsZero(w: World, act: Act, bound: int)
    requires AcceptedCall(w, act, bound) && act.f.CalibrateFn? && w.record.family.Do?
    ensures "point" in act.args
    ensures FilledArgs(w, act, bound).point == 1 <==> act.args["point"].text == "zero"
  {
    FilledAsGiven(act.f, w.record.family, act.args, act.order);
    assert DO_POINTS[0] == "atmospheric" && DO_POINTS[1] == "zero" && |DO_POINTS[0]| != |DO_POINTS[1]|;
  }

  // ---- The level a call leaves -----------------------------------------------------------------

  /** The level after a successful calibrate or clear_calibration, from the one it found. */
  function LevelLeft(f: Function, family: Family, point: nat, found: nat): nat {
    if f.ClearCalibrationFn? then 0 else CalibratedLevel(family, point, found)
  }

  lemma JobLeavesLevel(w: World, act: Act, bound: int)
    requires Inv(w) && AcceptedCall(w, act, bound) && FairAct(w.record.family, act)
    requires Succeeded(w, act, bound) && TouchesLevel(act.f)
    ensures WithJobEnded(w, act, bound).probe.level ==
      LevelLeft(act.f, w.record.family, FilledArgs(w, act, bound).point, ProbeBefore(w, act).level)
    ensures WithJobEnded(w, act, bound).line.waiting == []
  {
    var a, d, e := FilledArgs(w, act, bound), ProbeBefore(w, act), act.main.env;
    DrainKeepsBus(w, act.main.moves);
    SubmitKeepsRecord(w, JobFor(act.f, w.record, a), act.main);
    if act.f.ClearCalibrationFn? {
      ClearedLevel(d, e);
    } else {
      AcceptedCalibrationLevel(a.point, a.reference, JobFor(act.f, w.record, a).restore, d, e);
    }
  }

  /** A submission that serves only jobs which leave the level alone. */
  lemma QuietSubmission(v: World, w: World, jobs: seq<Job>)
    requires OnlyJobs(v, w) && ServedFrom(v, w, jobs) && forall job :: job in jobs ==> LeavesLevel(job)
    ensures w.probe.level == v.probe.level
  {
    HistoryKeepsFamily(v.probe, Since(v, w));
  }

  lemma ReadBackLeavesLevel(w: World, f: Function, check: Service, bound: int)
    requires w.line.waiting == [] && ReadBackServiceable(w, f, check)
    ensures var r := CallReadBack(w, f, check, bound);
      r.probe.level == w.probe.level && forall job :: job in r.line.waiting ==> job.Check?
  {
    if TouchesCompensation(f, w.record.family) && Compensates(w.record.family) {
      var job := Check(w.record.remembered);
      CheckedIsJobs(w, check, bound);
      SubmitServes(w, job, check);
      QuietSubmission(w, Checked(w, check, bound), [job]);
    }
  }

  lemma EndShowsLevel(w: World, f: Function, level: Service, bound: int)
    requires TouchesLevel(f) && Calibrates(w.record.family) && Serviceable(w, level)
    requires forall job :: job in w.line.waiting ==> job.Check?
    ensures var r := CallEnd(w, f, true, level, bound).record;
      r.level.None? || r.level.value == w.probe.level as real
  {
    var c := Counted(w, true, bound);
    SubmitKeepsRecord(c, Level, level);
    if level.Done? {
      DrainIsJobs(c, level.moves);
      DrainServes(c, level.moves);
      QuietSubmission(c, Drained(c, level.moves), c.line.waiting);
    }
  }

  /** After a successful calibrate or clear_calibration the level on record is unknown or exactly
      the one such a call leaves: 0 after a clear; for pH that of the point; for DO one more than
      it found, at most two. */
  lemma CallShowsLevel(w: World, act: Act, bound: int)
    requires Inv(w) && AcceptedCall(w, act, bound) && FairAct(w.record.family, act)
    requires Succeeded(w, act, bound) && TouchesLevel(act.f)
    ensures var r, a := Acted(w, act, bound).record, FilledArgs(w, act, bound);
      r.level.None? ||
      r.level.value == LevelLeft(act.f, w.record.family, a.point, ProbeBefore(w, act).level) as real
  {
    JobEndedFacts(w, act, bound);
    JobLeavesLevel(w, act, bound);
    var ran := WithJobEnded(w, act, bound);
    ReadBackLeavesLevel(ran, act.f, act.check, bound);
    var back := CallReadBack(ran, act.f, act.check, bound);
    if TouchesCompensation(act.f, ran.record.family) {
      CheckedKeepsInv(ran, act.check, bound);
    }
    EndShowsLevel(back, act.f, act.level, bound);
  }

  // ---- Calls that are turned away -----------------------------------------------------------------

  /** A call of a function the device does not have changes nothing; one whose arguments are
      rejected is counted as failed and changes nothing else, in the record, on the line or on
      the probe. */
  lemma RejectedCallTouchesNothing(w: World, act: Act, bound: int)
    requires act.Call? && Actable(w, act, bound) && !AcceptedCall(w, act, bound)
    ensures var r := Acted(w, act, bound);
      && r.line == w.line && r.probe == w.probe
      && r.record == w.record.(callFailure := r.record.callFailure)
      && r.record.callFailure == w.record.callFailure + if Declared(act.f, w.record.family) then 1 else 0
  {
  }
}
