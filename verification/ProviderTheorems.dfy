/** What the provider guarantees about a device over whole runs. */
module ProviderTheorems {
  import opened ServiceLine
  import opened Compensation
  import opened Probe
  import opened Signals
  import opened Jobs
  import opened JobTheorems
  import opened DeviceState
  import opened DeviceTheorems
  import opened ArgValidation
  import opened Provider
  import opened ProviderFold

  // ---- The environment is honest throughout -------------------------------------------

  predicate FairEnv(family: Family, e: Env) {
    Honest(e) && (e.sample.answered ==> |e.sample.signals| == SignalCount(family))
  }

  predicate FairMoves(family: Family, ms: seq<Move<Job, Env>>) {
    forall i :: 0 <= i < |ms| && ms[i].Serve? ==> FairEnv(family, ms[i].record)
  }

  predicate FairService(family: Family, s: Service) {
    match s
    case Refused => true
    case Stopped(moves) => FairMoves(family, moves)
    case Late(moves) => FairMoves(family, moves)
    case Done(moves, env) => FairMoves(family, moves) && FairEnv(family, env)
  }

  predicate FairAct(family: Family, act: Act) {
    match act
    case Poll(sample, check, _, _) => FairService(family, sample) && FairService(family, check)
    case Call(_, _, _, main, check, level) =>
      FairService(family, main) && FairService(family, check) && FairService(family, level)
    case CheckNow(check) => FairService(family, check)
    case LevelNow(level) => FairService(family, level)
    case Background(moves) => FairMoves(family, moves)
    case PowerCut => true
  }

  // ---- What every move keeps -------------------------------------------------------------

  predicate JobFits(family: Family, job: Job) {
    && WellFormed(job)
    && (job.Check? ==> Covered(family, job.wanted))
    && (job.SetValues? ==> Covered(family, job.values))
  }

  /** Every Cal or Cal,0 so far met the probe at 20 C, salinity 0 and 101.3 kPa. */
  predicate CalibratedSafely(d: Device) {
    forall i :: 0 <= i < |d.calibratedAt| ==> AtDefaults(d.calibratedAt[i])
  }

  /** The part of the invariant that lives on the bus. */
  predicate BusInv(family: Family, probe: Device, line: Line<Job, Env>) {
    && probe.family == family
    && (forall i :: 0 <= i < |line.waiting| ==> JobFits(family, line.waiting[i]))
    && CalibratedSafely(probe)
  }

  /** ... and the part that lives in the provider's record. */
  predicate RecordInv(r: Record) {
    Agrees(r) && Covered(r.family, r.remembered)
  }

  predicate Inv(w: World) {
    BusInv(w.record.family, w.probe, w.line) && RecordInv(w.record)
  }

  lemma JobKeepsProbe(family: Family, job: Job, d: Device, e: Env)
    requires d.family == family && JobFits(family, job) && CalibratedSafely(d) && FairEnv(family, e)
    ensures RunJob(job, d, e).device.family == family && CalibratedSafely(RunJob(job, d, e).device)
  {
    if family.Do? {
      CalibrationOnlyAtDefaults(job, d, e);
    } else {
      match job
      case Check(wanted) => CheckKeepsRest(d, wanted, e);
      case SetValues(values) => WriteKeepsRest(d, Writable(family, values), e.write, 0);
      case _ =>
    }
  }

  lemma MoveKeepsBus(w: World, m: Move<Job, Env>)
    requires Possible(w.line, m) && BusInv(w.record.family, w.probe, w.line)
    requires m.Serve? ==> FairEnv(w.record.family, m.record)
    requires m.Join? ==> JobFits(w.record.family, m.job)
    ensures BusInv(w.record.family, Moved(w, m).probe, Moved(w, m).line)
  {
    if m.Serve? {
      JobKeepsProbe(w.record.family, w.line.waiting[0], w.probe, m.record);
    }
  }

  lemma {:induction false} DrainKeepsBus(w: World, ms: seq<Move<Job, Env>>)
    requires Workable(|w.line.waiting|, ms) && BusInv(w.record.family, w.probe, w.line)
    requires FairMoves(w.record.family, ms)
    ensures var r := Drained(w, ms); r.record == w.record && BusInv(w.record.family, r.probe, r.line)
    decreases |ms|
  {
    if ms != [] {
      MoveKeepsBus(w, ms[0]);
      DrainKeepsBus(Moved(w, ms[0]), ms[1..]);
    }
  }

  lemma SubmitKeepsBus(w: World, job: Job, s: Service)
    requires Serviceable(w, s) && BusInv(w.record.family, w.probe, w.line) && FairService(w.record.family, s)
    requires JobFits(w.record.family, job)
    ensures var r := Submit(w, job, s).world; r.record == w.record && BusInv(w.record.family, r.probe, r.line)
  {
    match s
    case Refused =>
    case Stopped(moves) => DrainKeepsBus(w, moves);
    case Late(moves) =>
      MoveKeepsBus(w, Join(job));
      DrainKeepsBus(Joined(w, job), moves);
    case Done(moves, env) =>
      DrainKeepsBus(w, moves);
      var before := Drained(w, moves);
      MoveKeepsBus(before, Join(job));
      MoveKeepsBus(Joined(before, job), Serve(env));
  }

  lemma UpdateKeepsRecord(r: Record, u: Update, bound: int)
    requires RecordInv(r) && Shaped(r.family, u) && (u.Remember? ==> Covered(r.family, u.values))
    ensures RecordInv(Apply(r, u, bound)) && Apply(r, u, bound).family == r.family
  {
    ApplyAgrees(r, u, bound);
  }

  lemma UpdatedKeepsInv(w: World, family: Family, u: Update, bound: int)
    requires w.record.family == family && BusInv(family, w.probe, w.line) && RecordInv(w.record)
    requires Shaped(family, u) && (u.Remember? ==> Covered(family, u.values))
    ensures Inv(Updated(w, u, bound)) && Updated(w, u, bound).record.family == family
  {
    UpdateKeepsRecord(w.record, u, bound);
  }

  lemma CheckedKeepsInv(w: World, s: Service, bound: int)
    requires Inv(w) && CheckServiceable(w, s) && FairService(w.record.family, s)
    ensures Inv(Checked(w, s, bound)) && Checked(w, s, bound).record.family == w.record.family
  {
    if Compensates(w.record.family) {
      SubmitKeepsBus(w, Check(w.record.remembered), s);
      var reply := CheckReply(w, s);
      UpdatedKeepsInv(reply.world, w.record.family,
                      StoreCheck(reply.status, reply.outcome.reading, reply.outcome.reapplied), bound);
    }
  }

  lemma LevelKeepsInv(w: World, s: Service, bound: int)
    requires Inv(w) && LevelServiceable(w, s) && FairService(w.record.family, s)
    ensures Inv(LevelChecked(w, s, bound)) && LevelChecked(w, s, bound).record.family == w.record.family
  {
    if Calibrates(w.record.family) {
      SubmitKeepsBus(w, Level, s);
      var reply := Submit(w, Level, s);
      UpdatedKeepsInv(reply.world, w.record.family,
                      ReadLevel(reply.status, reply.outcome.level, reply.outcome.levelAsOf), bound);
    }
  }

  lemma PolledKeepsInv(w: World, s: Service, now: int, steady: int, bound: int)
    requires Inv(w) && Serviceable(w, s) && FairService(w.record.family, s)
    ensures Inv(Polled(w, s, now, steady, bound)) && Polled(w, s, now, steady, bound).record.family == w.record.family
  {
    SubmitKeepsBus(w, Sample, s);
    var reply := Submit(w, Sample, s);
    UpdatedKeepsInv(reply.world, w.record.family, Refresh(reply.status, reply.outcome.signals, now, steady), bound);
  }

  /** Accepted arguments never give a pH probe a salinity or a pressure. */
  predicate ArgsFit(f: Function, family: Family, a: ControlArgs) {
    f.SetCompensationFn? ==> Covered(family, a.values)
  }

  lemma CallRanKeepsInv(w: World, f: Function, a: ControlArgs, main: Service, bound: int)
    requires Inv(w) && Serviceable(w, main) && FairService(w.record.family, main) && ArgsFit(f, w.record.family, a)
    ensures Inv(CallRan(w, f, a, main, bound)) && CallRan(w, f, a, main, bound).record.family == w.record.family
  {
    var job := JobFor(f, w.record, a);
    SubmitKeepsBus(w, job, main);
    if Submit(w, job, main).status.IsOk() && f.SetCompensationFn? {
      UpdatedKeepsInv(Submit(w, job, main).world, w.record.family, Remember(a.values), bound);
    }
  }

  lemma CallEndKeepsInv(w: World, f: Function, ok: bool, level: Service, bound: int)
    requires Inv(w) && FairService(w.record.family, level)
    requires ok && TouchesLevel(f) ==> LevelServiceable(w, level)
    ensures Inv(CallEnd(w, f, ok, level, bound)) && CallEnd(w, f, ok, level, bound).record.family == w.record.family
  {
    var recorded := Counted(w, ok, bound);
    UpdatedKeepsInv(w, w.record.family, RecordCall(ok), bound);
    if ok && TouchesLevel(f) {
      LevelKeepsInv(recorded, level, bound);
    }
  }

  lemma CallKeepsInv(w: World, act: Act, bound: int)
    requires Inv(w) && act.Call? && Actable(w, act, bound) && FairAct(w.record.family, act)
    ensures Inv(Acted(w, act, bound)) && Acted(w, act, bound).record.family == w.record.family
  {
    var f, family := act.f, w.record.family;
    if Declared(f, family) {
      var verdict := Validate(f, family, act.args, act.order);
      if verdict.Rejected? {
        UpdatedKeepsInv(w, family, RecordCall(false), bound);
      } else {
        FilledAsGiven(f, family, act.args, act.order);
        CallRanKeepsInv(w, f, verdict.filled, act.main, bound);
        var ran := CallRan(w, f, verdict.filled, act.main, bound);
        if TouchesCompensation(f, family) {
          CheckedKeepsInv(ran, act.check, bound);
        }
        var back := CallReadBack(ran, f, act.check, bound);
        CallEndKeepsInv(back, f, CallOk(w, f, verdict.filled, act.main), act.level, bound);
      }
    }
  }

  lemma ActKeepsInv(w: World, act: Act, bound: int)
    requires Inv(w) && Actable(w, act, bound) && FairAct(w.record.family, act)
    ensures Inv(Acted(w, act, bound)) && Acted(w, act, bound).record.family == w.record.family
  {
    match act
    case Poll(sample, check, now, steady) =>
      PolledKeepsInv(w, sample, now, steady, bound);
      if CheckDue(Polled(w, sample, now, steady, bound).record) {
        CheckedKeepsInv(Polled(w, sample, now, steady, bound), check, bound);
      }
    case Call(_, _, _, _, _, _) => CallKeepsInv(w, act, bound);
    case CheckNow(check) => CheckedKeepsInv(w, check, bound);
    case LevelNow(level) => LevelKeepsInv(w, level, bound);
    case Background(moves) => DrainKeepsBus(w, moves);
    case PowerCut =>
  }

  lemma {:induction false} RunKeepsInv(w: World, acts: seq<Act>, bound: int)
    requires Inv(w) && CanAct(w, acts, bound)
    requires forall i :: 0 <= i < |acts| ==> FairAct(w.record.family, acts[i])
    ensures Inv(AfterActs(w, acts, bound)) && AfterActs(w, acts, bound).record.family == w.record.family
    decreases |acts|
  {
    if acts != [] {
      ActKeepsInv(w, acts[0], bound);
      RunKeepsInv(Acted(w, acts[0], bound), acts[1..], bound);
    }
  }

  // ---- Theorems over whole runs -----------------------------------------------------------

  /** Over every run from startup - any requests, any job timing out and being carried out
      late, any command refused, power cut between any two bus operations: every Cal and
      Cal,0 a DO probe acted on met it at 20 C, salinity 0 and 101.3 kPa; the cached level
      and compensation signals show exactly what is stored; and nothing a pH probe does not
      take is ever remembered for it. */
  lemma SafeOverEveryRun(w: World, acts: seq<Act>, bound: int)
    requires Startup(w) && CanAct(w, acts, bound)
    requires forall i :: 0 <= i < |acts| ==> FairAct(w.probe.family, acts[i])
    ensures var r := AfterActs(w, acts, bound);
      && CalibratedSafely(r.probe)
      && Agrees(r.record)
      && (!r.record.family.Do? ==> r.record.remembered.s.None? && r.record.remembered.p.None?)
  {
    RunKeepsInv(w, acts, bound);
  }

  // ---- Compensation converges ---------------------------------------------------------------

  /** The part of a call act that matters once its arguments are accepted. */
  predicate AcceptedCall(w: World, act: Act, bound: int) {
    act.Call? && Actable(w, act, bound) && Declared(act.f, w.record.family)
    && Validate(act.f, w.record.family, act.args, act.order).Accepted?
  }

  function FilledArgs(w: World, act: Act, bound: int): ControlArgs
    requires AcceptedCall(w, act, bound)
  {
    Validate(act.f, w.record.family, act.args, act.order).filled
  }

  function WithJobEnded(w: World, act: Act, bound: int): World
    requires AcceptedCall(w, act, bound)
  {
    CallRan(w, act.f, FilledArgs(w, act, bound), act.main, bound)
  }

  function Succeeded(w: World, act: Act, bound: int): bool
    requires AcceptedCall(w, act, bound)
  {
    CallOk(w, act.f, FilledArgs(w, act, bound), act.main)
  }

  lemma {:induction false} DrainKeepsRecord(w: World, ms: seq<Move<Job, Env>>)
    requires Workable(|w.line.waiting|, ms)
    ensures Drained(w, ms).record == w.record
    decreases |ms|
  {
    if ms != [] {
      DrainKeepsRecord(Moved(w, ms[0]), ms[1..]);
    }
  }

  lemma SubmitKeepsRecord(w: World, job: Job, s: Service)
    requires Serviceable(w, s)
    ensures Submit(w, job, s).world.record == w.record
    ensures s.Done? ==> Submit(w, job, s).world.line.waiting == []
  {
    match s
    case Refused =>
    case Stopped(moves) => DrainKeepsRecord(w, moves);
    case Late(moves) => DrainKeepsRecord(Joined(w, job), moves);
    case Done(moves, env) => DrainKeepsRecord(w, moves);
  }

  /** What is remembered after the call's own job. */
  function RememberedAfter(w: World, act: Act, bound: int): Comp
    requires AcceptedCall(w, act, bound)
  {
    if Succeeded(w, act, bound) && act.f.SetCompensationFn?
    then Over(FilledArgs(w, act, bound).values, w.record.remembered)
    else w.record.remembered
  }

  lemma CheckDoneConverges(w: World, check: Service, bound: int)
    requires Inv(w) && Compensates(w.record.family) && Serviceable(w, check)
    requires FairService(w.record.family, check) && CheckReply(w, check).status.IsOk()
    ensures check.Done?
    ensures var r := Checked(w, check, bound);
      && r.record.remembered == w.record.remembered
      && r.line.waiting == []
      && (HoldsAll(r.record.remembered, r.record.read.values) <==>
            r.record.reapplied == w.record.reapplied || ResendSeen(r.record.family, r.record.remembered, check.env))
  {
    SubmitKeepsRecord(w, Check(w.record.remembered), check);
    DrainKeepsBus(w, check.moves);
    if check.env.bound {
      CheckConverges(Drained(w, check.moves).probe, w.record.remembered, check.env);
    }
  }

  lemma CallEndKeepsCompensation(w: World, f: Function, ok: bool, level: Service, bound: int)
    requires ok && TouchesLevel(f) ==> LevelServiceable(w, level)
    ensures var r := CallEnd(w, f, ok, level, bound).record;
      && r.family == w.record.family && r.remembered == w.record.remembered
      && r.read == w.record.read && r.reapplied == w.record.reapplied
  {
    var recorded := Counted(w, ok, bound);
    if ok && TouchesLevel(f) && Calibrates(w.record.family) {
      SubmitKeepsRecord(recorded, Level, level);
    }
  }

  lemma JobEndedFacts(w: World, act: Act, bound: int)
    requires Inv(w) && AcceptedCall(w, act, bound) && FairAct(w.record.family, act)
    ensures var ran := WithJobEnded(w, act, bound);
      && Inv(ran) && ran.record.family == w.record.family && ran.record.reapplied == w.record.reapplied
      && ran.record.remembered == RememberedAfter(w, act, bound)
  {
    var a := FilledArgs(w, act, bound);
    FilledAsGiven(act.f, w.record.family, act.args, act.order);
    CallRanKeepsInv(w, act.f, a, act.main, bound);
    SubmitKeepsRecord(w, JobFor(act.f, w.record, a), act.main);
  }

  /** What a call leaves in the compensation part of the record is what its read-back left. */
  lemma CallLeavesReadBack(w: World, act: Act, bound: int)
    requires AcceptedCall(w, act, bound) && TouchesCompensation(act.f, w.record.family)
    requires WithJobEnded(w, act, bound).record.family == w.record.family
    requires Serviceable(WithJobEnded(w, act, bound), act.check)
    ensures var back := Checked(WithJobEnded(w, act, bound), act.check, bound).record;
      var r := Acted(w, act, bound).record;
      && r.family == back.family && r.remembered == back.remembered
      && r.read == back.read && r.reapplied == back.reapplied
  {
    var back := CallReadBack(WithJobEnded(w, act, bound), act.f, act.check, bound);
    CallEndKeepsCompensation(back, act.f, Succeeded(w, act, bound), act.level, bound);
  }

  /** After any set_compensation or DO calibrate - succeeded, partly refused, or timed out
      with its job carried out late - a read-back that reports OK has left the reported values
      holding every remembered one, exactly unless it had to send values again and power was
      lost between a value's re-send and its second query. A call that did not succeed
      remembers nothing new, so what it did write is rolled back wherever a value was
      remembered before. */
  lemma CompensationConverges(w: World, act: Act, bound: int)
    requires Inv(w) && AcceptedCall(w, act, bound) && FairAct(w.record.family, act)
    requires TouchesCompensation(act.f, w.record.family)
    requires Serviceable(WithJobEnded(w, act, bound), act.check)
    requires CheckReply(WithJobEnded(w, act, bound), act.check).status.IsOk()
    ensures act.check.Done?
    ensures var r := Acted(w, act, bound).record;
      && r.remembered == RememberedAfter(w, act, bound)
      && (!Succeeded(w, act, bound) ==> r.remembered == w.record.remembered)
      && (HoldsAll(r.remembered, r.read.values) <==>
            r.reapplied == w.record.reapplied || ResendSeen(r.family, r.remembered, act.check.env))
  {
    JobEndedFacts(w, act, bound);
    CheckDoneConverges(WithJobEnded(w, act, bound), act.check, bound);
    CallLeavesReadBack(w, act, bound);
  }

  // ---- Never the old value --------------------------------------------------------------------

  lemma JobMovesClock(job: Job, d: Device, e: Env)
    ensures RunJob(job, d, e).device.clock >= d.clock
    ensures job.Check? && RunJob(job, d, e).status.IsOk() ==> RunJob(job, d, e).reading.asOf >= d.clock
    ensures job.Level? && RunJob(job, d, e).status.IsOk() ==> RunJob(job, d, e).levelAsOf >= d.clock
  {
    if e.bound {
      match job
      case Check(wanted) =>
        CheckKeepsRest(d, wanted, e);
        CheckReadsLate(d, wanted, e);
      case SetValues(values) => WriteKeepsRest(d, Writable(d.family, values), e.write, 0);
      case Calibrate(point, _, restore) => if d.family.Do? { CalibrateMovesClock(d, point == 1, restore, e); }
      case _ =>
    }
  }

  lemma CheckReadsLate(d: Device, wanted: Comp, e: Env)
    ensures CheckRun(d, wanted, e).status.IsOk() ==> CheckRun(d, wanted, e).reading.asOf >= d.clock
  {
    var first := Read(d, e.first);
    ReadKeepsSettings(d, e.first);
    WriteKeepsRest(first.device, Writable(first.device.family, wanted), e.write, 0);
    ReadKeepsSettings(Write(first.device, wanted, e.write).device, e.again);
  }

  lemma CalibrateMovesClock(d: Device, zero: bool, restore: Comp, e: Env)
    requires d.family.Do?
    ensures CalibrateDoRun(d, zero, restore, e).device.clock >= d.clock
  {
    var defaults := Write(d, DO_DEFAULTS, e.write);
    WriteKeepsRest(d, DO_DEFAULTS, e.write, 0);
    WriteKeepsRest(defaults.device, Writable(defaults.device.family, restore), e.restore, 0);
    var cal := Exchange(defaults.device, CalibrateDo(zero), e.command);
    WriteKeepsRest(cal.device, Writable(cal.device.family, restore), e.restore, 0);
  }

  lemma {:induction false} DrainMovesClock(w: World, ms: seq<Move<Job, Env>>)
    requires Workable(|w.line.waiting|, ms)
    ensures Drained(w, ms).probe.clock >= w.probe.clock
    decreases |ms|
  {
    if ms != [] {
      if ms[0].Serve? {
        JobMovesClock(w.line.waiting[0], w.probe, ms[0].record);
      }
      DrainMovesClock(Moved(w, ms[0]), ms[1..]);
    }
  }

  /** A submission never turns the probe's clock back, and a result it hands over was read
      off the probe after the submission began. */
  lemma SubmitMovesClock(w: World, job: Job, s: Service)
    requires Serviceable(w, s)
    ensures var r := Submit(w, job, s);
      && r.world.probe.clock >= w.probe.clock
      && (r.status.IsOk() && job.Check? ==> r.outcome.reading.asOf >= w.probe.clock)
      && (r.status.IsOk() && job.Level? ==> r.outcome.levelAsOf >= w.probe.clock)
  {
    match s
    case Refused =>
    case Stopped(moves) => DrainMovesClock(w, moves);
    case Late(moves) => DrainMovesClock(Joined(w, job), moves);
    case Done(moves, env) =>
      DrainMovesClock(w, moves);
      JobMovesClock(job, Drained(w, moves).probe, env);
  }

  /** What a check leaves on record: nothing, or values read off the probe since it was asked
      for, that reflect the probe as it now is. */
  predicate ReadingCurrent(after: World, since: nat, check: Service, reapplied: bool) {
    after.record.read == NO_READING ||
    (check.Done? && after.record.read.asOf >= since &&
     Reflects(after.record.family, after.probe.held, after.record.read.values, Reporting(check.env, reapplied)))
  }

  lemma CheckedIsCurrent(w: World, s: Service, bound: int)
    requires Inv(w) && Compensates(w.record.family) && Serviceable(w, s) && FairService(w.record.family, s)
    ensures var r := Checked(w, s, bound);
      && r.probe.clock >= w.probe.clock && r.record.family == w.record.family
      && ReadingCurrent(r, w.probe.clock, s, r.record.reapplied != w.record.reapplied)
  {
    SubmitMovesClock(w, Check(w.record.remembered), s);
    SubmitKeepsRecord(w, Check(w.record.remembered), s);
    if CheckReply(w, s).status.IsOk() {
      DrainKeepsBus(w, s.moves);
      CheckReflects(Drained(w, s.moves).probe, w.record.remembered, s.env);
    }
  }

  /** What a level read leaves on record: nothing, or the level the probe now has. */
  predicate LevelCurrent(after: World, since: nat) {
    after.record.level.None? ||
    (after.record.level.value == after.probe.level as real && after.record.levelAsOf >= since)
  }

  lemma LevelIsCurrent(w: World, s: Service, bound: int)
    requires Calibrates(w.record.family) && Serviceable(w, s)
    ensures LevelCurrent(LevelChecked(w, s, bound), w.probe.clock)
  {
    SubmitMovesClock(w, Level, s);
    SubmitKeepsRecord(w, Level, s);
  }

  /** After a successful call, whatever is still on the worker from earlier calls: the level
      on record (after calibrate or clear_calibration) is unknown or the one the probe has; the
      compensation on record (after set_compensation) is unknown or, read after the call's own
      job had ended, what the probe holds to the digit shown, unless power was lost since. By
      cache agreement the signals show just that. */
  lemma NeverTheOldValue(w: World, act: Act, bound: int)
    requires Inv(w) && AcceptedCall(w, act, bound) && FairAct(w.record.family, act) && Succeeded(w, act, bound)
    ensures var jobEnded, r := WithJobEnded(w, act, bound).probe.clock, Acted(w, act, bound);
      && Agrees(r.record)
      && (TouchesLevel(act.f) ==> LevelCurrent(r, jobEnded))
      && (act.f.SetCompensationFn? ==>
            ReadingCurrent(r, jobEnded, act.check, r.record.reapplied != w.record.reapplied))
  {
    ActKeepsInv(w, act, bound);
    JobEndedFacts(w, act, bound);
    var ran := WithJobEnded(w, act, bound);
    ReadBackIsCurrent(ran, act.f, act.check, bound);
    EndIsCurrent(CallReadBack(ran, act.f, act.check, bound), act.f, act.level, bound);
  }

  lemma ReadBackIsCurrent(w: World, f: Function, check: Service, bound: int)
    requires Inv(w) && (f.SetCompensationFn? ==> Compensates(w.record.family))
    requires ReadBackServiceable(w, f, check) && FairService(w.record.family, check)
    ensures var r := CallReadBack(w, f, check, bound);
      && r.probe.clock >= w.probe.clock && r.record.family == w.record.family
      && (f.SetCompensationFn? ==>
            ReadingCurrent(r, w.probe.clock, check, r.record.reapplied != w.record.reapplied))
  {
    if TouchesCompensation(f, w.record.family) {
      CheckedIsCurrent(w, check, bound);
    }
  }

  lemma EndIsCurrent(w: World, f: Function, level: Service, bound: int)
    requires TouchesLevel(f) ==> Calibrates(w.record.family) && Serviceable(w, level)
    ensures var r := CallEnd(w, f, true, level, bound);
      && (TouchesLevel(f) ==> LevelCurrent(r, w.probe.clock))
      && (!TouchesLevel(f) ==> r.probe == w.probe)
      && r.record.read == w.record.read && r.record.reapplied == w.record.reapplied
      && r.record.family == w.record.family
  {
    CallEndKeepsCompensation(w, f, true, level, bound);
    if TouchesLevel(f) {
      LevelIsCurrent(Counted(w, true, bound), level, bound);
    }
  }

  // ---- ... except after a call that did not succeed ---------------------------------------------

  lemma CheckedKeepsLevel(w: World, s: Service, bound: int)
    requires CheckServiceable(w, s)
    ensures var r := Checked(w, s, bound).record; r.level == w.record.level && r.levelAsOf == w.record.levelAsOf
  {
    if Compensates(w.record.family) {
      SubmitKeepsRecord(w, Check(w.record.remembered), s);
    }
  }

  /** The level is re-read after success only: any other call, of any function on any family
      and however its job ended, leaves the level on show as it was. */
  lemma FailedCallKeepsLevel(w: World, act: Act, bound: int)
    requires AcceptedCall(w, act, bound) && !Succeeded(w, act, bound)
    ensures var r := Acted(w, act, bound).record; r.level == w.record.level && r.levelAsOf == w.record.levelAsOf
  {
    SubmitKeepsRecord(w, JobFor(act.f, w.record, FilledArgs(w, act, bound)), act.main);
    ReadBackKeepsLevel(WithJobEnded(w, act, bound), act.f, act.check, act.level, bound);
  }

  lemma ReadBackKeepsLevel(w: World, f: Function, check: Service, level: Service, bound: int)
    requires ReadBackServiceable(w, f, check)
    ensures var r := CallEnd(CallReadBack(w, f, check, bound), f, false, level, bound).record;
      r.level == w.record.level && r.levelAsOf == w.record.levelAsOf
  {
    if TouchesCompensation(f, w.record.family) {
      CheckedKeepsLevel(w, check, bound);
    }
  }

  predicate LeavesLevel(job: Job) { !job.Calibrate? && !job.Clear? && WellFormed(job) }

  lemma CalibrateKeepsFamily(d: Device, zero: bool, restore: Comp, e: Env)
    requires d.family.Do?
    ensures CalibrateDoRun(d, zero, restore, e).device.family.Do?
  {
    var defaults := Write(d, DO_DEFAULTS, e.write);
    WriteKeepsRest(d, DO_DEFAULTS, e.write, 0);
    WriteKeepsRest(defaults.device, restore, e.restore, 0);
    WriteKeepsRest(Exchange(defaults.device, CalibrateDo(zero), e.command).device, restore, e.restore, 0);
  }

  lemma JobKeepsFamily(job: Job, d: Device, e: Env)
    ensures RunJob(job, d, e).device.family == d.family
    ensures LeavesLevel(job) ==> RunJob(job, d, e).device.level == d.level
  {
    if e.bound {
      match job
      case Check(wanted) => CheckKeepsRest(d, wanted, e);
      case SetValues(values) => WriteKeepsRest(d, Writable(d.family, values), e.write, 0);
      case Calibrate(point, _, restore) => if d.family.Do? { CalibrateKeepsFamily(d, point == 1, restore, e); }
      case _ =>
    }
  }

  lemma {:induction false} HistoryKeepsFamily(d: Device, hs: seq<Happening>)
    ensures Befell(d, hs).family == d.family
    ensures (forall i :: 0 <= i < |hs| ==> hs[i].JobRan? && LeavesLevel(hs[i].job)) ==> Befell(d, hs).level == d.level
    decreases |hs|
  {
    if hs != [] {
      if hs[0].JobRan? {
        JobKeepsFamily(hs[0].job, d, hs[0].env);
      }
      HistoryKeepsFamily(Happened(d, hs[0]), hs[1..]);
    }
  }

  /** In what befell the probe, the k-th happening is this calibration, which came out OK, and no
      job after it touched the level. */
  predicate CalibratedAt(d: Device, hs: seq<Happening>, k: nat, job: Job) {
    && k < |hs| && hs[k].JobRan? && hs[k].job == job && HonestTurn(hs[k].env.command)
    && RunJob(job, Befell(d, hs[..k]), hs[k].env).status.IsOk()
    && forall i :: k < i < |hs| ==> hs[i].JobRan? && LeavesLevel(hs[i].job)
  }

  /** After a happening that no other level change follows, the level is as it left it. */
  lemma LevelLeftAt(d: Device, hs: seq<Happening>, k: nat)
    requires k < |hs| && forall i :: k < i < |hs| ==> hs[i].JobRan? && LeavesLevel(hs[i].job)
    ensures Befell(d, hs[..k]).family == d.family
    ensures Befell(d, hs).level == Happened(Befell(d, hs[..k]), hs[k]).level
  {
    HistoryKeepsFamily(d, hs[..k]);
    BefellAt(d, hs, k);
    HistoryKeepsFamily(Happened(Befell(d, hs[..k]), hs[k]), hs[k + 1..]);
  }

  /** The level a calibration of the family leaves, from the one it found. */
  function CalibratedLevel(family: Family, point: nat, found: nat): nat {
    if family.Do? then (if found == 0 then 1 else 2) else point + 1
  }

  lemma CalibrationTells(d: Device, hs: seq<Happening>, k: nat, job: Job)
    requires Calibrates(d.family) && job.Calibrate? && CalibratedAt(d, hs, k, job)
    ensures Befell(d, hs).level == CalibratedLevel(d.family, job.point, Befell(d, hs[..k]).level)
  {
    LevelLeftAt(d, hs, k);
    AcceptedCalibrationLevel(job.point, job.reference, job.restore, Befell(d, hs[..k]), hs[k].env);
  }

  /** The call, and then whatever else the worker does. */
  function WorkedOn(w: World, act: Act, later: seq<Move<Job, Env>>, bound: int): World
    requires Actable(w, act, bound) && Workable(|Acted(w, act, bound).line.waiting|, later)
  {
    Drained(Acted(w, act, bound), later)
  }

  lemma FailedCallWorkedOn(w: World, act: Act, later: seq<Move<Job, Env>>, bound: int)
    requires AcceptedCall(w, act, bound) && !Succeeded(w, act, bound)
    requires Workable(|Acted(w, act, bound).line.waiting|, later)
    ensures var v := WorkedOn(w, act, later, bound); OnlyJobs(w, v) && v.record.level == w.record.level
  {
    var r := Acted(w, act, bound);
    FailedCallKeepsLevel(w, act, bound);
    DrainKeepsRecord(r, later);
    ActIsJobs(w, act, bound);
    DrainIsJobs(r, later);
    SinceInParts(w, r, Drained(r, later));
  }

  /** So a calibration that timed out, and whose job came to an OK end before the caller returned
      or at any time after, with its check or later, has changed the probe's level and not the
      one on show. */
  lemma TimedOutCalibrationLeavesOldLevel(w: World, act: Act, later: seq<Move<Job, Env>>, k: nat, bound: int)
    requires Inv(w) && AcceptedCall(w, act, bound) && act.f.CalibrateFn? && act.main.Late?
    requires Workable(|Acted(w, act, bound).line.waiting|, later)
    requires var v := WorkedOn(w, act, later, bound);
      Before(w, v) && CalibratedAt(w.probe, Since(w, v), k, JobFor(act.f, w.record, FilledArgs(w, act, bound)))
    ensures !Succeeded(w, act, bound)
    ensures var v := WorkedOn(w, act, later, bound);
      && v.record.level == w.record.level
      && v.probe.level == CalibratedLevel(w.record.family, FilledArgs(w, act, bound).point,
                                          Befell(w.probe, Since(w, v)[..k]).level)
  {
    FailedCallWorkedOn(w, act, later, bound);
    var v := WorkedOn(w, act, later, bound);
    CalibrationTells(w.probe, Since(w, v), k, JobFor(act.f, w.record, FilledArgs(w, act, bound)));
  }
}
