/** Two more properties of whole runs: what is remembered is a function of the successful
    calls, and a probe that loses nothing is never sent anything again. */
module ProviderHistory {
  import opened Statuses
  import opened ServiceLine
  import opened Compensation
  import opened Probe
  import opened Signals
  import opened Jobs
  import opened JobTheorems
  import opened DeviceState
  import opened ArgValidation
  import opened Provider
  import opened ProviderTheorems

  // ---- Remembered compensation ------------------------------------------------------------

  /** The values a successful set_compensation gave, read straight off its arguments. */
  function Gift(w: World, act: Act, bound: int): Option<Comp>
    requires Actable(w, act, bound)
  {
    if AcceptedCall(w, act, bound) && act.f.SetCompensationFn? && Succeeded(w, act, bound) then
      Some(Comp(Given(act.args, TEMPERATURE_ARG), Given(act.args, SALINITY_ARG), Given(act.args, PRESSURE_ARG)))
    else None
  }

  function Gifts(w: World, acts: seq<Act>, bound: int): seq<Comp>
    requires CanAct(w, acts, bound)
    decreases |acts|
  {
    if acts == [] then []
    else
      var gift := Gift(w, acts[0], bound);
      (if gift.Some? then [gift.value] else []) + Gifts(Acted(w, acts[0], bound), acts[1..], bound)
  }

  /** The last value given for a field, if any was. */
  function LastOf(gifts: seq<Comp>, field: Comp -> Option<real>): Option<real> {
    if gifts == [] then None
    else if field(gifts[|gifts| - 1]).Some? then field(gifts[|gifts| - 1])
    else LastOf(gifts[..|gifts| - 1], field)
  }

  lemma CheckedKeepsRemembered(w: World, s: Service, bound: int)
    requires CheckServiceable(w, s)
    ensures Checked(w, s, bound).record.remembered == w.record.remembered
    ensures Checked(w, s, bound).record.family == w.record.family
  {
    if Compensates(w.record.family) {
      SubmitKeepsRecord(w, Check(w.record.remembered), s);
    }
  }

  lemma LevelKeepsRemembered(w: World, s: Service, bound: int)
    requires LevelServiceable(w, s)
    ensures LevelChecked(w, s, bound).record.remembered == w.record.remembered
  {
    if Calibrates(w.record.family) {
      SubmitKeepsRecord(w, Level, s);
    }
  }

  lemma CallRemembers(w: World, act: Act, bound: int)
    requires act.Call? && Actable(w, act, bound)
    ensures var gift := Gift(w, act, bound);
      Acted(w, act, bound).record.remembered ==
        if gift.Some? then Over(gift.value, w.record.remembered) else w.record.remembered
  {
    if AcceptedCall(w, act, bound) {
      var a := FilledArgs(w, act, bound);
      FilledAsGiven(act.f, w.record.family, act.args, act.order);
      SubmitKeepsRecord(w, JobFor(act.f, w.record, a), act.main);
      var ran := WithJobEnded(w, act, bound);
      if TouchesCompensation(act.f, ran.record.family) {
        CheckedKeepsRemembered(ran, act.check, bound);
      }
      var back := CallReadBack(ran, act.f, act.check, bound);
      CallEndKeepsCompensation(back, act.f, Succeeded(w, act, bound), act.level, bound);
    }
  }

  lemma ActRemembers(w: World, act: Act, bound: int)
    requires Actable(w, act, bound)
    ensures var gift := Gift(w, act, bound);
      Acted(w, act, bound).record.remembered ==
        if gift.Some? then Over(gift.value, w.record.remembered) else w.record.remembered
  {
    match act
    case Poll(sample, check, now, steady) =>
      SubmitKeepsRecord(w, Sample, sample);
      CheckedKeepsRemembered(Polled(w, sample, now, steady, bound), check, bound);
    case Call(_, _, _, _, _, _) => CallRemembers(w, act, bound);
    case CheckNow(check) => CheckedKeepsRemembered(w, check, bound);
    case LevelNow(level) => LevelKeepsRemembered(w, level, bound);
    case Background(moves) => DrainKeepsRecord(w, moves);
    case PowerCut =>
  }

  lemma {:induction false} LastOfFront(first: Comp, gifts: seq<Comp>, field: Comp -> Option<real>)
    ensures LastOf([first] + gifts, field) == Prefer(LastOf(gifts, field), field(first))
  {
    if gifts != [] {
      var last := |gifts| - 1;
      assert ([first] + gifts)[..|gifts|] == [first] + gifts[..last];
      LastOfFront(first, gifts[..last], field);
    }
  }

  /** At every point of every run each remembered field is the last value given for it in a
      successful set_compensation since startup, and empty if there was none: failed and
      timed-out calls, checks, polls and power cuts leave no trace in it. */
  lemma {:induction false} RememberedIsHistory(w: World, acts: seq<Act>, bound: int)
    requires CanAct(w, acts, bound)
    ensures var gifts := Gifts(w, acts, bound);
      AfterActs(w, acts, bound).record.remembered ==
        Over(Comp(LastOf(gifts, (c: Comp) => c.t), LastOf(gifts, (c: Comp) => c.s), LastOf(gifts, (c: Comp) => c.p)),
             w.record.remembered)
    decreases |acts|
  {
    if acts != [] {
      var n := Acted(w, acts[0], bound);
      var rest := Gifts(n, acts[1..], bound);
      RememberedIsHistory(n, acts[1..], bound);
      ActRemembers(w, acts[0], bound);
      var gift := Gift(w, acts[0], bound);
      if gift.Some? {
        LastOfFront(gift.value, rest, (c: Comp) => c.t);
        LastOfFront(gift.value, rest, (c: Comp) => c.s);
        LastOfFront(gift.value, rest, (c: Comp) => c.p);
      } else {
        assert [] + rest == rest;
      }
    }
  }

  // ---- A DO calibration at the provider's level --------------------------------------------

  /** When every command is accepted and each field was set, or read before, a DO calibrate
      leaves the probe with the set value, or else the value read, as sent. */
  lemma CalibrateLeavesSetElseHeld(w: World, act: Act, bound: int)
    requires Inv(w) && AcceptedCall(w, act, bound) && act.f.CalibrateFn? && w.record.family.Do?
    requires act.main.Done? && FairAct(w.record.family, act) && act.main.env.bound
    requires AcceptedWrite(act.main.env.write) && AcceptedTurn(act.main.env.command)
    requires AcceptedWrite(act.main.env.restore)
    requires var known := Over(w.record.remembered, w.record.read.values);
      known.t.Some? && known.s.Some? && known.p.Some?
    ensures var known := Over(w.record.remembered, w.record.read.values);
      && Succeeded(w, act, bound)
      && HeldFor(WithJobEnded(w, act, bound).probe.held, known)
  {
    var a := FilledArgs(w, act, bound);
    DrainKeepsBus(w, act.main.moves);
    DrainKeepsRecord(w, act.main.moves);
    var d := Drained(w, act.main.moves).probe;
    CalibrationRestores(d, a.point, a.reference, Over(w.record.remembered, w.record.read.values), act.main.env);
  }

  // ---- No re-send storm --------------------------------------------------------------------

  /** An environment in which nothing goes wrong on the probe: no power cut, every command
      accepted. Queries may still fail, and values read back rounded. */
  predicate CalmEnv(e: Env) {
    Honest(e) && NoCuts(e) && AcceptedWrite(e.write) && AcceptedTurn(e.command) && AcceptedWrite(e.restore)
  }

  /** Wherever a value is remembered, the given one is the same as far as the probe can tell. */
  predicate Unchanging(given: Comp, remembered: Comp) {
    && (given.t.Some? && remembered.t.Some? ==>
          SentTemperature(given.t.value) == SentTemperature(remembered.t.value))
    && (given.s.Some? && remembered.s.Some? ==> SentSalinity(given.s.value) == SentSalinity(remembered.s.value))
    && (given.p.Some? && remembered.p.Some? ==> SentPressure(given.p.value) == SentPressure(remembered.p.value))
  }

  /** A job carried out with nothing going wrong; if it is a set_compensation whose caller has
      given up, it brings no new value for a field that has one remembered. */
  predicate CalmServe(job: Job, e: Env, remembered: Comp) {
    CalmEnv(e) && (job.SetValues? ==> Unchanging(job.values, remembered))
  }

  predicate CalmWork(w: World, ms: seq<Move<Job, Env>>)
    requires Workable(|w.line.waiting|, ms)
    decreases |ms|
  {
    ms == [] ||
    ((ms[0].Serve? ==> CalmServe(w.line.waiting[0], ms[0].record, w.record.remembered))
     && CalmWork(Moved(w, ms[0]), ms[1..]))
  }

  predicate CalmSubmission(w: World, job: Job, s: Service)
    requires Serviceable(w, s)
  {
    match s
    case Refused => true
    case Stopped(moves) => CalmWork(w, moves)
    case Late(moves) => CalmWork(Joined(w, job), moves)
    case Done(moves, env) => CalmWork(w, moves) && CalmEnv(env)
  }

  predicate CalmCheck(w: World, s: Service)
    requires CheckServiceable(w, s)
  {
    Compensates(w.record.family) ==> CalmSubmission(w, Check(w.record.remembered), s)
  }

  predicate CalmLevel(w: World, s: Service)
    requires LevelServiceable(w, s)
  {
    Calibrates(w.record.family) ==> CalmSubmission(w, Level, s)
  }

  predicate CalmCall(w: World, f: Function, a: ControlArgs, main: Service, check: Service, level: Service, bound: int)
    requires CallServiceable(w, f, a, main, check, level, bound)
  {
    var ran := CallRan(w, f, a, main, bound);
    && CalmSubmission(w, JobFor(f, w.record, a), main)
    && (TouchesCompensation(f, ran.record.family) ==> CalmCheck(ran, check))
    && (CallOk(w, f, a, main) && TouchesLevel(f) ==>
          CalmLevel(Counted(CallReadBack(ran, f, check, bound), true, bound), level))
  }

  /** No power cut, and only calm jobs carried out. Any request may time out, and its job be
      carried out later, be skipped, or be removed by a stop. */
  predicate CalmAct(w: World, act: Act, bound: int)
    requires Actable(w, act, bound)
  {
    match act
    case Poll(sample, check, now, steady) =>
      var polled := Polled(w, sample, now, steady, bound);
      CalmSubmission(w, Sample, sample) && (CheckDue(polled.record) ==> CalmCheck(polled, check))
    case Call(f, _, _, main, check, level) =>
      AcceptedCall(w, act, bound) ==> CalmCall(w, f, FilledArgs(w, act, bound), main, check, level, bound)
    case CheckNow(check) => CalmCheck(w, check)
    case LevelNow(level) => CalmLevel(w, level)
    case Background(moves) => CalmWork(w, moves)
    case PowerCut => false
  }

  predicate CalmRun(w: World, acts: seq<Act>, bound: int)
    requires CanAct(w, acts, bound)
    decreases |acts|
  {
    acts == [] || (CalmAct(w, acts[0], bound) && CalmRun(Acted(w, acts[0], bound), acts[1..], bound))
  }

  /** A job in the line that leaves the remembered values be if it is carried out in calm: a check
      wants what is remembered, and a DO calibration restores it. */
  predicate Harmless(family: Family, job: Job, remembered: Comp) {
    match job
    case Check(wanted) => wanted == remembered
    case Calibrate(_, _, restore) => family.Do? ==> Over(remembered, restore) == restore
    case SetValues(values) => Covered(family, values)
    case Plain(command) => command.Find? || command.Led?
    case _ => true
  }

  predicate BusCalm(family: Family, remembered: Comp, probe: Device, line: Line<Job, Env>) {
    && probe.family == family && Covered(family, remembered) && HeldFor(probe.held, remembered)
    && forall i :: 0 <= i < |line.waiting| ==> Harmless(family, line.waiting[i], remembered)
  }

  predicate Calm(w: World) {
    BusCalm(w.record.family, w.record.remembered, w.probe, w.line) && w.record.reapplied == 0
  }

  lemma HarmlessJobKeepsHeld(job: Job, d: Device, e: Env, remembered: Comp)
    requires CalmServe(job, e, remembered) && Harmless(d.family, job, remembered) && Covered(d.family, remembered)
    requires HeldFor(d.held, remembered)
    ensures var r := RunJob(job, d, e);
      r.device.family == d.family && HeldFor(r.device.held, remembered) && (job.Check? ==> !r.reapplied)
  {
    if e.bound {
      match job
      case Check(wanted) =>
        CheckLeavesHeldAlone(d, wanted, e);
        CheckKeepsRest(d, wanted, e);
      case Calibrate(point, reference, restore) =>
        if d.family.Do? {
          CalibrationRestores(d, point, reference, restore, e);
          CalibrateDoSafe(d, point == 1, restore, e);
        }
      case SetValues(values) => SetKeepsHeld(d, values, remembered, e);
      case _ =>
    }
  }

  lemma MoveKeepsCalm(w: World, m: Move<Job, Env>)
    requires Possible(w.line, m) && BusCalm(w.record.family, w.record.remembered, w.probe, w.line)
    requires m.Serve? ==> CalmServe(w.line.waiting[0], m.record, w.record.remembered)
    requires m.Join? ==> Harmless(w.record.family, m.job, w.record.remembered)
    ensures BusCalm(w.record.family, w.record.remembered, Moved(w, m).probe, Moved(w, m).line)
  {
    if m.Serve? {
      HarmlessJobKeepsHeld(w.line.waiting[0], w.probe, m.record, w.record.remembered);
    }
  }

  lemma {:induction false} DrainKeepsCalm(w: World, ms: seq<Move<Job, Env>>)
    requires Workable(|w.line.waiting|, ms) && CalmWork(w, ms)
    requires BusCalm(w.record.family, w.record.remembered, w.probe, w.line)
    ensures var r := Drained(w, ms);
      r.record == w.record && BusCalm(w.record.family, w.record.remembered, r.probe, r.line)
    decreases |ms|
  {
    if ms != [] {
      MoveKeepsCalm(w, ms[0]);
      DrainKeepsCalm(Moved(w, ms[0]), ms[1..]);
    }
  }

  /** The caller-checkable case: if every set_compensation in the line brings nothing new for a
      remembered field, any work without mishaps is calm. */
  lemma {:induction false} UnchangingWorkIsCalm(w: World, ms: seq<Move<Job, Env>>)
    requires Workable(|w.line.waiting|, ms)
    requires forall i :: 0 <= i < |ms| && ms[i].Serve? ==> CalmEnv(ms[i].record)
    requires forall i :: 0 <= i < |w.line.waiting| && w.line.waiting[i].SetValues? ==>
      Unchanging(w.line.waiting[i].values, w.record.remembered)
    ensures CalmWork(w, ms)
    decreases |ms|
  {
    if ms != [] {
      UnchangingWorkIsCalm(Moved(w, ms[0]), ms[1..]);
    }
  }

  /** A check carried out as the last in the line has nothing to send again. */
  lemma {:induction false} LastCheckIsCalm(w: World, ms: seq<Move<Job, Env>>)
    requires w.line.waiting != [] && Workable(|w.line.waiting|, ms) && CalmWork(w, ms)
    requires BusCalm(w.record.family, w.record.remembered, w.probe, w.line)
    requires w.line.waiting[|w.line.waiting| - 1].Check?
    ensures LastOutcome(w, ms).Some? ==> !LastOutcome(w, ms).value.reapplied
    decreases |ms|
  {
    if LastOutcome(w, ms).Some? {
      if |w.line.waiting| == 1 && ms[0].Serve? {
        HarmlessJobKeepsHeld(w.line.waiting[0], w.probe, ms[0].record, w.record.remembered);
      } else {
        MoveKeepsCalm(w, ms[0]);
        LastCheckIsCalm(Moved(w, ms[0]), ms[1..]);
      }
    }
  }

  /** A harmless job submitted keeps the calm however the submission ends, and a check is
      not seen to have sent anything again, even when its caller timed out. */
  lemma SubmitKeepsCalm(w: World, job: Job, s: Service)
    requires Serviceable(w, s) && BusCalm(w.record.family, w.record.remembered, w.probe, w.line)
    requires CalmSubmission(w, job, s) && Harmless(w.record.family, job, w.record.remembered) && !job.SetValues?
    ensures var r := Submit(w, job, s);
      && r.world.record == w.record
      && BusCalm(w.record.family, w.record.remembered, r.world.probe, r.world.line)
      && (job.Check? ==> !r.outcome.reapplied)
  {
    match s
    case Refused =>
    case Stopped(moves) => DrainKeepsCalm(w, moves);
    case Late(moves) => LateKeepsCalm(w, job, moves);
    case Done(moves, env) =>
      DrainKeepsCalm(w, moves);
      var before := Drained(w, moves);
      MoveKeepsCalm(before, Join(job));
      MoveKeepsCalm(Joined(before, job), Serve(env));
      HarmlessJobKeepsHeld(job, before.probe, env, w.record.remembered);
  }

  lemma LateKeepsCalm(w: World, job: Job, moves: seq<Move<Job, Env>>)
    requires Serviceable(w, Late(moves)) && BusCalm(w.record.family, w.record.remembered, w.probe, w.line)
    requires CalmWork(Joined(w, job), moves) && Harmless(w.record.family, job, w.record.remembered)
    ensures var r := Submit(w, job, Late(moves));
      && r.world.record == w.record
      && BusCalm(w.record.family, w.record.remembered, r.world.probe, r.world.line)
      && (job.Check? ==> !r.outcome.reapplied)
  {
    MoveKeepsCalm(w, Join(job));
    DrainKeepsCalm(Joined(w, job), moves);
    if job.Check? {
      LastCheckIsCalm(Joined(w, job), moves);
    }
  }

  lemma CheckedKeepsCalm(w: World, s: Service, bound: int)
    requires Calm(w) && CheckServiceable(w, s) && CalmCheck(w, s)
    ensures Calm(Checked(w, s, bound)) && Checked(w, s, bound).record.family == w.record.family
  {
    if Compensates(w.record.family) {
      SubmitKeepsCalm(w, Check(w.record.remembered), s);
    }
  }

  lemma LevelKeepsCalm(w: World, s: Service, bound: int)
    requires Calm(w) && LevelServiceable(w, s) && CalmLevel(w, s)
    ensures Calm(LevelChecked(w, s, bound))
  {
    if Calibrates(w.record.family) {
      SubmitKeepsCalm(w, Level, s);
    }
  }

  lemma PolledKeepsCalm(w: World, s: Service, now: int, steady: int, bound: int)
    requires Calm(w) && Serviceable(w, s) && CalmSubmission(w, Sample, s)
    ensures Calm(Polled(w, s, now, steady, bound)) && Polled(w, s, now, steady, bound).record.family == w.record.family
  {
    SubmitKeepsCalm(w, Sample, s);
  }

  /** A set_compensation that is done: the probe holds the new values beside the old ones. */
  lemma SetKeepsHeld(d: Device, values: Comp, remembered: Comp, e: Env)
    requires CalmEnv(e) && HeldFor(d.held, remembered) && Covered(d.family, values) && Covered(d.family, remembered)
    ensures var r := RunJob(SetValues(values), d, e);
      && r.device.family == d.family
      && HeldFor(r.device.held, if r.status.IsOk() then Over(values, remembered) else remembered)
      && (Unchanging(values, remembered) ==> HeldFor(r.device.held, remembered))
  {
    if e.bound {
      AcceptedWriteIsOk(d, Writable(d.family, values), e.write, 0);
      WriteEstablishes(d, values, e.write);
      var k := OrderedWrite(d, Writable(d.family, values), e.write, 0);
      UnitAfterWrite(d, Writable(d.family, values), e.write, 0);
      WriteKeepsRest(d, Writable(d.family, values), e.write, 0);
    }
  }

  lemma SetRanKeepsCalm(w: World, a: ControlArgs, main: Service, bound: int)
    requires Calm(w) && Serviceable(w, main) && CalmSubmission(w, SetValues(a.values), main)
    requires Covered(w.record.family, a.values)
    ensures Calm(CallRan(w, SetCompensationFn, a, main, bound))
    ensures CallRan(w, SetCompensationFn, a, main, bound).record.family == w.record.family
  {
    match main
    case Refused =>
    case Stopped(moves) => DrainKeepsCalm(w, moves);
    case Late(moves) => LateKeepsCalm(w, SetValues(a.values), moves);
    case Done(moves, env) =>
      DrainKeepsCalm(w, moves);
      SetKeepsHeld(Drained(w, moves).probe, a.values, w.record.remembered, env);
  }

  lemma OtherRanKeepsCalm(w: World, f: Function, a: ControlArgs, main: Service, bound: int)
    requires Calm(w) && Serviceable(w, main) && CalmSubmission(w, JobFor(f, w.record, a), main) && !f.SetCompensationFn?
    ensures Calm(CallRan(w, f, a, main, bound)) && CallRan(w, f, a, main, bound).record.family == w.record.family
  {
    SubmitKeepsCalm(w, JobFor(f, w.record, a), main);
  }

  lemma CallEndKeepsCalm(w: World, f: Function, ok: bool, level: Service, bound: int)
    requires Calm(w)
    requires ok && TouchesLevel(f) ==>
      LevelServiceable(w, level) && CalmLevel(Counted(w, true, bound), level)
    ensures Calm(CallEnd(w, f, ok, level, bound))
  {
    if ok && TouchesLevel(f) {
      LevelKeepsCalm(Counted(w, ok, bound), level, bound);
    }
  }

  lemma CallKeepsCalm(w: World, act: Act, bound: int)
    requires Calm(w) && act.Call? && Actable(w, act, bound) && CalmAct(w, act, bound)
    ensures Calm(Acted(w, act, bound))
  {
    if AcceptedCall(w, act, bound) {
      var a := FilledArgs(w, act, bound);
      FilledAsGiven(act.f, w.record.family, act.args, act.order);
      if act.f.SetCompensationFn? {
        SetRanKeepsCalm(w, a, act.main, bound);
      } else {
        OtherRanKeepsCalm(w, act.f, a, act.main, bound);
      }
      var ran := WithJobEnded(w, act, bound);
      if TouchesCompensation(act.f, ran.record.family) {
        CheckedKeepsCalm(ran, act.check, bound);
      }
      CallEndKeepsCalm(CallReadBack(ran, act.f, act.check, bound), act.f, Succeeded(w, act, bound), act.level, bound);
    }
  }

  lemma ActKeepsCalm(w: World, act: Act, bound: int)
    requires Calm(w) && Actable(w, act, bound) && CalmAct(w, act, bound)
    ensures Calm(Acted(w, act, bound))
  {
    match act
    case Poll(sample, check, now, steady) =>
      PolledKeepsCalm(w, sample, now, steady, bound);
      if CheckDue(Polled(w, sample, now, steady, bound).record) {
        CheckedKeepsCalm(Polled(w, sample, now, steady, bound), check, bound);
      }
    case Call(_, _, _, _, _, _) => CallKeepsCalm(w, act, bound);
    case CheckNow(check) => CheckedKeepsCalm(w, check, bound);
    case LevelNow(level) => LevelKeepsCalm(w, level, bound);
    case Background(moves) => DrainKeepsCalm(w, moves);
  }

  /** On a probe that accepts everything and never loses power, nothing is ever sent again:
      over every run, with any values in any calls, rounded on the way in and out, and with
      any request timing out and its job being carried out later, skipped or removed, so long as
      no set_compensation carried out for a caller that had given up brings a new value for a
      remembered field, the count of re-applied compensation stays 0. */
  lemma {:induction false} NoResendStorm(w: World, acts: seq<Act>, bound: int)
    requires Calm(w) && CanAct(w, acts, bound) && CalmRun(w, acts, bound)
    ensures AfterActs(w, acts, bound).record.reapplied == 0 && Calm(AfterActs(w, acts, bound))
    decreases |acts|
  {
    if acts != [] {
      ActKeepsCalm(w, acts[0], bound);
      NoResendStorm(Acted(w, acts[0], bound), acts[1..], bound);
    }
  }

  lemma StartupIsCalm(w: World)
    requires Startup(w)
    ensures Calm(w)
  {
  }
}
