/** What polls do: the sample they show, the compensation check that falls due with every 24th
    of them, and the counters (src/core/runtime_state.cpp:659-786). */
module ProviderPolls {
  import opened Statuses
  import opened Compensation
  import opened Probe
  import opened Signals
  import opened Jobs
  import opened JobTheorems
  import opened DeviceState
  import opened DeviceTheorems
  import opened ArgValidation
  import opened Provider
  import opened ProviderFold
  import opened ProviderTheorems

  // ---- The counters over whole runs ----------------------------------------------------------

  predicate PollOk(w: World, act: Act, bound: int)
    requires Actable(w, act, bound)
  {
    act.Poll? && Submit(w, Sample, act.sample).status.IsOk()
  }

  /** Whether the act moves a counter. A call of a function the device does not have is not
      counted; one whose arguments are rejected has failed. */
  predicate Tallies(w: World, act: Act, bound: int, tally: Tally)
    requires Actable(w, act, bound)
  {
    match tally
    case Successes => PollOk(w, act, bound)
    case Failures => act.Poll? && !PollOk(w, act, bound)
    case CallsOk => AcceptedCall(w, act, bound) && Succeeded(w, act, bound)
    case CallsFailed =>
      act.Call? && Declared(act.f, w.record.family) && !(AcceptedCall(w, act, bound) && Succeeded(w, act, bound))
    case Reapplications => false
  }

  lemma CheckedCounts(w: World, s: Service, bound: int, tally: Tally)
    requires CheckServiceable(w, s) && !tally.Reapplications?
    ensures Counter(Checked(w, s, bound).record, tally) == Counter(w.record, tally)
  {
    if Compensates(w.record.family) {
      SubmitKeepsRecord(w, Check(w.record.remembered), s);
      var reply := CheckReply(w, s);
      OneCounted(w.record, StoreCheck(reply.status, reply.outcome.reading, reply.outcome.reapplied), bound, tally);
    }
  }

  lemma LevelCounts(w: World, s: Service, bound: int, tally: Tally)
    requires LevelServiceable(w, s)
    ensures Counter(LevelChecked(w, s, bound).record, tally) == Counter(w.record, tally)
  {
    if Calibrates(w.record.family) {
      SubmitKeepsRecord(w, Level, s);
      var reply := Submit(w, Level, s);
      OneCounted(w.record, ReadLevel(reply.status, reply.outcome.level, reply.outcome.levelAsOf), bound, tally);
    }
  }

  lemma PolledCounts(w: World, act: Act, bound: int, tally: Tally)
    requires Actable(w, act, bound) && act.Poll?
    ensures var polled := Polled(w, act.sample, act.now, act.steady, bound);
      && Counter(polled.record, tally) == Counter(w.record, tally) + (if Tallies(w, act, bound, tally) then 1 else 0)
      && polled.record.remembered == w.record.remembered && polled.record.family == w.record.family
  {
    SubmitKeepsRecord(w, Sample, act.sample);
    var reply := Submit(w, Sample, act.sample);
    OneCounted(w.record, Refresh(reply.status, reply.outcome.signals, act.now, act.steady), bound, tally);
  }

  lemma CallRanCounts(w: World, f: Function, a: ControlArgs, main: Service, bound: int, tally: Tally)
    requires Serviceable(w, main)
    ensures var r := CallRan(w, f, a, main, bound).record;
      Counter(r, tally) == Counter(w.record, tally) && r.family == w.record.family
  {
    SubmitKeepsRecord(w, JobFor(f, w.record, a), main);
    OneCounted(w.record, Remember(a.values), bound, tally);
  }

  lemma CallEndCounts(w: World, f: Function, ok: bool, level: Service, bound: int, tally: Tally)
    requires ok && TouchesLevel(f) ==> LevelServiceable(w, level)
    ensures Counter(CallEnd(w, f, ok, level, bound).record, tally) ==
      Counter(w.record, tally) + if (tally.CallsOk? && ok) || (tally.CallsFailed? && !ok) then 1 else 0
  {
    OneCounted(w.record, RecordCall(ok), bound, tally);
    if ok && TouchesLevel(f) {
      LevelCounts(Counted(w, ok, bound), level, bound, tally);
    }
  }

  lemma CallCounts(w: World, act: Act, bound: int, tally: Tally)
    requires Actable(w, act, bound) && act.Call? && !tally.Reapplications?
    ensures Counter(Acted(w, act, bound).record, tally) ==
      Counter(w.record, tally) + if Tallies(w, act, bound, tally) then 1 else 0
  {
    if AcceptedCall(w, act, bound) {
      var a := FilledArgs(w, act, bound);
      CallRanCounts(w, act.f, a, act.main, bound, tally);
      var ran := WithJobEnded(w, act, bound);
      if TouchesCompensation(act.f, ran.record.family) {
        CheckedCounts(ran, act.check, bound, tally);
      }
      var back := CallReadBack(ran, act.f, act.check, bound);
      CallEndCounts(back, act.f, Succeeded(w, act, bound), act.level, bound, tally);
    } else {
      OneCounted(w.record, RecordCall(false), bound, tally);
    }
  }

  lemma ActCounts(w: World, act: Act, bound: int, tally: Tally)
    requires Actable(w, act, bound) && !tally.Reapplications?
    ensures Counter(Acted(w, act, bound).record, tally) ==
      Counter(w.record, tally) + if Tallies(w, act, bound, tally) then 1 else 0
  {
    match act
    case Poll(sample, check, now, steady) =>
      PolledCounts(w, act, bound, tally);
      if CheckDue(Polled(w, sample, now, steady, bound).record) {
        CheckedCounts(Polled(w, sample, now, steady, bound), check, bound, tally);
      }
    case Call(_, _, _, _, _, _) => CallCounts(w, act, bound, tally);
    case CheckNow(check) => CheckedCounts(w, check, bound, tally);
    case LevelNow(level) => LevelCounts(w, level, bound, tally);
    case Background(moves) => DrainKeepsRecord(w, moves);
    case PowerCut =>
  }

  function Tallied(w: World, acts: seq<Act>, bound: int, tally: Tally): nat
    requires CanAct(w, acts, bound)
    decreases |acts|
  {
    if acts == [] then 0
    else
      (if Tallies(w, acts[0], bound, tally) then 1 else 0) + Tallied(Acted(w, acts[0], bound), acts[1..], bound, tally)
  }

  /** Over every run the counters are the numbers of successful and failed polls and calls. */
  lemma {:induction false} RunCounts(w: World, acts: seq<Act>, bound: int, tally: Tally)
    requires CanAct(w, acts, bound) && !tally.Reapplications?
    ensures Counter(AfterActs(w, acts, bound).record, tally) ==
      Counter(w.record, tally) + Tallied(w, acts, bound, tally)
    decreases |acts|
  {
    if acts != [] {
      ActCounts(w, acts[0], bound, tally);
      RunCounts(Acted(w, acts[0], bound), acts[1..], bound, tally);
    }
  }

  // ---- The check that falls due -------------------------------------------------------------------

  /** The poll that makes the number of successful ones a multiple of 24. */
  predicate DuePoll(w: World, act: Act, bound: int)
    requires Actable(w, act, bound)
  {
    PollOk(w, act, bound) && (w.record.cache.successCount + 1) % 24 == 0
  }

  lemma DueIsDue(w: World, act: Act, bound: int)
    requires Actable(w, act, bound) && act.Poll?
    ensures CheckDue(Polled(w, act.sample, act.now, act.steady, bound).record) <==> DuePoll(w, act, bound)
  {
    PolledCounts(w, act, bound, Successes);
    SubmitKeepsRecord(w, Sample, act.sample);
  }

  /** With every 24th successful poll the remembered compensation is checked: its job, if it is
      done, is the last one served. Without it nothing is served but what was waiting and the
      sample. */
  lemma PollChecksWhenDue(w: World, act: Act, bound: int)
    requires Actable(w, act, bound) && act.Poll?
    ensures var r := Acted(w, act, bound);
      && (DuePoll(w, act, bound) && Compensates(w.record.family) && act.check.Done? ==>
            r.line.served != [] && r.line.served[|r.line.served| - 1] == (Check(w.record.remembered), act.check.env))
      && (!DuePoll(w, act, bound) ==> ServedFrom(w, r, w.line.waiting + [Sample]))
  {
    DueIsDue(w, act, bound);
    PolledCounts(w, act, bound, Successes);
    SubmitServes(w, Sample, act.sample);
  }

  lemma DueOrSamePeriod(w: World, act: Act, bound: int)
    requires Actable(w, act, bound) && !DuePoll(w, act, bound)
    ensures Acted(w, act, bound).record.cache.successCount / 24 == w.record.cache.successCount / 24
  {
    ActCounts(w, act, bound, Successes);
  }

  /** In any run, whatever else goes on, 24 successful polls make one with which a check is due:
      the number of successes passes a multiple of 24. */
  lemma {:induction false} DueComes(w: World, acts: seq<Act>, bound: int) returns (i: nat)
    requires CanAct(w, acts, bound)
    requires (w.record.cache.successCount + Tallied(w, acts, bound, Successes)) / 24 > w.record.cache.successCount / 24
    ensures i < |acts| && CanAct(w, acts[..i], bound)
    ensures var v := AfterActs(w, acts[..i], bound); Actable(v, acts[i], bound) && DuePoll(v, acts[i], bound)
    decreases |acts|
  {
    if DuePoll(w, acts[0], bound) {
      i := 0;
    } else {
      var next := Acted(w, acts[0], bound);
      ActCounts(w, acts[0], bound, Successes);
      DueOrSamePeriod(w, acts[0], bound);
      var j := DueComes(next, acts[1..], bound);
      i := j + 1;
      FirstThen(w, acts, i, bound);
    }
  }

  lemma FirstThen(w: World, acts: seq<Act>, i: nat, bound: int)
    requires 0 < i <= |acts| && Actable(w, acts[0], bound)
    requires CanAct(Acted(w, acts[0], bound), acts[1..][..i - 1], bound)
    ensures CanAct(w, acts[..i], bound)
    ensures AfterActs(w, acts[..i], bound) == AfterActs(Acted(w, acts[0], bound), acts[1..][..i - 1], bound)
  {
    assert acts[..i][1..] == acts[1..][..i - 1] && acts[..i][0] == acts[0];
  }

  // ---- A lost value comes back ----------------------------------------------------------------------

  lemma NoCutIsSeen(family: Family, wanted: Comp, e: Env)
    requires NoCutWrite(e.write) && NoCutRead(e.again)
    ensures ResendSeen(family, wanted, e)
  {
  }

  /** The poll's check is done, comes out OK, and power is not cut while it sends again. */
  predicate GoodCheck(w: World, act: Act, bound: int)
    requires Actable(w, act, bound) && act.Poll?
  {
    var polled := Polled(w, act.sample, act.now, act.steady, bound);
    && act.check.Done? && Serviceable(polled, act.check) && CheckReply(polled, act.check).status.IsOk()
    && NoCutWrite(act.check.env.write) && NoCutRead(act.check.env.again)
  }

  /** Every remembered value is what the probe reports, and if any had to be sent again, what it
      holds. */
  predicate Restored(before: World, after: World) {
    && HoldsAll(after.record.remembered, after.record.read.values)
    && (after.record.reapplied != before.record.reapplied ==> HeldFor(after.probe.held, after.record.remembered))
  }

  lemma CheckRestores(w: World, check: Service, bound: int)
    requires Inv(w) && Compensates(w.record.family) && Serviceable(w, check) && FairService(w.record.family, check)
    requires check.Done? && CheckReply(w, check).status.IsOk()
    requires NoCutWrite(check.env.write) && NoCutRead(check.env.again)
    ensures Restored(w, Checked(w, check, bound)) && Checked(w, check, bound).record.remembered == w.record.remembered
  {
    CheckDoneConverges(w, check, bound);
    NoCutIsSeen(w.record.family, w.record.remembered, check.env);
    DrainKeepsBus(w, check.moves);
    SubmitKeepsRecord(w, Check(w.record.remembered), check);
    var d := Drained(w, check.moves).probe;
    if check.env.bound && CheckRun(d, w.record.remembered, check.env).reapplied {
      ResentIsHeld(d, w.record.remembered, check.env);
    }
  }

  lemma DuePollRestores(w: World, act: Act, bound: int)
    requires Inv(w) && Actable(w, act, bound) && act.Poll? && DuePoll(w, act, bound)
    requires Compensates(w.record.family) && FairAct(w.record.family, act) && GoodCheck(w, act, bound)
    ensures Restored(w, Acted(w, act, bound)) && Acted(w, act, bound).record.remembered == w.record.remembered
  {
    DueIsDue(w, act, bound);
    PolledKeepsInv(w, act.sample, act.now, act.steady, bound);
    PolledCounts(w, act, bound, Reapplications);
    CheckRestores(Polled(w, act.sample, act.now, act.steady, bound), act.check, bound);
  }

  /** Whatever a power cut or anything else did to the probe's compensation, a run with 24
      successful polls contains one whose check, if it is done and comes out OK without another
      cut, finds or puts back every remembered value. */
  lemma RestoredWithin24(w: World, acts: seq<Act>, bound: int) returns (i: nat)
    requires Inv(w) && CanAct(w, acts, bound) && Compensates(w.record.family)
    requires forall k :: 0 <= k < |acts| ==> FairAct(w.record.family, acts[k])
    requires Tallied(w, acts, bound, Successes) >= 24
    ensures i < |acts| && CanAct(w, acts[..i], bound)
    ensures var v := AfterActs(w, acts[..i], bound);
      && Actable(v, acts[i], bound) && DuePoll(v, acts[i], bound)
      && (GoodCheck(v, acts[i], bound) ==> Restored(v, Acted(v, acts[i], bound)))
  {
    i := DueComes(w, acts, bound);
    RunKeepsInv(w, acts[..i], bound);
    var v := AfterActs(w, acts[..i], bound);
    if GoodCheck(v, acts[i], bound) {
      DuePollRestores(v, acts[i], bound);
    }
  }

  // ---- A power cut, and the poll that repairs it -----------------------------------------------------

  /** Nothing goes wrong during a poll or its check: everything is answered and accepted. */
  predicate SmoothEnv(e: Env, family: Family) {
    && e.bound && HonestRead(e.first) && HonestWrite(e.write) && NoCuts(e) && AcceptedWrite(e.write)
    && e.sample.answered && AllAnswered(family, e.first) && AllAnswered(family, e.again)
  }

  predicate SmoothPoll(act: Act, family: Family) {
    && act.Poll? && act.sample.Done? && act.sample.moves == [] && SmoothEnv(act.sample.env, family)
    && act.check.Done? && act.check.moves == [] && SmoothEnv(act.check.env, family)
  }

  /** A remembered temperature is missing from a probe just powered up, beyond what rounding could
      hide. */
  predicate TemperatureLost(d: Device, wanted: Comp) {
    && Covered(d.family, wanted) && wanted.t.Some? && d.held.t == PowerUpTemperature(d.family)
    && Abs(wanted.t.value - PowerUpTemperature(d.family)) > TEMPERATURE_TOLERANCE + TEMPERATURE_READBACK
  }

  /** The check of such a probe sends the remembered values again. */
  lemma LostIsResent(d: Device, wanted: Comp, e: Env)
    requires TemperatureLost(d, wanted) && SmoothEnv(e, d.family)
    ensures var r := CheckRun(d, wanted, e); r.reapplied && HeldFor(r.device.held, wanted)
  {
    ResendsExactly(d, wanted, e);
    ResentIsHeld(d, wanted, e);
  }

  lemma SmoothSample(w: World, act: Act, bound: int)
    requires SmoothPoll(act, w.probe.family) && w.line.waiting == []
    ensures Actable(w, act, bound) && PollOk(w, act, bound)
    ensures var polled := Polled(w, act.sample, act.now, act.steady, bound);
      polled.probe.held == w.probe.held && polled.probe.family == w.probe.family && polled.line.waiting == []
  {
    SubmitKeepsRecord(w, Sample, act.sample);
  }

  lemma SmoothCheck(w: World, check: Service, bound: int)
    requires w.line.waiting == [] && Compensates(w.record.family) && w.probe.family == w.record.family
    requires check.Done? && check.moves == [] && SmoothEnv(check.env, w.probe.family)
    requires TemperatureLost(w.probe, w.record.remembered)
    ensures CheckServiceable(w, check)
    ensures var r := Checked(w, check, bound);
      r.record.reapplied == w.record.reapplied + 1 && HeldFor(r.probe.held, w.record.remembered)
  {
    LostIsResent(w.probe, w.record.remembered, check.env);
  }

  lemma DuePollIsChecked(w: World, act: Act, bound: int)
    requires Actable(w, act, bound) && act.Poll? && DuePoll(w, act, bound)
    ensures var polled := Polled(w, act.sample, act.now, act.steady, bound);
      && CheckServiceable(polled, act.check) && Acted(w, act, bound) == Checked(polled, act.check, bound)
      && polled.record.family == w.record.family && polled.record.remembered == w.record.remembered
      && polled.record.reapplied == w.record.reapplied
  {
    DueIsDue(w, act, bound);
    PolledCounts(w, act, bound, Reapplications);
  }

  lemma DuePollRepairs(w: World, act: Act, bound: int)
    requires Compensates(w.record.family) && w.probe.family == w.record.family && w.line.waiting == []
    requires TemperatureLost(w.probe, w.record.remembered) && SmoothPoll(act, w.probe.family)
    requires w.record.cache.successCount % 24 == 23
    ensures Actable(w, act, bound)
    ensures var r := Acted(w, act, bound);
      r.record.reapplied == w.record.reapplied + 1 && HeldFor(r.probe.held, w.record.remembered)
  {
    SmoothSample(w, act, bound);
    DuePollIsChecked(w, act, bound);
    SmoothCheck(Polled(w, act.sample, act.now, act.steady, bound), act.check, bound);
  }

  /** Power is lost, and the next successful poll is a 24th: the remembered values are on the probe
      again, and that is counted. */
  lemma PowerCutIsRepaired(w: World, act: Act, bound: int)
    requires Inv(w) && w.line.waiting == [] && Compensates(w.record.family) && w.record.remembered.t.Some?
    requires Abs(w.record.remembered.t.value - PowerUpTemperature(w.record.family))
      > TEMPERATURE_TOLERANCE + TEMPERATURE_READBACK
    requires w.record.cache.successCount % 24 == 23 && SmoothPoll(act, w.record.family)
    ensures Actable(w, PowerCut, bound) && Actable(Acted(w, PowerCut, bound), act, bound)
    ensures var r := Acted(Acted(w, PowerCut, bound), act, bound);
      r.record.reapplied == w.record.reapplied + 1 && HeldFor(r.probe.held, w.record.remembered)
  {
    DuePollRepairs(Acted(w, PowerCut, bound), act, bound);
  }

  // ---- The sample a poll shows ------------------------------------------------------------------------

  lemma CheckedShows(w: World, s: Service, bound: int, sample: Option<Update>)
    requires CheckServiceable(w, s) && ShowsSample(w.record.family, w.record.cache, sample)
    ensures var r := Checked(w, s, bound).record;
      && r.family == w.record.family && ShowsSample(r.family, r.cache, sample)
      && r.cache.lastReadOk == w.record.cache.lastReadOk
  {
    if Compensates(w.record.family) {
      SubmitKeepsRecord(w, Check(w.record.remembered), s);
      var reply := CheckReply(w, s);
      var u := StoreCheck(reply.status, reply.outcome.reading, reply.outcome.reapplied);
      OthersKeepSample(w.record, u, bound, sample);
    }
  }

  /** The update of a poll. */
  function SampleOf(w: World, act: Act, bound: int): Update
    requires Actable(w, act, bound) && act.Poll?
  {
    var reply := Submit(w, Sample, act.sample);
    Refresh(reply.status, reply.outcome.signals, act.now, act.steady)
  }

  /** A poll that reads the probe shows what it read, in every slot the sample fills, stamped with
      the times of the poll; one that fails leaves the sample as it was and marks it. */
  lemma PollShowsSample(w: World, act: Act, bound: int, sample: Option<Update>)
    requires Inv(w) && Actable(w, act, bound) && act.Poll? && FairAct(w.record.family, act)
    requires ShowsSample(w.record.family, w.record.cache, sample)
    ensures var r, ok := Acted(w, act, bound).record, PollOk(w, act, bound);
      && r.cache.lastReadOk == ok
      && ShowsSample(r.family, r.cache, if ok then Some(SampleOf(w, act, bound)) else sample)
      && (ok ==> act.sample.Done? && SampleOf(w, act, bound).signals == act.sample.env.sample.signals)
  {
    SubmitKeepsRecord(w, Sample, act.sample);
    RefreshShows(w.record, SampleOf(w, act, bound), bound, sample);
    var polled := Polled(w, act.sample, act.now, act.steady, bound);
    if CheckDue(polled.record) {
      CheckedShows(polled, act.check, bound, if PollOk(w, act, bound) then Some(SampleOf(w, act, bound)) else sample);
    }
  }
}
