/** Freshness and deadlines: the derived intervals (src/core/runtime_state.cpp:433-455), the
    refresh decision of `read` (src/core/ezo_provider_runtime.cpp:711-739) and a call's
    deadline (src/core/ezo_provider_runtime.cpp:311-355). Times are in milliseconds. */
module Timing {
  import opened Statuses
  import opened Compensation
  import opened Probe
  import opened Jobs
  import opened JobTheorems
  import opened DeviceState
  import opened DeviceTheorems
  import opened ArgValidation
  import opened Provider

  const INT_MAX := 2147483647

  datatype Config = Config(queryDelayUs: int, sampleIntervalMs: int, timeoutMs: int)

  /** The ranges the configuration schema admits. */
  predicate SchemaValid(c: Config) {
    1 <= c.queryDelayUs <= INT_MAX && 1 <= c.sampleIntervalMs <= 86400000 && 1 <= c.timeoutMs <= INT_MAX
  }

  function Max(a: int, b: int): int { if a < b then b else a }
  function Lesser(a: int, b: int): int { if a < b then a else b }

  /** Integer division as C++ does it, toward zero. */
  function Truncated(a: int, b: int): int
    requires b > 0
  {
    if a >= 0 then a / b else -((-a) / b)
  }

  function QueryLatency(c: Config): int { Max(Truncated(c.queryDelayUs, 1000), 50) }
  function SampleInterval(c: Config): int { Max(c.sampleIntervalMs, 50) }
  function StaleAfter(c: Config): int { Lesser(Max(SampleInterval(c) * 3, 500), INT_MAX) }

  /** The freshness bound is three intervals, two of which may be missed; not under half a second,
      and not over what an int holds. The interval and the reuse window are the configured ones,
      not under 50 ms. */
  lemma DerivedIntervals(c: Config)
    ensures SampleInterval(c) >= 50 && QueryLatency(c) >= 50
    ensures c.sampleIntervalMs >= 50 ==> SampleInterval(c) == c.sampleIntervalMs
    ensures c.queryDelayUs >= 50000 ==> QueryLatency(c) * 1000 <= c.queryDelayUs < QueryLatency(c) * 1000 + 1000
    ensures c.sampleIntervalMs < 50 ==> SampleInterval(c) == 50
    ensures c.queryDelayUs < 50000 ==> QueryLatency(c) == 50
    ensures 167 <= SampleInterval(c) <= INT_MAX / 3 ==> StaleAfter(c) == 3 * SampleInterval(c)
    ensures SampleInterval(c) < 167 ==> StaleAfter(c) == 500
    ensures SampleInterval(c) > INT_MAX / 3 ==> StaleAfter(c) == INT_MAX
  {
  }

  // ---- Polling --------------------------------------------------------------------------

  /** A poll that starts at `at`; if it goes to the bus the read takes `took`. */
  datatype PollAt = PollAt(at: int, took: nat)

  /** Polls come one after another, at most `interval` apart, and no read takes over `longest`. */
  predicate Regular(polls: seq<PollAt>, interval: int, longest: int) {
    && (forall i :: 0 <= i < |polls| ==> polls[i].took <= longest)
    && (forall i :: 0 < i < |polls| ==> polls[i - 1].at <= polls[i].at <= polls[i - 1].at + interval)
  }

  /** The refresh decision of `read`: no sample yet, or older than the reuse window. */
  predicate NeedsRefresh(sampledAt: Option<int>, now: int, window: int) {
    sampledAt.None? || now - sampledAt.value > window
  }

  /** When the cached sample was taken, after all the polls, every refresh having succeeded. */
  function SampledAt(polls: seq<PollAt>, window: int): Option<int> {
    if polls == [] then None
    else
      var before, last := SampledAt(polls[..|polls| - 1], window), polls[|polls| - 1];
      if NeedsRefresh(before, last.at, window) then Some(last.at + last.took) else before
  }

  /** The refreshes those polls cause, as the cadence monitor sees them. */
  function Samples(polls: seq<PollAt>, window: int): seq<Attempt> {
    if polls == [] then []
    else
      var before, last := polls[..|polls| - 1], polls[|polls| - 1];
      Samples(before, window) +
      (if NeedsRefresh(SampledAt(before, window), last.at, window) then [Attempt(true, last.at + last.took)] else [])
  }

  predicate AllSucceed(h: seq<Attempt>) { forall i :: 0 <= i < |h| ==> h[i].ok }

  /** The cached sample is the last attempt, and no older than the window at the last poll. */
  lemma {:induction false} CacheIsRecent(polls: seq<PollAt>, window: int, interval: int, longest: int)
    requires polls != [] && window >= 0 && Regular(polls, interval, longest)
    ensures SampledAt(polls, window).Some? && polls[|polls| - 1].at - window <= SampledAt(polls, window).value
    ensures var h := Samples(polls, window);
      h != [] && AllSucceed(h) && h[|h| - 1].at == SampledAt(polls, window).value
  {
    var before := polls[..|polls| - 1];
    if before != [] {
      CacheIsRecent(before, window, interval, longest);
    }
  }

  /** Between the start of one poll and the end of the next the cached sample is at most
      window + interval + read time old. */
  lemma AgeBounded(polls: seq<PollAt>, next: PollAt, t: int, window: int, interval: int, longest: int)
    requires polls != [] && window >= 0 && Regular(polls + [next], interval, longest)
    requires t <= next.at + next.took
    ensures SampledAt(polls, window).Some? && t - SampledAt(polls, window).value <= window + interval + longest
  {
    assert Regular(polls, interval, longest) by {
      assert forall i :: 0 <= i < |polls| ==> (polls + [next])[i] == polls[i];
    }
    CacheIsRecent(polls, window, interval, longest);
    assert (polls + [next])[|polls|] == next && (polls + [next])[|polls| - 1] == polls[|polls| - 1];
  }

  ghost predicate NeverLags(h: seq<Attempt>, bound: int) { forall j :: !Lagging(h, j, bound) }

  lemma OneGapMore(h: seq<Attempt>, a: Attempt, bound: int)
    requires NeverLags(h, bound) && (h != [] ==> a.at - h[|h| - 1].at <= bound)
    ensures NeverLags(h + [a], bound)
  {
    forall j ensures !Lagging(h + [a], j, bound) {
      if j < |h| {
        LaggingPrefix(h, a, j, bound);
      }
    }
  }

  lemma OnePollMore(base: seq<PollAt>, last: PollAt, window: int)
    ensures var anew := NeedsRefresh(SampledAt(base, window), last.at, window);
      && SampledAt(base + [last], window) == (if anew then Some(last.at + last.took) else SampledAt(base, window))
      && Samples(base + [last], window) ==
           Samples(base, window) + (if anew then [Attempt(true, last.at + last.took)] else [])
  {
    assert (base + [last])[..|base|] == base;
  }

  lemma {:induction false} GapsBounded(polls: seq<PollAt>, window: int, interval: int, longest: int, bound: int)
    requires window >= 0 && Regular(polls, interval, longest) && window + interval + longest <= bound
    ensures NeverLags(Samples(polls, window), bound)
  {
    if polls != [] {
      var before, last := polls[..|polls| - 1], polls[|polls| - 1];
      assert before + [last] == polls;
      GapsBounded(before, window, interval, longest, bound);
      OnePollMore(before, last, window);
      if before != [] {
        CacheIsRecent(before, window, interval, longest);
        AgeBounded(before, last, last.at + last.took, window, interval, longest);
      }
      if NeedsRefresh(SampledAt(before, window), last.at, window) {
        OneGapMore(Samples(before, window), Attempt(true, last.at + last.took), bound);
      } else {
        assert Samples(polls, window) == Samples(before, window);
      }
    }
  }

  /** At time t, no later than the end of poll k, the cached sample is older than the bound. */
  predicate StaleAt(polls: seq<PollAt>, k: int, t: int, window: int, bound: int) {
    0 < k < |polls| && t <= polls[k].at + polls[k].took &&
    (SampledAt(polls[..k], window).None? || t - SampledAt(polls[..k], window).value > bound)
  }

  lemma NeverStale(polls: seq<PollAt>, k: int, t: int, window: int, interval: int, longest: int, bound: int)
    requires window >= 0 && Regular(polls, interval, longest) && window + interval + longest <= bound
    ensures !StaleAt(polls, k, t, window, bound)
  {
  }

  /** No false staleness: with polls at most one interval apart and every refresh
      succeeding, if window + interval + read time is within the freshness bound then no
      sample is ever older than the bound, and whatever else happens to the device the
      cadence warning never fires. */
  lemma NoFalseStaleness(family: Family, us: seq<Update>, polls: seq<PollAt>, window: int, interval: int,
                         longest: int, bound: int)
    requires window >= 0 && Regular(polls, interval, longest) && window + interval + longest <= bound
    requires Attempts(us) == Samples(polls, window)
    ensures !After(Fresh(family), us, bound).cache.warned && After(Fresh(family), us, bound).cache.lag == 0
    ensures forall k, t :: !StaleAt(polls, k, t, window, bound)
  {
    GapsBounded(polls, window, interval, longest, bound);
    CadenceMonitorExact(family, us, bound);
    forall k, t ensures !StaleAt(polls, k, t, window, bound) {
      NeverStale(polls, k, t, window, interval, longest, bound);
    }
  }

  /** For every schema-valid configuration that does not draw the startup warning about the
      reuse window, reads of up to one interval are fast enough. */
  lemma ConfiguredBoundSuffices(c: Config, longest: int)
    requires SchemaValid(c) && QueryLatency(c) < SampleInterval(c) && longest <= SampleInterval(c)
    ensures QueryLatency(c) + SampleInterval(c) + longest <= StaleAfter(c)
    ensures SampleInterval(c) < StaleAfter(c)
  {
  }

  // ---- The condition is exact --------------------------------------------------------------

  /** A schedule so far, all of it regular, whose cached sample was stamped at `stamp`. */
  predicate Schedule(polls: seq<PollAt>, stamp: int, window: int, interval: int, longest: int) {
    polls != [] && Regular(polls, interval, longest) && SampledAt(polls, window) == Some(stamp)
  }

  lemma RegularlyExtended(base: seq<PollAt>, last: PollAt, interval: int, longest: int)
    requires base != [] && Regular(base, interval, longest) && last.took <= longest
    requires base[|base| - 1].at <= last.at <= base[|base| - 1].at + interval
    ensures Regular(base + [last], interval, longest)
  {
  }

  /** Polls that all find the sample young enough, up to the last moment it is. */
  lemma {:induction false} PollOn(base: seq<PollAt>, stamp: int, window: nat, interval: int, longest: nat)
    returns (polls: seq<PollAt>)
    requires 0 < interval && Schedule(base, stamp, window, interval, longest)
    requires base[|base| - 1].at <= stamp + window
    ensures Schedule(polls, stamp, window, interval, longest) && Samples(polls, window) == Samples(base, window)
    ensures polls[|polls| - 1].at == stamp + window
    decreases stamp + window - base[|base| - 1].at
  {
    var at := base[|base| - 1].at;
    if at == stamp + window {
      polls := base;
    } else {
      var next := PollAt(Lesser(at + interval, stamp + window), 0);
      RegularlyExtended(base, next, interval, longest);
      OnePollMore(base, next, window);
      polls := PollOn(base + [next], stamp, window, interval, longest);
    }
  }

  /** ... and then, an interval later, a slow one: the longest gap a regular schedule can have. */
  function SlowPoll(stamp: int, window: nat, interval: int, longest: nat): PollAt {
    PollAt(stamp + window + interval, longest)
  }

  lemma LongestGap(on: seq<PollAt>, stamp: int, window: nat, interval: int, longest: nat)
    requires 0 < interval && Schedule(on, stamp, window, interval, longest) && on[|on| - 1].at == stamp + window
    ensures var next, polls := stamp + window + interval + longest, on + [SlowPoll(stamp, window, interval, longest)];
      && Schedule(polls, next, window, interval, longest)
      && Samples(polls, window) == Samples(on, window) + [Attempt(true, next)]
      && polls[..|on|] == on && polls[|on|].at + polls[|on|].took == next
  {
    var slow := SlowPoll(stamp, window, interval, longest);
    RegularlyExtended(on, slow, interval, longest);
    OnePollMore(on, slow, window);
  }

  /** Successful refreshes n times a gap apart. */
  function Spaced(n: nat, gap: int): seq<Attempt> { seq(n + 1, i => Attempt(true, i * gap)) }

  lemma ThreeGapsWarn(gap: int, bound: int)
    requires gap > bound
    ensures HasStreak(Spaced(3, gap), bound)
  {
    var h := Spaced(3, gap);
    assert Lagging(h, 1, bound) && Lagging(h, 2, bound) && Lagging(h, 3, bound);
    assert StreakAt(h, 3, bound);
  }

  /** A schedule of as many longest gaps as one likes, polled on to the last moment. */
  lemma {:induction false} ManyGaps(n: nat, window: nat, interval: int, longest: nat) returns (on: seq<PollAt>)
    requires 0 < interval
    ensures var gap := window + interval + longest;
      && Schedule(on, n * gap, window, interval, longest) && on[|on| - 1].at == n * gap + window
      && Samples(on, window) == Spaced(n, gap)
  {
    var gap := window + interval + longest;
    if n == 0 {
      var first := [PollAt(0, 0)];
      OnePollMore([], PollAt(0, 0), window);
      assert [] + first == first;
      on := PollOn(first, 0, window, interval, longest);
    } else {
      var before := ManyGaps(n - 1, window, interval, longest);
      LongestGap(before, (n - 1) * gap, window, interval, longest);
      assert (n - 1) * gap + gap == n * gap;
      on := PollOn(before + [SlowPoll((n - 1) * gap, window, interval, longest)], n * gap, window, interval, longest);
      assert Spaced(n, gap) == Spaced(n - 1, gap) + [Attempt(true, n * gap)];
    }
  }

  /** If window + interval + read time exceeds the bound, some regular schedule with every read
      succeeding has a sample older than the bound when its poll ends, and sets off the cadence
      warning, whatever else happens to the device: the condition cannot be weakened. */
  lemma ConditionIsExact(window: nat, interval: int, longest: nat, bound: int) returns (polls: seq<PollAt>)
    requires 0 < interval && window + interval + longest > bound
    ensures Regular(polls, interval, longest)
    ensures exists k, t :: StaleAt(polls, k, t, window, bound)
    ensures forall family, us :: Attempts(us) == Samples(polls, window) ==> After(Fresh(family), us, bound).cache.warned
  {
    var gap := window + interval + longest;
    var on := ManyGaps(2, window, interval, longest);
    LongestGap(on, 2 * gap, window, interval, longest);
    polls := on + [SlowPoll(2 * gap, window, interval, longest)];
    assert StaleAt(polls, |on|, 3 * gap, window, bound);
    assert Samples(polls, window) == Spaced(3, gap);
    ThreeGapsWarn(gap, bound);
    forall family, us | Attempts(us) == Samples(polls, window)
      ensures After(Fresh(family), us, bound).cache.warned
    {
      CadenceMonitorExact(family, us, bound);
    }
  }

  // ---- Deadlines ---------------------------------------------------------------------------

  const RESPONSE_HEADROOM := 1500
  const REREAD_WAIT := 250

  /** The settle times of the driver's product table for one family. */
  datatype SettleTimes = SettleTimes(generic: nat, calibration: nat)

  function ExtraCommands(f: Function, family: Family): nat {
    if f.SetCompensationFn? then 2 else if f.CalibrateFn? && family.Do? then 6 else 0
  }

  function Deadline(f: Function, family: Family, w: SettleTimes, timeoutMs: int): int {
    Max(timeoutMs,
        (if f.CalibrateFn? then w.calibration else w.generic) + RESPONSE_HEADROOM
        + ExtraCommands(f, family) * w.generic)
  }

  /** The time the job of a call spends waiting: the settle time of each command sent, a
      calibration command having its own, and a pause for each re-read. */
  function WaitTime(f: Function, w: SettleTimes, calibrated: bool, commands: nat, rereads: nat): nat {
    (if f.CalibrateFn? && calibrated && commands > 0 then w.calibration + w.generic * (commands - 1)
     else w.generic * commands) + REREAD_WAIT * rereads
  }

  /** Whether a Cal was among the commands a calibrate job sent. */
  predicate ReachesCal(d: Device, e: Env) {
    e.command.sent && (!d.family.Do? || Write(d, DO_DEFAULTS, e.write).status.IsOk())
  }

  lemma CalThenRestoreCommands(d: Device, zero: bool, restore: Comp, e: Env)
    ensures SentCount(e.command) <= CalThenRestore(d, zero, restore, e).commands <= 3 + SentCount(e.command)
  {
    var cal := Exchange(d, CalibrateDo(zero), e.command);
    WriteKeepsRest(cal.device, Writable(cal.device.family, restore), e.restore, 0);
  }

  lemma CalibrateCommands(d: Device, zero: bool, restore: Comp, e: Env)
    requires d.family.Do?
    ensures var r := CalibrateDoRun(d, zero, restore, e);
      r.commands <= (if ReachesCal(d, e) then 7 else 6) && (ReachesCal(d, e) ==> r.commands > 0)
  {
    var defaults := Write(d, DO_DEFAULTS, e.write);
    WriteKeepsRest(d, DO_DEFAULTS, e.write, 0);
    if defaults.status.IsOk() {
      CalThenRestoreCommands(defaults.device, zero, restore, e);
    } else {
      WriteKeepsRest(defaults.device, Writable(defaults.device.family, restore), e.restore, 0);
    }
  }

  /** The command counts that bound a call's job: one, and the extra ones; a calibration that is
      not reached does not count. */
  predicate CommandsWithin(f: Function, family: Family, reaches: bool, commands: nat) {
    commands <= ExtraCommands(f, family) + if f.CalibrateFn? && !reaches then 0 else 1
  }

  predicate OneCommand(f: Function, family: Family) { !f.SetCompensationFn? && !(f.CalibrateFn? && family.Do?) }

  lemma SetCommands(values: Comp, d: Device, e: Env)
    ensures RunJob(SetValues(values), d, e).commands <= 3
  {
    WriteKeepsRest(d, Writable(d.family, values), e.write, 0);
  }

  lemma CalibrateJobCommands(point: nat, reference: real, restore: Comp, d: Device, e: Env)
    requires d.family.Do?
    ensures RunJob(Calibrate(point, reference, restore), d, e).commands <= (if ReachesCal(d, e) then 7 else 6)
  {
    CalibrateCommands(d, point == 1, restore, e);
  }

  lemma OneCommandJob(f: Function, r: Record, a: ControlArgs, d: Device, e: Env)
    requires r.family == d.family && OneCommand(f, d.family)
    ensures var run := RunJob(JobFor(f, r, a), d, e); run.commands <= 1 && run.rereads <= PENDING_REREADS
  {
  }

  /** How many commands the job of a call sends, at most; and how many re-reads a job of one
      command needs. */
  lemma JobCommands(f: Function, r: Record, a: ControlArgs, d: Device, e: Env)
    requires r.family == d.family
    ensures var run := RunJob(JobFor(f, r, a), d, e);
      && CommandsWithin(f, d.family, ReachesCal(d, e), run.commands)
      && (OneCommand(f, d.family) ==> run.rereads <= PENDING_REREADS)
  {
    if f.SetCompensationFn? {
      SetCommands(a.values, d, e);
    } else if f.CalibrateFn? && d.family.Do? {
      CalibrateJobCommands(a.point, a.reference, Over(r.remembered, r.read.values), d, e);
    } else {
      OneCommandJob(f, r, a, d, e);
    }
  }

  lemma Scaled(g: nat, n: nat, most: nat)
    requires n <= most
    ensures g * n <= g * most
  {
  }

  lemma WaitWithin(f: Function, family: Family, w: SettleTimes, reaches: bool, commands: nat, rereads: nat,
                   timeoutMs: int)
    requires CommandsWithin(f, family, reaches, commands) && rereads <= 6
    ensures WaitTime(f, w, reaches, commands, rereads) <= Deadline(f, family, w, timeoutMs)
  {
    var extra := ExtraCommands(f, family);
    if f.CalibrateFn? && reaches && commands > 0 {
      Scaled(w.generic, commands - 1, extra);
    } else if f.CalibrateFn? {
      Scaled(w.generic, commands, extra);
    } else {
      Scaled(w.generic, commands, 1 + extra);
    }
  }

  /** Whatever happens on the bus, a job whose commands need at most six re-reads in all
      waits no longer than the call's deadline; and for a function that sends one command
      the cap of four re-reads makes that unconditional. */
  lemma DeadlineCoversJob(f: Function, r: Record, a: ControlArgs, d: Device, e: Env, w: SettleTimes, timeoutMs: int)
    requires r.family == d.family
    ensures var run := RunJob(JobFor(f, r, a), d, e);
      run.rereads <= 6 || OneCommand(f, d.family) ==>
        WaitTime(f, w, ReachesCal(d, e), run.commands, run.rereads) <= Deadline(f, d.family, w, timeoutMs)
  {
    var run := RunJob(JobFor(f, r, a), d, e);
    JobCommands(f, r, a, d, e);
    if run.rereads <= 6 || OneCommand(f, d.family) {
      WaitWithin(f, d.family, w, ReachesCal(d, e), run.commands, run.rereads, timeoutMs);
    }
  }

  lemma SixCovered(f: Function, family: Family, w: SettleTimes, rereads: nat, timeoutMs: int)
    requires f.SetCompensationFn? || (f.CalibrateFn? && family.Do?)
    ensures var wait := WaitTime(f, w, f.CalibrateFn?, 1 + ExtraCommands(f, family), rereads);
      wait <= Deadline(f, family, w, timeoutMs) <==> rereads <= 6 || wait <= timeoutMs
  {
  }

  /** For a job that sends all its commands, six re-reads is exactly what the deadline covers,
      unless the configured timeout is longer still. */
  lemma DeadlineExact(f: Function, r: Record, a: ControlArgs, d: Device, e: Env, w: SettleTimes, timeoutMs: int)
    requires r.family == d.family && (f.SetCompensationFn? || (f.CalibrateFn? && d.family.Do?))
    requires RunJob(JobFor(f, r, a), d, e).commands == 1 + ExtraCommands(f, d.family)
    ensures var run := RunJob(JobFor(f, r, a), d, e);
      var wait := WaitTime(f, w, ReachesCal(d, e), run.commands, run.rereads);
      wait <= Deadline(f, d.family, w, timeoutMs) <==> run.rereads <= 6 || wait <= timeoutMs
  {
    JobCommands(f, r, a, d, e);
    SixCovered(f, d.family, w, RunJob(JobFor(f, r, a), d, e).rereads, timeoutMs);
  }

  /** A command accepted after exactly n re-reads. */
  predicate SlowTurn(turn: Turn, n: nat) { AcceptedTurn(turn) && Settles(turn.frames) == n }

  predicate SlowWrite(turns: WriteTurns, n: nat) {
    SlowTurn(turns.t, n) && SlowTurn(turns.s, n) && SlowTurn(turns.p, n)
  }

  lemma SlowWriteCost(d: Device, values: Comp, turns: WriteTurns, n: nat)
    requires SlowWrite(turns, n) && values.t.Some? && values.s.Some? && values.p.Some?
    ensures var r := WriteFrom(d, values, turns, 0);
      r.status.IsOk() && r.device.family == d.family && r.commands == 3 && r.rereads == 3 * n
  {
  }

  /** A DO calibration the probe accepts throughout, each of its seven commands after n re-reads. */
  predicate SlowCalibration(r: Record, d: Device, e: Env, n: nat) {
    && r.family.Do? && d.family.Do? && e.bound
    && SlowWrite(e.write, n) && SlowTurn(e.command, n) && SlowWrite(e.restore, n)
    && var known := Over(r.remembered, r.read.values); known.t.Some? && known.s.Some? && known.p.Some?
  }

  lemma SlowCalibrationCost(r: Record, a: ControlArgs, d: Device, e: Env, n: nat)
    requires SlowCalibration(r, d, e, n)
    ensures var run := RunJob(JobFor(CalibrateFn, r, a), d, e);
      run.status.IsOk() && run.commands == 7 && run.rereads == 7 * n && ReachesCal(d, e)
  {
    var restore := Over(r.remembered, r.read.values);
    var defaults := Write(d, DO_DEFAULTS, e.write);
    SlowWriteCost(d, DO_DEFAULTS, e.write, n);
    var cal := Exchange(defaults.device, CalibrateDo(a.point == 1), e.command);
    SlowWriteCost(cal.device, restore, e.restore, n);
  }

  /** One re-read for each of the seven commands is one too many: a calibration the probe accepts
      throughout outlasts its deadline, unless the configured timeout is long enough, and its
      caller is told it timed out. */
  lemma SlowCalibrationOutlastsDeadline(r: Record, a: ControlArgs, d: Device, e: Env, n: nat, w: SettleTimes,
                                        timeoutMs: int)
    requires SlowCalibration(r, d, e, n)
    ensures var run := RunJob(JobFor(CalibrateFn, r, a), d, e);
      var wait := WaitTime(CalibrateFn, w, ReachesCal(d, e), run.commands, run.rereads);
      && run.status.IsOk()
      && wait == w.calibration + 6 * w.generic + 7 * REREAD_WAIT * n
      && (wait > Deadline(CalibrateFn, Do, w, timeoutMs) <==> n > 0 && wait > timeoutMs)
  {
    SlowCalibrationCost(r, a, d, e, n);
    DeadlineExact(CalibrateFn, r, a, d, e, w, timeoutMs);
  }

  /** Such a calibration, with seven re-reads. */
  lemma SevenRereads(d: Device) returns (r: Record, e: Env)
    requires d.family.Do?
    ensures SlowCalibration(r, d, e, 1) && Honest(e)
    ensures RunJob(JobFor(CalibrateFn, r, NO_ARGS), d, e).rereads == 7
  {
    var turn := Turn(false, true, true, false, [NotReady, Success]);
    var turns := WriteTurns(turn, turn, turn);
    r := Fresh(Do).(remembered := DO_DEFAULTS);
    e := CLEAN_ENV.(write := turns, command := turn, restore := turns);
    assert FrameAt(turn.frames, 0) == NotReady && FrameAt(turn.frames, 1) == Success;
    SlowCalibrationCost(r, NO_ARGS, d, e, 1);
  }

  // ---- The counts are the jobs' own ---------------------------------------------------------------

  /** Commands accepted throughout: set_compensation on a DO probe with all three values, a DO
      calibration with all three to restore, and any other call send exactly the commands their
      deadline is sized for. */
  lemma AllCommandsSent(f: Function, r: Record, a: ControlArgs, d: Device, e: Env, n: nat)
    requires r.family == d.family && Declared(f, d.family) && e.bound && SlowTurn(e.command, n)
    requires f.SetCompensationFn? ==>
      d.family.Do? && SlowWrite(e.write, n) && a.values.t.Some? && a.values.s.Some? && a.values.p.Some?
    requires f.CalibrateFn? && d.family.Do? ==> SlowCalibration(r, d, e, n)
    ensures RunJob(JobFor(f, r, a), d, e).commands == 1 + ExtraCommands(f, d.family)
    ensures RunJob(JobFor(f, r, a), d, e).commands ==
      if f.SetCompensationFn? then 3 else if f.CalibrateFn? && d.family.Do? then 7 else 1
  {
    if f.SetCompensationFn? {
      SlowWriteCost(d, a.values, e.write, n);
    } else if f.CalibrateFn? && d.family.Do? {
      SlowCalibrationCost(r, a, d, e, n);
    }
  }

  /** With the waits of the datasheets, 300 ms and 1300 ms, a DO calibration has 4.6 s, inside the
      5 s the runtime gives a call. */
  lemma DatasheetDeadlines(timeoutMs: int)
    requires timeoutMs <= 1800
    ensures Deadline(CalibrateFn, Do, SettleTimes(300, 1300), timeoutMs) == 4600 < 5000
    ensures Deadline(SetCompensationFn, Do, SettleTimes(300, 1300), timeoutMs) == 2400
    ensures Deadline(FindFn, Do, SettleTimes(300, 1300), timeoutMs) == 1800
    ensures Deadline(CalibrateFn, Ph, SettleTimes(300, 900), timeoutMs) == 2400
  {
  }
}
