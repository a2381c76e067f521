/** What holds of a device record after any sequence of updates. */
module DeviceTheorems {
  import opened Statuses
  import opened Compensation
  import opened Probe
  import opened Signals
  import opened DeviceState

  // ---- Cache agreement ---------------------------------------------------------------

  /** A successful sample always brings one slot per declared signal. */
  predicate Shaped(family: Family, u: Update) {
    u.Refresh? && u.status.IsOk() ==> |u.signals| == SignalCount(family)
  }

  predicate Known(slot: Slot, value: real) {
    slot.available && slot.hasValue && slot.value == value && slot.reason == ""
  }

  predicate LevelShown(r: Record, slot: Slot) {
    if r.level.Some? then Known(slot, r.level.value)
    else ReasonShown(slot, r.levelError, "calibration level not read yet")
  }

  /** A compensation value, or why it is not known. */
  predicate CompShown(slot: Slot, value: Option<real>, error: string) {
    if value.Some? then Known(slot, value.value) else ReasonShown(slot, error, "compensation not read yet")
  }

  predicate LevelSlotShown(r: Record) {
    LevelSignal(r.family).Some? ==> LevelShown(r, SlotAt(r.cache.signals, LevelSignal(r.family)))
  }

  predicate CompSlotsShown(r: Record) {
    && (TemperatureSignal(r.family).Some? ==>
          CompShown(SlotAt(r.cache.signals, TemperatureSignal(r.family)), r.read.values.t, r.compError))
    && (SalinitySignal(r.family).Some? ==>
          CompShown(SlotAt(r.cache.signals, SalinitySignal(r.family)), r.read.values.s,
                    if r.read.inPpt then IN_PPT else r.compError))
    && (PressureSignal(r.family).Some? ==>
          CompShown(SlotAt(r.cache.signals, PressureSignal(r.family)), r.read.values.p, r.compError))
  }

  /** The level and compensation slots show exactly what is stored beside the sample, and where
      nothing is known, why. */
  predicate Agrees(r: Record) {
    |r.cache.signals| == SignalCount(r.family) && (r.cache.hasSample ==> LevelSlotShown(r) && CompSlotsShown(r))
  }

  lemma ApplyKeepsFamily(r: Record, u: Update, bound: int)
    ensures Apply(r, u, bound).family == r.family
  {
  }

  predicate CompSignal(f: Family, i: nat) {
    TemperatureSignal(f) == Some(i) || SalinitySignal(f) == Some(i) || PressureSignal(f) == Some(i)
  }

  lemma LevelApplies(r: Record)
    requires |r.cache.signals| == SignalCount(r.family)
    ensures var n := LevelApplied(r);
      && n == r.(cache := r.cache.(signals := n.cache.signals)) && |n.cache.signals| == |r.cache.signals|
      && LevelSlotShown(n) && (CompSlotsShown(r) ==> CompSlotsShown(n))
  {
  }

  lemma CompShows(r: Record)
    requires |r.cache.signals| == SignalCount(r.family)
    ensures CompSlotsShown(CompApplied(r))
  {
  }

  lemma CompApplies(r: Record)
    requires |r.cache.signals| == SignalCount(r.family)
    ensures var n := CompApplied(r);
      && n == r.(cache := r.cache.(signals := n.cache.signals)) && |n.cache.signals| == |r.cache.signals|
      && CompSlotsShown(n) && (LevelSlotShown(r) ==> LevelSlotShown(n))
  {
    CompShows(r);
    if LevelSignal(r.family).Some? {
      var index := LevelSignal(r.family);
      assert SlotAt(CompApplied(r).cache.signals, index) == SlotAt(r.cache.signals, index);
    }
  }

  lemma RefreshAgrees(r: Record, status: Status, signals: seq<Slot>, now: int, steady: int, bound: int)
    requires Agrees(r) && (status.IsOk() ==> |signals| == SignalCount(r.family))
    ensures Agrees(Refreshed(r, status, signals, now, steady, bound))
  {
    if status.IsOk() {
      var loaded := r.(cache := Monitored(r.cache, steady, bound).(signals := signals));
      LevelApplies(loaded);
      CompApplies(LevelApplied(loaded));
    }
  }

  lemma LevelAgrees(r: Record, status: Status, level: real, asOf: nat)
    requires Agrees(r)
    ensures Agrees(LevelStored(r, status, level, asOf))
  {
    LevelApplies(if status.IsOk() then r.(level := Some(level), levelAsOf := asOf, levelError := "")
                 else r.(level := None, levelError := "calibration level unknown: " + status.message));
  }

  lemma CheckAgrees(r: Record, status: Status, reading: Reading, reapplied: bool)
    requires Agrees(r)
    ensures Agrees(CheckStored(r, status, reading, reapplied))
  {
    var stored := if status.IsOk() then r.(read := reading, compError := "")
                  else r.(read := NO_READING, compError := "compensation unknown: " + status.message);
    CompApplies(stored.(reapplied := stored.reapplied + if reapplied then 1 else 0));
  }

  lemma ApplyAgrees(r: Record, u: Update, bound: int)
    requires Agrees(r) && Shaped(r.family, u)
    ensures Agrees(Apply(r, u, bound))
  {
    match u
    case Refresh(status, signals, now, steady) => RefreshAgrees(r, status, signals, now, steady, bound);
    case ReadLevel(status, level, asOf) => LevelAgrees(r, status, level, asOf);
    case StoreCheck(status, reading, reapplied) => CheckAgrees(r, status, reading, reapplied);
    case Remember(_) =>
    case RecordCall(_) =>
  }

  /** Cache agreement, over any sequence of refreshes, level reads, compensation checks,
      remembered values and calls, in any order, successful or not. */
  lemma {:induction false} CacheAgreement(family: Family, us: seq<Update>, bound: int)
    requires forall i :: 0 <= i < |us| ==> Shaped(family, us[i])
    ensures After(Fresh(family), us, bound).family == family && Agrees(After(Fresh(family), us, bound))
  {
    if us != [] {
      var before := us[..|us| - 1];
      CacheAgreement(family, before, bound);
      ApplyAgrees(After(Fresh(family), before, bound), us[|us| - 1], bound);
      ApplyKeepsFamily(After(Fresh(family), before, bound), us[|us| - 1], bound);
    }
  }

  /** A level read or a compensation check rewrites its own slots and no others. */
  lemma OtherSlotsUntouched(r: Record, u: Update, bound: int, i: nat)
    requires |r.cache.signals| == SignalCount(r.family) && i < |r.cache.signals|
    requires (u.ReadLevel? && LevelSignal(r.family) != Some(i)) || (u.StoreCheck? && !CompSignal(r.family, i))
             || u.Remember? || u.RecordCall?
    ensures i < |Apply(r, u, bound).cache.signals| && Apply(r, u, bound).cache.signals[i] == r.cache.signals[i]
  {
  }

  // ---- The sample is the last one read ---------------------------------------------------

  /** The last successful refresh. */
  function LastSample(us: seq<Update>): Option<Update> {
    if us == [] then None
    else
      var last := us[|us| - 1];
      if last.Refresh? && last.status.IsOk() then Some(last) else LastSample(us[..|us| - 1])
  }

  /** A slot the probe's own sample fills. */
  predicate PlainSlot(family: Family, i: nat) { LevelSignal(family) != Some(i) && !CompSignal(family, i) }

  /** The cache holds what that refresh read, where the sample fills it, and when. */
  predicate ShowsSample(family: Family, c: Cache, sample: Option<Update>) {
    && |c.signals| == SignalCount(family)
    && (c.hasSample <==> sample.Some?)
    && (sample.Some? && sample.value.Refresh? && |sample.value.signals| == SignalCount(family) ==>
          && c.sampledAt == sample.value.now && c.sampledAtSteady == sample.value.steady
          && forall i :: 0 <= i < |c.signals| && PlainSlot(family, i) ==> c.signals[i] == sample.value.signals[i])
  }

  lemma RefreshShows(r: Record, u: Update, bound: int, sample: Option<Update>)
    requires Shaped(r.family, u) && u.Refresh? && ShowsSample(r.family, r.cache, sample)
    ensures ShowsSample(r.family, Apply(r, u, bound).cache, if u.status.IsOk() then Some(u) else sample)
  {
  }

  lemma OthersKeepSample(r: Record, u: Update, bound: int, sample: Option<Update>)
    requires !u.Refresh? && ShowsSample(r.family, r.cache, sample)
    ensures ShowsSample(r.family, Apply(r, u, bound).cache, sample)
  {
    forall i | 0 <= i < |r.cache.signals| && PlainSlot(r.family, i)
      ensures i < |Apply(r, u, bound).cache.signals| && Apply(r, u, bound).cache.signals[i] == r.cache.signals[i]
    {
      OtherSlotsUntouched(r, u, bound, i);
    }
  }

  /** After any sequence of updates each slot the sample fills is that of the last successful
      refresh, stamped with its times; a failed refresh, a level read or a check leaves it so. */
  lemma {:induction false} SampleIsLastRead(family: Family, us: seq<Update>, bound: int)
    requires forall i :: 0 <= i < |us| ==> Shaped(family, us[i])
    ensures ShowsSample(family, After(Fresh(family), us, bound).cache, LastSample(us))
  {
    if us != [] {
      var before, last := us[..|us| - 1], us[|us| - 1];
      SampleIsLastRead(family, before, bound);
      CacheAgreement(family, before, bound);
      if last.Refresh? {
        RefreshShows(After(Fresh(family), before, bound), last, bound, LastSample(before));
      } else {
        OthersKeepSample(After(Fresh(family), before, bound), last, bound, LastSample(before));
      }
    }
  }

  // ---- So are the values read on demand -------------------------------------------------------

  function LastLevelRead(us: seq<Update>): Option<Update> {
    if us == [] then None
    else if us[|us| - 1].ReadLevel? then Some(us[|us| - 1])
    else LastLevelRead(us[..|us| - 1])
  }

  function LastCheck(us: seq<Update>): Option<Update> {
    if us == [] then None else if us[|us| - 1].StoreCheck? then Some(us[|us| - 1]) else LastCheck(us[..|us| - 1])
  }

  /** The level is that of the last attempt to read it, and unknown, with the reason, if there was
      none or it failed; and so is the compensation. */
  predicate OnDemand(r: Record, level: Option<Update>, check: Option<Update>) {
    && (level.None? ==> r.level == None && r.levelError == "")
    && (level.Some? && level.value.ReadLevel? ==>
          if level.value.status.IsOk()
          then r.level == Some(level.value.level) && r.levelAsOf == level.value.asOf && r.levelError == ""
          else r.level == None && r.levelError == "calibration level unknown: " + level.value.status.message)
    && (check.None? ==> r.read == NO_READING && r.compError == "")
    && (check.Some? && check.value.StoreCheck? ==>
          if check.value.status.IsOk() then r.read == check.value.reading && r.compError == ""
          else r.read == NO_READING && r.compError == "compensation unknown: " + check.value.status.message)
  }

  lemma OneUpdateMore(r: Record, u: Update, bound: int, level: Option<Update>, check: Option<Update>)
    requires OnDemand(r, level, check)
    ensures OnDemand(Apply(r, u, bound), if u.ReadLevel? then Some(u) else level,
                     if u.StoreCheck? then Some(u) else check)
  {
  }

  lemma {:induction false} OnDemandIsLastRead(family: Family, us: seq<Update>, bound: int)
    ensures OnDemand(After(Fresh(family), us, bound), LastLevelRead(us), LastCheck(us))
  {
    if us != [] {
      var before := us[..|us| - 1];
      OnDemandIsLastRead(family, before, bound);
      OneUpdateMore(After(Fresh(family), before, bound), us[|us| - 1], bound, LastLevelRead(before), LastCheck(before));
    }
  }

  /** The reason shown for a value that is not known: the last failure, or that it was not read. */
  predicate ReasonShown(slot: Slot, error: string, otherwise: string) {
    !slot.available && !slot.hasValue && slot.reason == if error == "" then otherwise else error
  }

  // ---- The cadence monitor refines a property of the refresh history -------------------

  datatype Attempt = Attempt(ok: bool, at: int)

  function Attempts(us: seq<Update>): seq<Attempt> {
    if us == [] then []
    else
      var last := us[|us| - 1];
      Attempts(us[..|us| - 1]) + (if last.Refresh? then [Attempt(last.status.IsOk(), last.steady)] else [])
  }

  /** Attempts j-1 and j both succeeded, further apart than the bound. */
  predicate Lagging(h: seq<Attempt>, j: int, bound: int) {
    0 < j < |h| && h[j - 1].ok && h[j].ok && h[j].at - h[j - 1].at > bound
  }

  predicate StreakAt(h: seq<Attempt>, j: int, bound: int) {
    Lagging(h, j - 2, bound) && Lagging(h, j - 1, bound) && Lagging(h, j, bound)
  }

  /** Somewhere four successes in a row had all three gaps over the bound. */
  ghost predicate HasStreak(h: seq<Attempt>, bound: int) {
    exists j :: 0 <= j < |h| && StreakAt(h, j, bound)
  }

  function TrailingRun(h: seq<Attempt>, bound: int): nat {
    if Lagging(h, |h| - 1, bound) then 1 + TrailingRun(h[..|h| - 1], bound) else 0
  }

  lemma LaggingPrefix(h: seq<Attempt>, a: Attempt, j: int, bound: int)
    requires j < |h|
    ensures Lagging(h + [a], j, bound) <==> Lagging(h, j, bound)
  {
  }

  lemma StreakExtends(h: seq<Attempt>, a: Attempt, bound: int)
    ensures HasStreak(h + [a], bound) <==> HasStreak(h, bound) || StreakAt(h + [a], |h|, bound)
  {
    var n := h + [a];
    forall j | 0 <= j < |h| ensures StreakAt(n, j, bound) <==> StreakAt(h, j, bound) {
      LaggingPrefix(h, a, j - 2, bound);
      LaggingPrefix(h, a, j - 1, bound);
      LaggingPrefix(h, a, j, bound);
    }
    if HasStreak(h, bound) {
      var j :| 0 <= j < |h| && StreakAt(h, j, bound);
      assert StreakAt(n, j, bound);
    }
  }

  lemma RunExtends(h: seq<Attempt>, a: Attempt, bound: int)
    ensures TrailingRun(h + [a], bound) == if Lagging(h + [a], |h|, bound) then 1 + TrailingRun(h, bound) else 0
  {
  }

  /** A streak ends at the last attempt exactly when the trailing run is three or longer. */
  lemma StreakIsLongRun(h: seq<Attempt>, bound: int)
    ensures StreakAt(h, |h| - 1, bound) <==> TrailingRun(h, bound) >= 3
  {
    var n := |h|;
    if Lagging(h, n - 1, bound) {
      var h1 := h[..n - 1];
      assert Lagging(h1, n - 2, bound) <==> Lagging(h, n - 2, bound);
      if Lagging(h1, n - 2, bound) {
        var h2 := h1[..n - 2];
        assert Lagging(h2, n - 3, bound) <==> Lagging(h, n - 3, bound);
        assert TrailingRun(h, bound) == 2 + TrailingRun(h2, bound);
      }
    }
  }

  /** What the monitor's fields mean, in terms of the attempts so far. */
  ghost predicate Monitors(c: Cache, h: seq<Attempt>, bound: int) {
    && (c.hasSample && c.lastReadOk <==> |h| > 0 && h[|h| - 1].ok)
    && (|h| > 0 && h[|h| - 1].ok ==> c.sampledAtSteady == h[|h| - 1].at)
    && (c.warned <==> HasStreak(h, bound))
    && c.warnings == (if c.warned then 1 else 0)
    && (!c.warned ==> c.lag == TrailingRun(h, bound) < CADENCE_LAG_STREAK)
  }

  lemma RefreshMonitors(r: Record, u: Update, h: seq<Attempt>, bound: int)
    requires u.Refresh? && Monitors(r.cache, h, bound)
    ensures Monitors(Apply(r, u, bound).cache, h + [Attempt(u.status.IsOk(), u.steady)], bound)
  {
    var a := Attempt(u.status.IsOk(), u.steady);
    StreakExtends(h, a, bound);
    RunExtends(h, a, bound);
    StreakIsLongRun(h + [a], bound);
  }

  lemma OthersLeaveMonitor(r: Record, u: Update, h: seq<Attempt>, bound: int)
    requires !u.Refresh? && Monitors(r.cache, h, bound)
    ensures Monitors(Apply(r, u, bound).cache, h, bound)
  {
  }

  /** The cadence warning, over any history of refreshes interleaved with anything else:
      the latch is set exactly when the attempts contain four successes in a row whose
      three gaps all exceed the bound, the warning is logged once, and until then the lag
      counter is the length of the run of such gaps that is still going on. */
  lemma {:induction false} CadenceMonitorExact(family: Family, us: seq<Update>, bound: int)
    ensures Monitors(After(Fresh(family), us, bound).cache, Attempts(us), bound)
  {
    if us != [] {
      var before, last := us[..|us| - 1], us[|us| - 1];
      CadenceMonitorExact(family, before, bound);
      if last.Refresh? {
        RefreshMonitors(After(Fresh(family), before, bound), last, Attempts(before), bound);
      } else {
        OthersLeaveMonitor(After(Fresh(family), before, bound), last, Attempts(before), bound);
        assert Attempts(us) == Attempts(before);
      }
    }
  }

  // ---- Remembered compensation is a fold of the history --------------------------------

  /** The last value given for one field, among the remembered ones. */
  function LastGiven(us: seq<Update>, field: Comp -> Option<real>): Option<real> {
    if us == [] then None
    else
      var last := us[|us| - 1];
      if last.Remember? && field(last.values).Some? then field(last.values)
      else LastGiven(us[..|us| - 1], field)
  }

  lemma {:induction false} RememberedIsLastGiven(family: Family, us: seq<Update>, bound: int)
    ensures After(Fresh(family), us, bound).remembered ==
      Comp(LastGiven(us, (c: Comp) => c.t), LastGiven(us, (c: Comp) => c.s), LastGiven(us, (c: Comp) => c.p))
  {
    if us != [] {
      RememberedIsLastGiven(family, us[..|us| - 1], bound);
    }
  }

  // ---- The counters ------------------------------------------------------------------------

  datatype Tally = Successes | Failures | Reapplications | CallsOk | CallsFailed

  predicate Counts(tally: Tally, u: Update) {
    match tally
    case Successes => u.Refresh? && u.status.IsOk()
    case Failures => u.Refresh? && !u.status.IsOk()
    case Reapplications => u.StoreCheck? && u.reapplied
    case CallsOk => u.RecordCall? && u.ok
    case CallsFailed => u.RecordCall? && !u.ok
  }

  function Counter(r: Record, tally: Tally): nat {
    match tally
    case Successes => r.cache.successCount
    case Failures => r.cache.failureCount
    case Reapplications => r.reapplied
    case CallsOk => r.callSuccess
    case CallsFailed => r.callFailure
  }

  function Times(us: seq<Update>, tally: Tally): nat {
    if us == [] then 0 else Times(us[..|us| - 1], tally) + if Counts(tally, us[|us| - 1]) then 1 else 0
  }

  lemma OneCounted(r: Record, u: Update, bound: int, tally: Tally)
    ensures Counter(Apply(r, u, bound), tally) == Counter(r, tally) + if Counts(tally, u) then 1 else 0
  {
  }

  /** Each counter is the number of updates of its kind, whatever else happened. */
  lemma {:induction false} CountersExact(family: Family, us: seq<Update>, bound: int, tally: Tally)
    ensures Counter(After(Fresh(family), us, bound), tally) == Times(us, tally)
  {
    if us != [] {
      var before := us[..|us| - 1];
      CountersExact(family, before, bound, tally);
      OneCounted(After(Fresh(family), before, bound), us[|us| - 1], bound, tally);
    }
  }
}
