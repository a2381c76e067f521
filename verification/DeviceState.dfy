/** The provider's record of one active device: sample cache, cadence monitor, calibration
    level, compensation and counters (src/core/runtime_state.hpp:36-97,
    src/core/runtime_state.cpp:357-419 and 659-956). */
module DeviceState {
  import opened Statuses
  import opened Compensation
  import opened Probe
  import opened Signals

  const CADENCE_LAG_STREAK := 3
  const CHECK_EVERY := 24

  /** `warnings` is history: how often the cadence warning was logged. */
  datatype Cache = Cache(
    hasSample: bool,
    lastReadOk: bool,
    sampledAt: int,
    sampledAtSteady: int,
    successCount: nat,
    failureCount: nat,
    lag: nat,
    warned: bool,
    warnings: nat,
    signals: seq<Slot>)

  /** `levelAsOf` is history, as `read.asOf` is: the probe's clock when the value was read. */
  datatype Record = Record(
    family: Family,
    cache: Cache,
    level: Option<real>,
    levelAsOf: nat,
    levelError: string,
    remembered: Comp,
    read: Reading,
    compError: string,
    reapplied: nat,
    callSuccess: nat,
    callFailure: nat)

  function Fresh(family: Family): Record {
    Record(family,
           Cache(false, false, 0, 0, 0, 0, 0, false, 0, seq(SignalCount(family), _ => EMPTY_SLOT)),
           None, 0, "", NOTHING, NO_READING, "", 0, 0, 0)
  }

  // ---- Writing the on-demand values into the sample ------------------------------

  function LevelSlot(r: Record, was: Slot): Slot {
    if r.level.Some? then ValueSlot(r.level.value)
    else Slot(false, false, was.value, if r.levelError == "" then "calibration level not read yet" else r.levelError)
  }

  function PutSlot(signals: seq<Slot>, index: Option<nat>, slot: Slot): seq<Slot> {
    if index.Some? && index.value < |signals| then signals[index.value := slot] else signals
  }

  function SlotAt(signals: seq<Slot>, index: Option<nat>): Slot {
    if index.Some? && index.value < |signals| then signals[index.value] else EMPTY_SLOT
  }

  /** `apply_calibration_level`. */
  function LevelApplied(r: Record): Record {
    var index := LevelSignal(r.family);
    r.(cache := r.cache.(signals := PutSlot(r.cache.signals, index, LevelSlot(r, SlotAt(r.cache.signals, index)))))
  }

  function CompSlot(value: Option<real>, missing: string): Slot {
    if value.Some? then ValueSlot(value.value) else UnavailableSlot(missing)
  }

  function Missing(r: Record): string {
    if r.compError == "" then "compensation not read yet" else r.compError
  }

  const IN_PPT := "probe reports its salinity compensation in ppt, not uS/cm"

  function MissingSalinity(r: Record): string { if r.read.inPpt then IN_PPT else Missing(r) }

  /** `apply_compensation`. */
  function CompApplied(r: Record): Record {
    var s0 := r.cache.signals;
    var s1 := PutSlot(s0, TemperatureSignal(r.family), CompSlot(r.read.values.t, Missing(r)));
    var s2 := PutSlot(s1, SalinitySignal(r.family), CompSlot(r.read.values.s, MissingSalinity(r)));
    var s3 := PutSlot(s2, PressureSignal(r.family), CompSlot(r.read.values.p, Missing(r)));
    r.(cache := r.cache.(signals := s3))
  }

  // ---- The updates ------------------------------------------------------------------

  /** The cadence monitor, on a successful refresh, before the cache is overwritten. */
  function Monitored(c: Cache, steady: int, bound: int): Cache {
    if !(c.hasSample && c.lastReadOk && !c.warned) then c
    else if steady - c.sampledAtSteady > bound then
      var lag := c.lag + 1;
      if lag >= CADENCE_LAG_STREAK then c.(lag := lag, warned := true, warnings := c.warnings + 1)
      else c.(lag := lag)
    else c.(lag := 0)
  }

  /** `refresh_device_sample`, once its job has returned `status` with `signals`. */
  function Refreshed(r: Record, status: Status, signals: seq<Slot>, now: int, steady: int, bound: int): Record {
    if status.IsOk() then
      var c := Monitored(r.cache, steady, bound);
      var loaded := CompApplied(LevelApplied(r.(cache := c.(signals := signals))));
      loaded.(cache := loaded.cache.(sampledAt := now, sampledAtSteady := steady, hasSample := true,
                                     lastReadOk := true, successCount := loaded.cache.successCount + 1))
    else
      r.(cache := r.cache.(lastReadOk := false, failureCount := r.cache.failureCount + 1, lag := 0))
  }

  predicate CheckDue(r: Record) { r.cache.lastReadOk && r.cache.successCount % CHECK_EVERY == 0 }

  /** `refresh_calibration_level`, once its job has returned. */
  function LevelStored(r: Record, status: Status, level: real, asOf: nat): Record {
    LevelApplied(if status.IsOk() then r.(level := Some(level), levelAsOf := asOf, levelError := "")
                 else r.(level := None, levelError := "calibration level unknown: " + status.message))
  }

  /** `check_compensation`, once its job has returned. */
  function CheckStored(r: Record, status: Status, reading: Reading, reapplied: bool): Record {
    var stored := if status.IsOk() then r.(read := reading, compError := "")
                  else r.(read := NO_READING, compError := "compensation unknown: " + status.message);
    CompApplied(stored.(reapplied := stored.reapplied + if reapplied then 1 else 0))
  }

  function Prefer(a: Option<real>, b: Option<real>): Option<real> { if a.Some? then a else b }

  /** Field by field, the first value that is there. */
  function Over(first: Comp, second: Comp): Comp {
    Comp(Prefer(first.t, second.t), Prefer(first.s, second.s), Prefer(first.p, second.p))
  }

  /** `remember_compensation`. */
  function Remembering(r: Record, values: Comp): Record { r.(remembered := Over(values, r.remembered)) }

  /** `record_call_result`. */
  function CallRecorded(r: Record, ok: bool): Record {
    if ok then r.(callSuccess := r.callSuccess + 1) else r.(callFailure := r.callFailure + 1)
  }

  datatype Update =
    | Refresh(status: Status, signals: seq<Slot>, now: int, steady: int)
    | ReadLevel(status: Status, level: real, asOf: nat)
    | StoreCheck(status: Status, reading: Reading, reapplied: bool)
    | Remember(values: Comp)
    | RecordCall(ok: bool)

  function Apply(r: Record, u: Update, bound: int): Record {
    match u
    case Refresh(status, signals, now, steady) => Refreshed(r, status, signals, now, steady, bound)
    case ReadLevel(status, level, asOf) => LevelStored(r, status, level, asOf)
    case StoreCheck(status, reading, reapplied) => CheckStored(r, status, reading, reapplied)
    case Remember(values) => Remembering(r, values)
    case RecordCall(ok) => CallRecorded(r, ok)
  }

  function After(r: Record, us: seq<Update>, bound: int): Record {
    if us == [] then r else Apply(After(r, us[..|us| - 1], bound), us[|us| - 1], bound)
  }

  // ---- The record as an object whose methods rewrite it in place ---------------------

  class ActiveDevice {
    const family: Family
    var cache: Cache
    var level: Option<real>
    var levelAsOf: nat
    var levelError: string
    var remembered: Comp
    var read: Reading
    var compError: string
    var reapplied: nat
    var callSuccess: nat
    var callFailure: nat

    ghost function View(): Record
      reads this
    {
      Record(family, cache, level, levelAsOf, levelError, remembered, read, compError, reapplied, callSuccess,
             callFailure)
    }

    constructor (f: Family)
      ensures View() == Fresh(f)
    {
      var start := Fresh(f);
      family, cache, level, levelAsOf, levelError := f, start.cache, None, 0, "";
      remembered, read, compError, reapplied, callSuccess, callFailure := NOTHING, NO_READING, "", 0, 0, 0;
    }

    method PutValue(index: Option<nat>, slot: Slot)
      modifies `cache
      ensures cache == old(cache).(signals := PutSlot(old(cache).signals, index, slot))
    {
      if index.Some? && index.value < |cache.signals| {
        cache := cache.(signals := cache.signals[index.value := slot]);
      }
    }

    method ApplyLevel()
      modifies `cache
      ensures View() == LevelApplied(old(View()))
    {
      var index := LevelSignal(family);
      if index.None? || index.value >= |cache.signals| {
        return;
      }
      var slot := cache.signals[index.value];
      if level.Some? {
        slot := slot.(available := true, hasValue := true, value := level.value, reason := "");
      } else {
        slot := slot.(available := false, hasValue := false,
                      reason := if levelError == "" then "calibration level not read yet" else levelError);
      }
      PutValue(index, slot);
    }

    method ApplyCompensation()
      modifies `cache
      ensures View() == CompApplied(old(View()))
    {
      var unknown := if compError == "" then "compensation not read yet" else compError;
      PutValue(TemperatureSignal(family), CompSlot(read.values.t, unknown));
      PutValue(SalinitySignal(family), CompSlot(read.values.s, if read.inPpt then IN_PPT else unknown));
      PutValue(PressureSignal(family), CompSlot(read.values.p, unknown));
    }

    /** Count over-bound gaps between consecutive successes; warn at three running, once. */
    method WatchCadence(steady: int, bound: int)
      modifies `cache
      ensures cache == Monitored(old(cache), steady, bound)
    {
      if cache.hasSample && cache.lastReadOk && !cache.warned {
        var gap := steady - cache.sampledAtSteady;
        if gap > bound {
          cache := cache.(lag := cache.lag + 1);
          if cache.lag >= CADENCE_LAG_STREAK {
            cache := cache.(warned := true, warnings := cache.warnings + 1);
          }
        } else {
          cache := cache.(lag := 0);
        }
      }
    }

    method RefreshSample(status: Status, signals: seq<Slot>, now: int, steady: int, bound: int) returns (due: bool)
      modifies `cache
      ensures View() == Refreshed(old(View()), status, signals, now, steady, bound)
      ensures due <==> CheckDue(View())
    {
      due := false;
      if status.IsOk() {
        WatchCadence(steady, bound);
        cache := cache.(signals := signals);
        ApplyLevel();
        ApplyCompensation();
        cache := cache.(sampledAt := now, sampledAtSteady := steady, hasSample := true, lastReadOk := true);
        cache := cache.(successCount := cache.successCount + 1);
        due := cache.successCount % CHECK_EVERY == 0;
      } else {
        cache := cache.(lastReadOk := false, failureCount := cache.failureCount + 1, lag := 0);
      }
    }

    method StoreLevel(status: Status, value: real, asOf: nat)
      modifies `cache, `level, `levelAsOf, `levelError
      ensures View() == LevelStored(old(View()), status, value, asOf)
    {
      if status.IsOk() {
        level, levelAsOf, levelError := Some(value), asOf, "";
      } else {
        level, levelError := None, "calibration level unknown: " + status.message;
      }
      ApplyLevel();
    }

    method StoreCheckResult(status: Status, reading: Reading, again: bool)
      modifies `cache, `read, `compError, `reapplied
      ensures View() == CheckStored(old(View()), status, reading, again)
    {
      if status.IsOk() {
        read, compError := reading, "";
      } else {
        read, compError := NO_READING, "compensation unknown: " + status.message;
      }
      if again {
        reapplied := reapplied + 1;
      }
      ApplyCompensation();
    }

    method RememberValues(values: Comp)
      modifies `remembered
      ensures View() == Remembering(old(View()), values)
    {
      if values.t.Some? {
        remembered := remembered.(t := values.t);
      }
      if values.s.Some? {
        remembered := remembered.(s := values.s);
      }
      if values.p.Some? {
        remembered := remembered.(p := values.p);
      }
    }

    method RecordCallResult(ok: bool)
      modifies `callSuccess, `callFailure
      ensures View() == CallRecorded(old(View()), ok)
    {
      if ok {
        callSuccess := callSuccess + 1;
      } else {
        callFailure := callFailure + 1;
      }
    }
  }
}
