/** The provider serving one device: requests arrive one at a time, but a job whose caller
    timed out stays in the executor's line and may still be carried out later, before any
    job submitted after it (src/core/ezo_provider_runtime.cpp:684-818,
    src/core/runtime_state.cpp:642-911).

    What the executor does to the line between two moments is a sequence of ServiceLine
    moves, and a submission ends in one of the ways below, which is proved of the executor in
    ExecutorProvider.SubmissionIsService. */
module Provider {
  import opened Statuses
  import opened ServiceLine
  import opened Compensation
  import opened Probe
  import opened Signals
  import opened Jobs
  import opened DeviceState
  import opened ArgValidation

  datatype World = World(record: Record, probe: Device, line: Line<Job, Env>)

  // ---- The executor's line ------------------------------------------------------------

  function Moved(w: World, m: Move<Job, Env>): World
    requires Possible(w.line, m)
  {
    w.(line := Advance(w.line, m),
       probe := if m.Serve? then RunJob(w.line.waiting[0], w.probe, m.record).device else w.probe)
  }

  /** How many of n jobs in the line are left after one move, nobody joining. */
  function Remaining(n: nat, m: Move<Job, Env>): Option<nat> {
    match m
    case Join(_) => None
    case Serve(_) => if n > 0 then Some(n - 1) else None
    case PassOver => if n > 0 then Some(n - 1) else None
    case Dismiss(keep) => if keep <= n then Some(keep) else None
    case Stay => Some(n)
  }

  /** Moves the executor can make one after another on a line of n jobs, nobody joining. */
  predicate Workable(n: nat, ms: seq<Move<Job, Env>>) {
    ms == [] || (Remaining(n, ms[0]).Some? && Workable(Remaining(n, ms[0]).value, ms[1..]))
  }

  function Left(n: nat, ms: seq<Move<Job, Env>>): nat
    requires Workable(n, ms)
  {
    if ms == [] then n else Left(Remaining(n, ms[0]).value, ms[1..])
  }

  function Drained(w: World, ms: seq<Move<Job, Env>>): (r: World)
    requires Workable(|w.line.waiting|, ms)
    ensures |r.line.waiting| == Left(|w.line.waiting|, ms)
    decreases |ms|
  {
    if ms == [] then w else Drained(Moved(w, ms[0]), ms[1..])
  }

  // ---- submit_i2c_job, as its caller sees it ------------------------------------------

  /** How a submission ends: refused; cancelled by a stop, leaving the line as if the job had
      never joined it; timed out, after moves that may or may not have come to its own job;
      or done, everything before it having left the line first. */
  datatype Service =
    | Refused
    | Stopped(moves: seq<Move<Job, Env>>)
    | Late(moves: seq<Move<Job, Env>>)
    | Done(moves: seq<Move<Job, Env>>, env: Env)

  predicate Serviceable(w: World, s: Service) {
    var n := |w.line.waiting|;
    match s
    case Refused => true
    case Stopped(moves) => Workable(n, moves)
    case Late(moves) => Workable(n + 1, moves)
    case Done(moves, _) => Workable(n, moves) && Left(n, moves) == 0
  }

  datatype Reply = Reply(world: World, status: Status, outcome: Outcome)

  function Joined(w: World, job: Job): World { Moved(w, Join(job)) }

  /** What becomes of the last of n jobs in the line: it still waits, was carried out, or left
      without being carried out. */
  datatype Fate = Waits | CarriedOut | Gone

  function FateOfLast(n: nat, ms: seq<Move<Job, Env>>): Fate
    requires n > 0 && Workable(n, ms)
    decreases |ms|
  {
    if ms == [] then Waits
    else if ms[0].Serve? && n == 1 then CarriedOut
    else if Remaining(n, ms[0]).value == 0 || (ms[0].Dismiss? && ms[0].keep < n) then Gone
    else FateOfLast(Remaining(n, ms[0]).value, ms[1..])
  }

  /** What the last job in the line reported, if the moves carried it out. */
  function LastOutcome(w: World, ms: seq<Move<Job, Env>>): Option<Outcome>
    requires w.line.waiting != [] && Workable(|w.line.waiting|, ms)
    decreases |ms|
  {
    if FateOfLast(|w.line.waiting|, ms) != CarriedOut then None
    else if |w.line.waiting| == 1 && ms[0].Serve? then Some(RunJob(w.line.waiting[0], w.probe, ms[0].record))
    else LastOutcome(Moved(w, ms[0]), ms[1..])
  }

  /** The outcome object of a timed-out job shows what the job wrote, if it got that far. */
  function LateOutcome(w: World, job: Job, moves: seq<Move<Job, Env>>): Outcome
    requires Serviceable(w, Late(moves))
  {
    var own := LastOutcome(Joined(w, job), moves);
    if own.Some? then own.value else Plainly(w.probe, TIMED_OUT)
  }

  function Submit(w: World, job: Job, s: Service): Reply
    requires Serviceable(w, s)
  {
    match s
    case Refused => Reply(w, NOT_RUNNING, Plainly(w.probe, NOT_RUNNING))
    case Stopped(moves) => Reply(Drained(w, moves), STOPPED, Plainly(w.probe, STOPPED))
    case Late(moves) => Reply(Drained(Joined(w, job), moves), TIMED_OUT, LateOutcome(w, job, moves))
    case Done(moves, env) =>
      var before := Drained(w, moves);
      var outcome := RunJob(job, before.probe, env);
      Reply(Moved(Joined(before, job), Serve(env)), outcome.status, outcome)
  }

  // ---- The requests ---------------------------------------------------------------------

  function Updated(w: World, u: Update, bound: int): World { w.(record := Apply(w.record, u, bound)) }

  /** `check_compensation`. */
  predicate CheckServiceable(w: World, s: Service) { Compensates(w.record.family) ==> Serviceable(w, s) }

  function CheckReply(w: World, s: Service): Reply
    requires Serviceable(w, s)
  {
    Submit(w, Check(w.record.remembered), s)
  }

  function Checked(w: World, s: Service, bound: int): World
    requires CheckServiceable(w, s)
  {
    if !Compensates(w.record.family) then w
    else
      var reply := CheckReply(w, s);
      Updated(reply.world, StoreCheck(reply.status, reply.outcome.reading, reply.outcome.reapplied), bound)
  }

  /** `refresh_calibration_level`. */
  predicate LevelServiceable(w: World, s: Service) { Calibrates(w.record.family) ==> Serviceable(w, s) }

  function LevelChecked(w: World, s: Service, bound: int): World
    requires LevelServiceable(w, s)
  {
    if !Calibrates(w.record.family) then w
    else
      var reply := Submit(w, Level, s);
      Updated(reply.world, ReadLevel(reply.status, reply.outcome.level, reply.outcome.levelAsOf), bound)
  }

  /** `refresh_device_sample` up to the compensation check it may owe. */
  function Polled(w: World, s: Service, now: int, steady: int, bound: int): World
    requires Serviceable(w, s)
  {
    var reply := Submit(w, Sample, s);
    Updated(reply.world, Refresh(reply.status, reply.outcome.signals, now, steady), bound)
  }

  /** The job of an accepted call. A DO calibration restores what was set, or else read. */
  function JobFor(f: Function, r: Record, a: ControlArgs): Job {
    match f
    case FindFn => Plain(Find)
    case SetLedFn => Plain(Led(a.ledOn))
    case SleepFn => GoToSleep
    case CalibrateFn =>
      Calibrate(a.point, a.reference, if r.family.Do? then Over(r.remembered, r.read.values) else NOTHING)
    case ClearCalibrationFn => Clear
    case SetCompensationFn => SetValues(a.values)
  }

  predicate TouchesCompensation(f: Function, family: Family) {
    f.SetCompensationFn? || (f.CalibrateFn? && family.Do?)
  }

  predicate TouchesLevel(f: Function) { f.CalibrateFn? || f.ClearCalibrationFn? }

  /** The accepted call up to its own job and, when it succeeded, what it is to remember. */
  function CallRan(w: World, f: Function, a: ControlArgs, main: Service, bound: int): World
    requires Serviceable(w, main)
  {
    var reply := Submit(w, JobFor(f, w.record, a), main);
    if reply.status.IsOk() && f.SetCompensationFn? then Updated(reply.world, Remember(a.values), bound)
    else reply.world
  }

  function CallOk(w: World, f: Function, a: ControlArgs, main: Service): bool
    requires Serviceable(w, main)
  {
    Submit(w, JobFor(f, w.record, a), main).status.IsOk()
  }

  /** ... up to the compensation read-back, made whether or not the call succeeded. */
  predicate ReadBackServiceable(w: World, f: Function, check: Service) {
    TouchesCompensation(f, w.record.family) ==> CheckServiceable(w, check)
  }

  function CallReadBack(w: World, f: Function, check: Service, bound: int): World
    requires ReadBackServiceable(w, f, check)
  {
    if TouchesCompensation(f, w.record.family) then Checked(w, check, bound) else w
  }

  /** ... up to the count of the call. */
  function Counted(w: World, ok: bool, bound: int): (r: World)
    ensures r.line == w.line && r.probe == w.probe && r.record.family == w.record.family
  {
    Updated(w, RecordCall(ok), bound)
  }

  /** ... and the level re-read after a successful calibration or clear. */
  function CallEnd(w: World, f: Function, ok: bool, level: Service, bound: int): World
    requires ok && TouchesLevel(f) ==> LevelServiceable(w, level)
  {
    var recorded := Counted(w, ok, bound);
    if ok && TouchesLevel(f) then LevelChecked(recorded, level, bound) else recorded
  }

  datatype Act =
    | Poll(sample: Service, check: Service, now: int, steady: int)
    | Call(f: Function, args: Args, order: seq<string>, main: Service, check: Service, level: Service)
    | CheckNow(check: Service)
    | LevelNow(level: Service)
    | Background(moves: seq<Move<Job, Env>>)
    | PowerCut

  predicate CallServiceable(w: World, f: Function, a: ControlArgs, main: Service, check: Service, level: Service,
                            bound: int)
  {
    && Serviceable(w, main)
    && ReadBackServiceable(CallRan(w, f, a, main, bound), f, check)
    && (CallOk(w, f, a, main) && TouchesLevel(f) ==>
          LevelServiceable(CallReadBack(CallRan(w, f, a, main, bound), f, check, bound), level))
  }

  predicate Actable(w: World, act: Act, bound: int) {
    match act
    case Poll(sample, check, now, steady) =>
      Serviceable(w, sample) && CheckServiceable(Polled(w, sample, now, steady, bound), check)
    case Call(f, args, order, main, check, level) =>
      Enumerates(order, args) &&
      (Declared(f, w.record.family) && Validate(f, w.record.family, args, order).Accepted? ==>
         CallServiceable(w, f, Validate(f, w.record.family, args, order).filled, main, check, level, bound))
    case CheckNow(check) => CheckServiceable(w, check)
    case LevelNow(level) => LevelServiceable(w, level)
    case Background(moves) => Workable(|w.line.waiting|, moves)
    case PowerCut => true
  }

  function Acted(w: World, act: Act, bound: int): World
    requires Actable(w, act, bound)
  {
    match act
    case Poll(sample, check, now, steady) =>
      var polled := Polled(w, sample, now, steady, bound);
      if CheckDue(polled.record) then Checked(polled, check, bound) else polled
    case Call(f, args, order, main, check, level) =>
      if !Declared(f, w.record.family) then w
      else
        var verdict := Validate(f, w.record.family, args, order);
        if verdict.Rejected? then Counted(w, false, bound)
        else
          var a := verdict.filled;
          var ran := CallRan(w, f, a, main, bound);
          CallEnd(CallReadBack(ran, f, check, bound), f, CallOk(w, f, a, main), level, bound)
    case CheckNow(check) => Checked(w, check, bound)
    case LevelNow(level) => LevelChecked(w, level, bound)
    case Background(moves) => Drained(w, moves)
    case PowerCut => w.(probe := Cut(w.probe))
  }

  /** A run of the provider: acts one after another, each possible when it is taken. */
  predicate CanAct(w: World, acts: seq<Act>, bound: int)
    decreases |acts|
  {
    acts == [] || (Actable(w, acts[0], bound) && CanAct(Acted(w, acts[0], bound), acts[1..], bound))
  }

  function AfterActs(w: World, acts: seq<Act>, bound: int): World
    requires CanAct(w, acts, bound)
    decreases |acts|
  {
    if acts == [] then w else AfterActs(Acted(w, acts[0], bound), acts[1..], bound)
  }

  /** At startup nothing is known and nothing remembered; the probe may hold anything. */
  predicate Startup(w: World) {
    && w.record == Fresh(w.probe.family)
    && w.line == Line([], [])
    && w.probe.calibratedAt == []
  }
}
