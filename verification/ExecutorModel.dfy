/** src/i2c/bus_executor.cpp as a protocol: many submitters, one worker thread and
    one stopper interleave at the points where they take the mutex, touch a task's
    `timed_out` flag or touch its promise. Each such point is one event.

    A job is any program that performs a finite number of bus operations, one at a
    time, and then returns a status; operations of type `Op` are left abstract. */
module ExecutorModel {
  import opened Statuses

  /** What fulfilled a promise. The three cases carry the three statuses the source
      can store; keeping them apart lets a job return any status of its own. */
  datatype Fulfilment = ByJob(status: Status) | ByStop | BySkip

  function StoredStatus(f: Fulfilment): Status {
    match f
    case ByJob(status) => status
    case ByStop => STOPPED
    case BySkip => SKIPPED
  }

  datatype Return = Collected(fulfilment: Fulfilment) | DeadlinePassed

  /** The status `submit` hands back to its caller. */
  function ReturnedStatus(r: Return): Status {
    match r
    case Collected(f) => StoredStatus(f)
    case DeadlinePassed => TIMED_OUT
  }

  /** Where the caller of `submit` is, once its task is in the queue: waiting on the
      future; past `wait_for` without a value; past storing the flag; returned. */
  datatype Caller = Waiting | Expired | Flagged | Returned(how: Return)

  /** Which counter of the metrics a task is (or will be) in. */
  datatype Account = Queued | InFlight | Succeeded | Failed | Late | Dropped

  /** `runs` and `result` are history: how often the job was invoked and what it
      returned. `bounded` is `timeout.count() > 0`. */
  datatype Task = Task(
    bounded: bool,
    flagged: bool,
    promise: Option<Fulfilment>,
    caller: Caller,
    runs: nat,
    result: Option<Status>,
    account: Account)

  datatype Metrics = Metrics(
    submitted: nat,
    started: nat,
    succeeded: nat,
    failed: nat,
    timedOut: nat,
    cancelled: nat,
    queueDepth: nat,
    lastError: string)

  /** The worker's program counter. `left` bounds the operations the running job
      still performs; `ops` are the ones it has performed. */
  datatype Worker<Op> =
    | Absent
    | Idle
    | Popped(task: nat)
    | Skipping(task: nat)
    | SkipCounting(task: nat)
    | Running(task: nat, left: nat, ops: seq<Op>)
    | Finished(task: nat, status: Status)
    | Accounting(task: nat, status: Status)
    | Publishing(task: nat, status: Status)
    | Exited

  datatype Stopper = NoStop | Joining | Closing | Finishing

  /** One bus operation, the task that performed it and whether the bus was open. */
  datatype Entry<Op> = Entry(task: nat, op: Op, open: bool)

  /** One job that ran to its end. */
  datatype Block<Op> = Block(task: nat, ops: seq<Op>, status: Status)

  /** Tasks are numbered in the order the mutex admitted them. `log` is every bus
      operation ever performed. `done`, `doubleSets` and `finishedSinceStop` are
      history: the finished jobs, how often a promise was set twice (the catch in
      `safe_set_promise`), and the jobs that returned while `stopping_` was set. */
  datatype State<Op> = State(
    ctl: Control,
    queue: seq<nat>,
    tasks: seq<Task>,
    metrics: Metrics,
    worker: Worker<Op>,
    past: Past<Op>)

  datatype Control = Control(hasBus: bool, busOpen: bool, running: bool, stopping: bool, stopper: Stopper)

  datatype Past<Op> = Past(
    log: seq<Entry<Op>>,
    done: seq<Block<Op>>,
    doubleSets: nat,
    finishedSinceStop: nat)

  datatype Event<Op> =
    | Start(opens: bool, error: string)
    | Submit(bounded: bool)
    | Expire(t: nat)
    | SetFlag(t: nat)
    | CountTimeout(t: nat)
    | Collect(t: nat)
    | Take
    | SeeFlag
    | SkipFulfil
    | SkipCount
    | Begin(atMost: nat)
    | Emit(op: Op)
    | JobReturns(status: Status)
    | CheckFlag
    | AccountJob
    | Publish
    | WorkerExit
    | StopBegin
    | StopJoin
    | StopClose
    | StopFinish

  const NO_METRICS := Metrics(0, 0, 0, 0, 0, 0, 0, "")

  function Initial<Op>(hasBus: bool): State<Op> {
    State(Control(hasBus, false, false, false, NoStop), [], [], NO_METRICS, Absent, Past([], [], 0, 0))
  }

  /** The worker has a task in hand; its events concern that task. */
  predicate WorkerHolds<Op>(w: Worker<Op>) {
    !w.Absent? && !w.Idle? && !w.Exited?
  }

  predicate Enabled<Op>(s: State<Op>, e: Event<Op>) {
    match e
    case Start(_, _) => true
    case Submit(_) => true
    case Expire(t) =>
      t < |s.tasks| && s.tasks[t].caller == Waiting && s.tasks[t].bounded && s.tasks[t].promise == None
    case SetFlag(t) => t < |s.tasks| && s.tasks[t].caller == Expired
    case CountTimeout(t) => t < |s.tasks| && s.tasks[t].caller == Flagged
    case Collect(t) => t < |s.tasks| && s.tasks[t].caller == Waiting && s.tasks[t].promise.Some?
    case Take => s.worker.Idle? && s.queue != [] && s.queue[0] < |s.tasks|
    case SeeFlag => s.worker.Popped? && s.worker.task < |s.tasks| && s.tasks[s.worker.task].flagged
    case SkipFulfil => s.worker.Skipping? && s.worker.task < |s.tasks|
    case SkipCount => s.worker.SkipCounting? && s.worker.task < |s.tasks|
    case Begin(_) => s.worker.Popped? && s.worker.task < |s.tasks| && !s.tasks[s.worker.task].flagged
    case Emit(_) => s.worker.Running? && s.worker.left > 0
    case JobReturns(_) => s.worker.Running? && s.worker.task < |s.tasks|
    case CheckFlag => s.worker.Finished? && s.worker.task < |s.tasks|
    case AccountJob => s.worker.Accounting? && s.worker.task < |s.tasks|
    case Publish => s.worker.Publishing? && s.worker.task < |s.tasks|
    case WorkerExit => s.worker.Idle? && s.ctl.stopping && s.queue == []
    case StopBegin => s.ctl.stopper.NoStop? && PendingKnown(s)
    case StopJoin => s.ctl.stopper.Joining? && s.worker.Exited?
    case StopClose => s.ctl.stopper.Closing?
    case StopFinish => s.ctl.stopper.Finishing?
  }

  predicate PendingKnown<Op>(s: State<Op>) {
    forall i :: 0 <= i < |s.queue| ==> s.queue[i] < |s.tasks|
  }

  /** `safe_set_promise`: a second value is refused by the promise and swallowed. */
  function SetPromise<Op>(s: State<Op>, t: nat, f: Fulfilment): State<Op>
    requires t < |s.tasks|
  {
    if s.tasks[t].promise == None then
      s.(tasks := s.tasks[t := s.tasks[t].(promise := Some(f))])
    else
      s.(past := s.past.(doubleSets := s.past.doubleSets + 1))
  }

  /** The cancel loop of `stop`, over the swapped-out queue. */
  function CancelAll<Op>(s: State<Op>, pending: seq<nat>): State<Op>
    requires forall i :: 0 <= i < |pending| ==> pending[i] < |s.tasks|
    decreases |pending|
  {
    if pending == [] then s
    else CancelAll(CancelOne(s, pending[0]), pending[1..])
  }

  function CancelOne<Op>(s: State<Op>, t: nat): (r: State<Op>)
    requires t < |s.tasks|
    ensures |r.tasks| == |s.tasks|
  {
    var fulfilled := SetPromise(s, t, ByStop);
    fulfilled.(tasks := fulfilled.tasks[t := fulfilled.tasks[t].(account := Dropped)],
               metrics := fulfilled.metrics.(cancelled := fulfilled.metrics.cancelled + 1))
  }

  /** `stop` up to the cancel loop: the flag is set and the queue swapped out. */
  function StopFlagged<Op>(s: State<Op>): State<Op> {
    s.(ctl := s.ctl.(stopping := true, stopper := Joining), queue := [],
       metrics := s.metrics.(queueDepth := 0), past := s.past.(finishedSinceStop := 0))
  }

  function StopBegun<Op>(s: State<Op>): State<Op>
    requires PendingKnown(s)
  {
    if !s.ctl.running then
      s.(ctl := s.ctl.(busOpen := false))
    else
      CancelAll(StopFlagged(s), s.queue)
  }

  function Started<Op>(s: State<Op>, opens: bool, error: string): State<Op> {
    if s.ctl.running || !s.ctl.hasBus then s
    else if !opens then s.(metrics := s.metrics.(lastError := error))
    else s.(ctl := s.ctl.(stopping := false, running := true, busOpen := true), worker := Idle)
  }

  function Submitted<Op>(s: State<Op>, bounded: bool): State<Op> {
    if !s.ctl.running || s.ctl.stopping then s
    else
      s.(tasks := s.tasks + [Task(bounded, false, None, Waiting, 0, None, Queued)],
         queue := s.queue + [|s.tasks|],
         metrics := s.metrics.(submitted := s.metrics.submitted + 1, queueDepth := |s.queue| + 1))
  }

  // ---- The caller, after its task is queued ----------------------------------

  function WithTask<Op>(s: State<Op>, t: nat, task: Task): State<Op>
    requires t < |s.tasks|
  {
    s.(tasks := s.tasks[t := task])
  }

  /** `wait_for` gave up with the promise still empty. */
  function CallerExpired<Op>(s: State<Op>, t: nat): State<Op>
    requires t < |s.tasks|
  {
    WithTask(s, t, s.tasks[t].(caller := Expired))
  }

  function CallerFlagged<Op>(s: State<Op>, t: nat): State<Op>
    requires t < |s.tasks|
  {
    WithTask(s, t, s.tasks[t].(flagged := true, caller := Flagged))
  }

  function CallerTimedOut<Op>(s: State<Op>, t: nat): State<Op>
    requires t < |s.tasks|
  {
    WithTask(s, t, s.tasks[t].(caller := Returned(DeadlinePassed)))
      .(metrics := s.metrics.(timedOut := s.metrics.timedOut + 1, lastError := TIMED_OUT.message))
  }

  function CallerCollected<Op>(s: State<Op>, t: nat): State<Op>
    requires t < |s.tasks| && s.tasks[t].promise.Some?
  {
    WithTask(s, t, s.tasks[t].(caller := Returned(Collected(s.tasks[t].promise.value))))
  }

  // ---- The worker ------------------------------------------------------------

  function WorkerTook<Op>(s: State<Op>): State<Op>
    requires s.queue != [] && s.queue[0] < |s.tasks|
  {
    WithTask(s, s.queue[0], s.tasks[s.queue[0]].(account := InFlight))
      .(queue := s.queue[1..], worker := Popped(s.queue[0]),
        metrics := s.metrics.(queueDepth := |s.queue| - 1, started := s.metrics.started + 1))
  }

  function WorkerBegan<Op>(s: State<Op>, atMost: nat): State<Op>
    requires s.worker.Popped? && s.worker.task < |s.tasks|
  {
    var t := s.worker.task;
    WithTask(s, t, s.tasks[t].(runs := s.tasks[t].runs + 1)).(worker := Running(t, atMost, []))
  }

  function WorkerSkipped<Op>(s: State<Op>): State<Op>
    requires s.worker.Skipping? && s.worker.task < |s.tasks|
  {
    SetPromise(s, s.worker.task, BySkip).(worker := SkipCounting(s.worker.task))
  }

  function SkipCounted<Op>(s: State<Op>): State<Op>
    requires s.worker.SkipCounting? && s.worker.task < |s.tasks|
  {
    WithTask(s, s.worker.task, s.tasks[s.worker.task].(account := Dropped))
      .(worker := Idle, metrics := s.metrics.(cancelled := s.metrics.cancelled + 1))
  }

  function JobEmitted<Op>(s: State<Op>, op: Op): State<Op>
    requires s.worker.Running? && s.worker.left > 0
  {
    s.(worker := Running(s.worker.task, s.worker.left - 1, s.worker.ops + [op]),
       past := s.past.(log := s.past.log + [Entry(s.worker.task, op, s.ctl.busOpen)]))
  }

  function JobReturned<Op>(s: State<Op>, status: Status): State<Op>
    requires s.worker.Running? && s.worker.task < |s.tasks|
  {
    var t := s.worker.task;
    WithTask(s, t, s.tasks[t].(result := Some(status)))
      .(worker := Finished(t, status),
        past := s.past.(done := s.past.done + [Block(t, s.worker.ops, status)],
                        finishedSinceStop := s.past.finishedSinceStop + if s.ctl.stopping then 1 else 0))
  }

  function FlagChecked<Op>(s: State<Op>): State<Op>
    requires s.worker.Finished? && s.worker.task < |s.tasks|
  {
    var t := s.worker.task;
    if s.tasks[t].flagged then
      WithTask(s, t, s.tasks[t].(account := Late)).(worker := Publishing(t, s.worker.status))
    else
      s.(worker := Accounting(t, s.worker.status))
  }

  function JobAccounted<Op>(s: State<Op>): State<Op>
    requires s.worker.Accounting? && s.worker.task < |s.tasks|
  {
    var t := s.worker.task;
    var status := s.worker.status;
    WithTask(s, t, s.tasks[t].(account := if status.IsOk() then Succeeded else Failed))
      .(worker := Publishing(t, status),
        metrics := if status.IsOk() then s.metrics.(succeeded := s.metrics.succeeded + 1)
                   else s.metrics.(failed := s.metrics.failed + 1, lastError := status.message))
  }

  function JobPublished<Op>(s: State<Op>): State<Op>
    requires s.worker.Publishing? && s.worker.task < |s.tasks|
  {
    SetPromise(s, s.worker.task, ByJob(s.worker.status)).(worker := Idle)
  }

  function Next<Op>(s: State<Op>, e: Event<Op>): State<Op>
    requires Enabled(s, e)
  {
    match e
    case Start(opens, error) => Started(s, opens, error)
    case Submit(bounded) => Submitted(s, bounded)
    case Expire(t) => CallerExpired(s, t)
    case SetFlag(t) => CallerFlagged(s, t)
    case CountTimeout(t) => CallerTimedOut(s, t)
    case Collect(t) => CallerCollected(s, t)
    case Take => WorkerTook(s)
    case SeeFlag => s.(worker := Skipping(s.worker.task))
    case SkipFulfil => WorkerSkipped(s)
    case SkipCount => SkipCounted(s)
    case Begin(atMost) => WorkerBegan(s, atMost)
    case Emit(op) => JobEmitted(s, op)
    case JobReturns(status) => JobReturned(s, status)
    case CheckFlag => FlagChecked(s)
    case AccountJob => JobAccounted(s)
    case Publish => JobPublished(s)
    case WorkerExit => s.(worker := Exited)
    case StopBegin => StopBegun(s)
    case StopJoin => s.(worker := Absent, ctl := s.ctl.(stopper := Closing))
    case StopClose => s.(ctl := s.ctl.(busOpen := false, stopper := Finishing))
    case StopFinish => s.(ctl := s.ctl.(running := false, stopping := false, stopper := NoStop))
  }

  /** A schedule: events taken one after another, each enabled when it is taken. */
  predicate CanRun<Op>(s: State<Op>, es: seq<Event<Op>>)
    decreases |es|
  {
    es == [] || (Enabled(s, es[0]) && CanRun(Next(s, es[0]), es[1..]))
  }

  function Run<Op>(s: State<Op>, es: seq<Event<Op>>): State<Op>
    requires CanRun(s, es)
    decreases |es|
  {
    if es == [] then s else Run(Next(s, es[0]), es[1..])
  }
}
