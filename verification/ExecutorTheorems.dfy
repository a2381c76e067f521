/** What src/i2c/bus_executor.cpp promises, over every schedule of submitters,
    worker and stopper, across any number of start/stop sessions. */
module ExecutorTheorems {
  import opened Statuses
  import opened ServiceLine
  import opened ExecutorModel
  import opened ExecutorCore
  import opened ExecutorMetrics
  import opened ExecutorLog

  ghost predicate Inv<Op>(s: State<Op>) { Core(s) && MetricsExact(s) && LogWhole(s) }

  lemma {:induction false} RunKeepsInv<Op>(s: State<Op>, es: seq<Event<Op>>)
    requires Inv(s) && CanRun(s, es)
    ensures Inv(Run(s, es))
    decreases |es|
  {
    if es != [] {
      StepKeepsCore(s, es[0]);
      StepKeepsMetrics(s, es[0]);
      StepKeepsLog(s, es[0]);
      RunKeepsInv(Next(s, es[0]), es[1..]);
    }
  }

  /** A state some schedule reaches from construction. */
  ghost predicate Reachable<Op(!new)>(s: State<Op>) {
    exists hasBus, es :: CanRun(Initial<Op>(hasBus), es) && Run(Initial<Op>(hasBus), es) == s
  }

  lemma ReachableInv<Op(!new)>(s: State<Op>)
    requires Reachable(s)
    ensures Inv(s)
  {
    var hasBus, es :| CanRun(Initial<Op>(hasBus), es) && Run(Initial<Op>(hasBus), es) == s;
    InitialCore(Initial<Op>(hasBus));
    InitialMetrics(Initial<Op>(hasBus));
    InitialLog(Initial<Op>(hasBus));
    RunKeepsInv(Initial<Op>(hasBus), es);
  }

  /** Some schedule leads from one state to the other. */
  ghost predicate Leads<Op(!new)>(s: State<Op>, r: State<Op>) {
    exists es :: CanRun(s, es) && Run(s, es) == r
  }

  lemma LeadsNowhere<Op(!new)>(s: State<Op>)
    ensures Leads(s, s)
  {
    assert CanRun(s, []) && Run(s, []) == s;
  }

  lemma {:induction false} RunOn<Op>(s: State<Op>, es: seq<Event<Op>>, more: seq<Event<Op>>)
    requires CanRun(s, es) && CanRun(Run(s, es), more)
    ensures CanRun(s, es + more) && Run(s, es + more) == Run(Run(s, es), more)
    decreases |es|
  {
    if es == [] {
      assert es + more == more;
    } else {
      assert (es + more)[1..] == es[1..] + more;
      RunOn(Next(s, es[0]), es[1..], more);
    }
  }

  lemma LeadsThrough<Op(!new)>(s: State<Op>, m: State<Op>, r: State<Op>)
    requires Leads(s, m) && Leads(m, r)
    ensures Leads(s, r)
  {
    var es :| CanRun(s, es) && Run(s, es) == m;
    var more :| CanRun(m, more) && Run(m, more) == r;
    RunOn(s, es, more);
  }

  lemma LeadsOn<Op(!new)>(s: State<Op>, r: State<Op>, e: Event<Op>)
    requires Leads(s, r) && Enabled(r, e)
    ensures Leads(s, Next(r, e))
  {
    assert [e][1..] == [];
    assert CanRun(Next(r, e), []) && Run(Next(r, e), []) == Next(r, e);
    assert CanRun(r, [e]) && Run(r, [e]) == Next(r, e);
    LeadsThrough(s, r, Next(r, e));
  }

  // ---- Serialization ---------------------------------------------------------

  lemma {:induction false} FlattenOrigin<Op>(done: seq<Block<Op>>, k: nat) returns (i: nat)
    requires k < |Flatten(done)|
    ensures i < |done| && Flatten(done)[k].task == done[i].task && Flatten(done)[k].open
  {
    var last := |done| - 1;
    if k < |Flatten(done[..last])| {
      i := FlattenOrigin(done[..last], k);
    } else {
      i := last;
    }
  }

  /** In every interleaving the bus log is the operations of whole jobs, one job after
      another in submission order, followed by those of the job being run; the bus is
      open throughout, and a task that was cancelled or skipped contributes nothing. */
  lemma Serialization<Op(!new)>(s: State<Op>)
    requires Reachable(s)
    ensures s.past.log ==
      Flatten(s.past.done) + (if s.worker.Running? then Entries(s.worker.task, s.worker.ops) else [])
    ensures forall i, j :: 0 <= i < j < |s.past.done| ==> s.past.done[i].task < s.past.done[j].task
    ensures s.worker.Running? ==> forall i :: 0 <= i < |s.past.done| ==> s.past.done[i].task < s.worker.task
    ensures forall k :: 0 <= k < |s.past.log| ==> s.past.log[k].open
    ensures forall k :: 0 <= k < |s.past.log| ==>
      s.past.log[k].task < |s.tasks| && s.tasks[s.past.log[k].task].runs == 1
    ensures forall k :: 0 <= k < |s.past.log| ==>
      s.tasks[s.past.log[k].task].promise != Some(ByStop) && s.tasks[s.past.log[k].task].promise != Some(BySkip)
  {
    ReachableInv(s);
    forall k | 0 <= k < |s.past.log|
      ensures s.past.log[k].open && s.past.log[k].task < |s.tasks| && s.tasks[s.past.log[k].task].runs == 1
    {
      if k < |Flatten(s.past.done)| {
        var i := FlattenOrigin(s.past.done, k);
        FinishedRanOnce(s, s.past.done[i].task);
      }
    }
  }

  lemma FinishedRanOnce<Op>(s: State<Op>, t: nat)
    requires Core(s) && t < |s.tasks| && s.tasks[t].result.Some?
    ensures s.tasks[t].runs == 1
  {
  }

  function FoldOps<D, Op>(f: (D, Op) -> D, d: D, ops: seq<Op>): D {
    if ops == [] then d else f(FoldOps(f, d, ops[..|ops| - 1]), ops[|ops| - 1])
  }

  function FoldLog<D, Op>(f: (D, Op) -> D, d: D, log: seq<Entry<Op>>): D {
    if log == [] then d else f(FoldLog(f, d, log[..|log| - 1]), log[|log| - 1].op)
  }

  function FoldJobs<D, Op>(f: (D, Op) -> D, d: D, done: seq<Block<Op>>): D {
    if done == [] then d else FoldOps(f, FoldJobs(f, d, done[..|done| - 1]), done[|done| - 1].ops)
  }

  lemma {:induction false} FoldLogAppend<D, Op>(f: (D, Op) -> D, d: D, log: seq<Entry<Op>>, t: nat, ops: seq<Op>)
    ensures FoldLog(f, d, log + Entries(t, ops)) == FoldOps(f, FoldLog(f, d, log), ops)
  {
    if ops == [] {
      assert log + Entries(t, ops) == log;
    } else {
      var last := |ops| - 1;
      var whole := log + Entries(t, ops);
      assert whole[..|whole| - 1] == log + Entries(t, ops[..last]);
      FoldLogAppend(f, d, log, t, ops[..last]);
    }
  }

  lemma {:induction false} FoldFlatten<D, Op>(f: (D, Op) -> D, d: D, done: seq<Block<Op>>)
    ensures FoldLog(f, d, Flatten(done)) == FoldJobs(f, d, done)
  {
    if done != [] {
      var last := |done| - 1;
      FoldFlatten(f, d, done[..last]);
      FoldLogAppend(f, d, Flatten(done[..last]), done[last].task, done[last].ops);
    }
  }

  /** Whatever a bus operation does to the devices, their state is that of the finished
      jobs carried out one whole job at a time, plus the running job's own operations. */
  lemma DeviceStateIsFoldOfJobs<D, Op(!new)>(s: State<Op>, f: (D, Op) -> D, d: D)
    requires Reachable(s)
    ensures FoldLog(f, d, s.past.log)
         == FoldOps(f, FoldJobs(f, d, s.past.done), if s.worker.Running? then s.worker.ops else [])
  {
    Serialization(s);
    FoldFlatten(f, d, s.past.done);
    if s.worker.Running? {
      FoldLogAppend(f, d, Flatten(s.past.done), s.worker.task, s.worker.ops);
    } else {
      assert Flatten(s.past.done) + [] == Flatten(s.past.done);
    }
  }

  // ---- Refinement of the service line ----------------------------------------

  predicate StillInLine<Op>(w: Worker<Op>) { CarryingOut(w) || w.Skipping? }

  function InHand<Op>(w: Worker<Op>): seq<nat> { if StillInLine(w) then [w.task] else [] }

  function ServedRecords<Op>(done: seq<Block<Op>>): seq<(nat, (seq<Op>, Status))> {
    seq(|done|, i requires 0 <= i < |done| => (done[i].task, (done[i].ops, done[i].status)))
  }

  /** The executor seen as a service line: the task in hand is still at its head, and a
      job counts as served, operations and status together, when it returns. */
  function AsLine<Op>(s: State<Op>): Line<nat, (seq<Op>, Status)> {
    Line(InHand(s.worker) + s.queue, ServedRecords(s.past.done))
  }

  function MoveOf<Op>(s: State<Op>, e: Event<Op>): Move<nat, (seq<Op>, Status)>
    requires Enabled(s, e)
  {
    match e
    case Submit(_) => if s.ctl.running && !s.ctl.stopping then Join(|s.tasks|) else Stay
    case SkipFulfil => PassOver
    case JobReturns(status) => Serve((s.worker.ops, status))
    case StopBegin => if s.ctl.running then Dismiss(|InHand(s.worker)|) else Stay
    case _ => Stay
  }

  lemma StopDismisses<Op>(s: State<Op>)
    requires Core(s) && s.ctl.stopper.NoStop? && s.ctl.running
    ensures AsLine(StopBegun(s)) == AsLine(s).(waiting := InHand(s.worker))
  {
    CancelAllEffect(StopFlagged(s), s.queue, Head(s));
  }

  lemma LineMoves<Op>(s: State<Op>, e: Event<Op>)
    requires Enabled(s, e) && (e.SkipFulfil? || e.JobReturns? || e.Submit?)
    ensures Possible(AsLine(s), MoveOf(s, e)) && AsLine(Next(s, e)) == Advance(AsLine(s), MoveOf(s, e))
  {
  }

  lemma LineStays<Op>(s: State<Op>, e: Event<Op>)
    requires Enabled(s, e) && !e.StopBegin? && !e.SkipFulfil? && !e.JobReturns? && !e.Submit?
    requires e.Start? ==> s.ctl.running || s.worker.Absent?
    ensures AsLine(Next(s, e)) == AsLine(s)
  {
    if e.Take? {
      assert [s.queue[0]] + s.queue[1..] == s.queue;
    }
  }

  /** Every step of the interleaved executor is one move of the serial line, or none. */
  lemma RefinesServiceLine<Op>(s: State<Op>, e: Event<Op>)
    requires Core(s) && Enabled(s, e)
    ensures Possible(AsLine(s), MoveOf(s, e))
    ensures AsLine(Next(s, e)) == Advance(AsLine(s), MoveOf(s, e))
  {
    if e.StopBegin? {
      if s.ctl.running {
        StopDismisses(s);
        assert AsLine(s).waiting[..|InHand(s.worker)|] == InHand(s.worker);
      }
    } else if e.SkipFulfil? || e.JobReturns? || e.Submit? {
      LineMoves(s, e);
    } else {
      LineStays(s, e);
    }
  }

  // ---- Promises, stopping ----------------------------------------------------

  /** No promise is ever set twice, whoever is about to set one finds it empty, so the catch in
      `safe_set_promise` is never taken;
      stopping implies an empty queue; while stopping at most one job finishes; and a
      promise is empty only for a task in the queue or in the worker's hands. */
  lemma PromisesAndStopping<Op(!new)>(s: State<Op>)
    requires Reachable(s)
    ensures s.past.doubleSets == 0
    ensures s.ctl.stopping ==> s.queue == [] && s.past.finishedSinceStop <= 1
    ensures forall t :: 0 <= t < |s.tasks| && s.tasks[t].promise == None ==>
      t in s.queue || (WorkerHolds(s.worker) && s.worker.task == t)
    ensures s.worker.Skipping? || s.worker.Publishing? ==>
      s.worker.task < |s.tasks| && s.tasks[s.worker.task].promise == None
    ensures forall i :: 0 <= i < |s.queue| ==> s.queue[i] < |s.tasks| && s.tasks[s.queue[i]].promise == None
  {
    ReachableInv(s);
    forall t | 0 <= t < |s.tasks| && s.tasks[t].promise == None && t >= Head(s) ensures t in s.queue {
      assert s.queue[t - Head(s)] == t;
    }
  }

  /** When `stop` returns, every task ever accepted has its promise fulfilled, the
      worker is joined, the bus closed and the executor ready to be started again. */
  lemma StopReturnsComplete<Op(!new)>(s: State<Op>)
    requires Reachable(s) && Enabled(s, StopFinish)
    ensures var n := Next(s, StopFinish);
      && !n.ctl.running && !n.ctl.stopping && !n.ctl.busOpen && n.worker.Absent? && n.queue == []
      && (forall t :: 0 <= t < |n.tasks| ==> n.tasks[t].promise.Some?)
  {
    ReachableInv(s);
    QuietMeansFulfilled(s);
  }

  lemma QuietMeansFulfilled<Op>(s: State<Op>)
    requires TasksSound(s) && s.worker.Absent? && s.queue == []
    ensures forall t :: 0 <= t < |s.tasks| ==> s.tasks[t].promise.Some?
  {
  }

  // ---- The worker reaches its exit -------------------------------------------

  predicate WorkerEvent<Op>(e: Event<Op>) {
    e.Take? || e.WorkerExit? || CarryingEvent(e) || ReportingEvent(e)
  }

  /** How far the worker is from exiting once stop has begun. */
  function Distance<Op>(w: Worker<Op>): (nat, nat) {
    match w
    case Popped(_) => (6, 0)
    case Running(_, left, _) => (5, left)
    case Finished(_, _) => (4, 0)
    case Skipping(_) => (4, 0)
    case Accounting(_, _) => (3, 0)
    case SkipCounting(_) => (3, 0)
    case Publishing(_, _) => (2, 0)
    case Idle => (1, 0)
    case Exited => (0, 0)
    case Absent => (0, 0)
  }

  predicate Closer(a: (nat, nat), b: (nat, nat)) { a.0 < b.0 || (a.0 == b.0 && a.1 < b.1) }

  /** While stopping, every step of the worker brings it closer to its exit and no one
      else's step moves it; the measure is well-founded, so `join` returns. */
  lemma StoppingWorkerProgresses<Op>(s: State<Op>, e: Event<Op>)
    requires Core(s) && s.ctl.stopper.Joining? && Enabled(s, e)
    ensures WorkerEvent(e) ==> Closer(Distance(Next(s, e).worker), Distance(s.worker))
    ensures !WorkerEvent(e) && !e.StopJoin? ==> Next(s, e).worker == s.worker
    ensures !e.StopJoin? ==> Next(s, e).ctl.stopper.Joining?
  {
    if WorkerEvent(e) {
      WorkerProgresses(s, e);
    }
  }

  /** At any time, every step of the worker takes a task off the queue or brings the worker
      closer to being done with the one it has. */
  lemma WorkerProgresses<Op>(s: State<Op>, e: Event<Op>)
    requires Enabled(s, e) && WorkerEvent(e)
    ensures var n := Next(s, e);
      |n.queue| < |s.queue| || (n.queue == s.queue && Closer(Distance(n.worker), Distance(s.worker)))
    ensures Next(s, e).ctl == s.ctl && |Next(s, e).tasks| == |s.tasks|
  {
  }

  lemma WorkerLeavesCallers<Op>(s: State<Op>, e: Event<Op>, t: nat)
    requires Enabled(s, e) && WorkerEvent(e) && t < |s.tasks|
    ensures t < |Next(s, e).tasks|
    ensures Next(s, e).tasks[t].caller == s.tasks[t].caller && Next(s, e).tasks[t].bounded == s.tasks[t].bounded
  {
  }

  /** The worker's next step, with the job returning `status` when it is at its end. */
  function WorkerNextEvent<Op>(s: State<Op>, status: Status): Event<Op>
    requires Core(s) && s.ctl.stopper.Joining? && !s.worker.Exited?
  {
    match s.worker
    case Popped(t) => if s.tasks[t].flagged then SeeFlag else Begin(0)
    case Running(_, _, _) => JobReturns(status)
    case Finished(_, _) => CheckFlag
    case Skipping(_) => SkipFulfil
    case Accounting(_, _) => AccountJob
    case SkipCounting(_) => SkipCount
    case Publishing(_, _) => Publish
    case Idle => WorkerExit
  }

  lemma WorkerNeverStuck<Op>(s: State<Op>, status: Status)
    requires Core(s) && s.ctl.stopper.Joining? && !s.worker.Exited?
    ensures WorkerEvent(WorkerNextEvent(s, status)) && Enabled(s, WorkerNextEvent(s, status))
  {
  }

  /** From any point of a stop there is a way for `join` to return by the worker's steps
      alone: nobody else's cooperation is needed. */
  lemma {:induction false} JoinReturns<Op>(s: State<Op>, status: Status) returns (es: seq<Event<Op>>)
    requires Core(s) && s.ctl.stopper.Joining?
    ensures forall i :: 0 <= i < |es| ==> WorkerEvent(es[i])
    ensures CanRun(s, es) && Enabled(Run(s, es), StopJoin)
    decreases Distance(s.worker).0, Distance(s.worker).1
  {
    if s.worker.Exited? {
      es := [];
    } else {
      var e := WorkerNextEvent(s, status);
      WorkerNeverStuck(s, status);
      StepKeepsCore(s, e);
      StoppingWorkerProgresses(s, e);
      var rest := JoinReturns(Next(s, e), status);
      es := [e] + rest;
      assert es[1..] == rest;
    }
  }

  // ---- What `submit` tells its caller ----------------------------------------

  /** `submit` reports OK exactly when its job ran once, ended OK before the return, and
      the caller collected that result; a Cancelled report the job did not make itself
      means the job never ran; the status of a skipped task is never handed out; and a
      deadline report is only made to callers that set one. */
  lemma OutcomeTruth<Op(!new)>(s: State<Op>, t: nat)
    requires Reachable(s) && t < |s.tasks| && s.tasks[t].caller.Returned?
    ensures var task := s.tasks[t];
      var how := task.caller.how;
      && (ReturnedStatus(how).IsOk() <==>
            how.Collected? && how.fulfilment.ByJob? && task.result.Some? && task.result.value.IsOk())
      && (ReturnedStatus(how).IsOk() ==> task.runs == 1 && task.result == Some(ReturnedStatus(how)))
      && (how == Collected(ByStop) ==> task.runs == 0 && task.result == None && ReturnedStatus(how) == STOPPED)
      && (how == DeadlinePassed ==> ReturnedStatus(how) == TIMED_OUT)
      && STOPPED.code == Cancelled && TIMED_OUT.code == DeadlineExceeded
      && (ReturnedStatus(how).code == Cancelled && task.result == None ==> how == Collected(ByStop) && task.runs == 0)
      && (ReturnedStatus(how).code == Cancelled && task.result.Some? ==> task.result == Some(ReturnedStatus(how)))
      && how != Collected(BySkip)
      && (how == DeadlinePassed ==> task.bounded)
  {
    ReachableInv(s);
  }

  // ---- Nothing older is still to come ----------------------------------------

  lemma PromiseKept<Op>(s: State<Op>, e: Event<Op>, t: nat)
    requires Core(s) && Enabled(s, e) && t < |s.tasks| && s.tasks[t].promise.Some?
    ensures t < |Next(s, e).tasks| && Next(s, e).tasks[t].promise == s.tasks[t].promise
  {
    if e.StopBegin? && s.ctl.running {
      CancelAllEffect(StopFlagged(s), s.queue, Head(s));
    }
  }

  /** The worker has let go of task `t`, by running it or by skipping it. */
  ghost predicate LetGo<Op>(s: State<Op>, t: nat) {
    t < |s.tasks| && s.tasks[t].promise.Some? && s.tasks[t].promise != Some(ByStop)
  }

  lemma LogGrowsAbove<Op>(s: State<Op>, e: Event<Op>, t: nat)
    requires Core(s) && Enabled(s, e) && LetGo(s, t)
    ensures |s.past.log| <= |Next(s, e).past.log|
    ensures Next(s, e).past.log[..|s.past.log|] == s.past.log
    ensures forall k :: |s.past.log| <= k < |Next(s, e).past.log| ==> Next(s, e).past.log[k].task > t
  {
    if e.StopBegin? {
      StopLeavesLog(s);
    } else if !e.Emit? {
      if !JobEvent(e) {
        OthersLeaveLog(s, e);
      }
    }
  }

  /** FIFO barrier: once the worker has let go of a task, no schedule whatever lets that
      task or any accepted before it perform another bus operation. A caller that has
      its job's result therefore knows every earlier job, timed out or not, is over. */
  lemma {:induction false} NothingOlderStillToCome<Op>(s: State<Op>, es: seq<Event<Op>>, t: nat)
    requires Core(s) && CanRun(s, es) && LetGo(s, t)
    ensures var r := Run(s, es);
      && |s.past.log| <= |r.past.log| && r.past.log[..|s.past.log|] == s.past.log
      && (forall k :: |s.past.log| <= k < |r.past.log| ==> r.past.log[k].task > t)
    decreases |es|
  {
    if es != [] {
      var n := Next(s, es[0]);
      StepKeepsCore(s, es[0]);
      PromiseKept(s, es[0], t);
      LogGrowsAbove(s, es[0], t);
      NothingOlderStillToCome(n, es[1..], t);
      var r := Run(s, es);
      assert r.past.log[..|s.past.log|] == r.past.log[..|n.past.log|][..|s.past.log|];
    }
  }

  // ---- Metrics ---------------------------------------------------------------

  lemma {:induction false} AccountsPartition(tasks: seq<Task>)
    ensures |tasks| == Count(tasks, In(Queued)) + Count(tasks, In(InFlight)) + Count(tasks, In(Succeeded))
                     + Count(tasks, In(Failed)) + Count(tasks, In(Late)) + Count(tasks, In(Dropped))
  {
    if tasks != [] {
      AccountsPartition(tasks[..|tasks| - 1]);
    }
  }

  lemma {:induction false} FlaggedCoverage(tasks: seq<Task>)
    requires forall t :: 0 <= t < |tasks| ==> TaskSound(tasks[t])
    ensures Count(tasks, In(Late)) + Count(tasks, SkippedByWorker) <= Count(tasks, FlagStored)
    ensures Count(tasks, TimeoutReturned) <= Count(tasks, FlagStored)
  {
    if tasks != [] {
      FlaggedCoverage(tasks[..|tasks| - 1]);
    }
  }

  /** Conservation: every accepted task is in the queue, in flight, or in exactly one of
      the counters, the jobs that finished after their caller's deadline being the ones
      no counter shows; and those plus the skipped ones were all flagged. */
  lemma MetricsConservation<Op(!new)>(s: State<Op>)
    requires Reachable(s)
    ensures var inFlight, late := Count(s.tasks, In(InFlight)), Count(s.tasks, In(Late));
      && s.metrics.submitted == s.metrics.queueDepth + s.metrics.cancelled + s.metrics.succeeded + s.metrics.failed
                              + late + inFlight
      && inFlight <= 1
      && s.metrics.queueDepth == |s.queue|
      && late + Count(s.tasks, SkippedByWorker) <= Count(s.tasks, FlagStored)
      && s.metrics.timedOut <= Count(s.tasks, FlagStored)
      && s.metrics.started + Count(s.tasks, CancelledByStop) + s.metrics.queueDepth == s.metrics.submitted
  {
    ReachableInv(s);
    AccountsPartition(s.tasks);
    FlaggedCoverage(s.tasks);
  }

  /** What an event complains of: a bus that does not open, a deadline passed, a job that failed
      with its caller still there. */
  function Complaint<Op>(s: State<Op>, e: Event<Op>): Option<string>
    requires Enabled(s, e)
  {
    match e
    case Start(opens, error) => if !s.ctl.running && s.ctl.hasBus && !opens then Some(error) else None
    case CountTimeout(_) => Some("job timed out")
    case AccountJob => if s.worker.status.IsOk() then None else Some(s.worker.status.message)
    case _ => None
  }

  lemma StepComplains<Op>(s: State<Op>, e: Event<Op>)
    requires Core(s) && Enabled(s, e)
    ensures Next(s, e).metrics.lastError ==
      if Complaint(s, e).Some? then Complaint(s, e).value else s.metrics.lastError
  {
    if e.StopBegin? && s.ctl.running {
      CancelAllEffect(StopFlagged(s), s.queue, Head(s));
    }
  }

  function LastComplaint<Op>(s: State<Op>, es: seq<Event<Op>>): Option<string>
    requires CanRun(s, es)
    decreases |es|
  {
    if es == [] then None
    else
      var later := LastComplaint(Next(s, es[0]), es[1..]);
      if later.Some? then later else Complaint(s, es[0])
  }

  /** In every schedule the last error on show is the last complaint there was. */
  lemma {:induction false} LastErrorIsLast<Op>(s: State<Op>, es: seq<Event<Op>>)
    requires Core(s) && CanRun(s, es)
    ensures Run(s, es).metrics.lastError ==
      if LastComplaint(s, es).Some? then LastComplaint(s, es).value else s.metrics.lastError
    decreases |es|
  {
    if es != [] {
      StepKeepsCore(s, es[0]);
      StepComplains(s, es[0]);
      LastErrorIsLast(Next(s, es[0]), es[1..]);
    }
  }

  predicate Accounted(a: Account) { a == Succeeded || a == Failed }

  /** The worker has looked at the flag of task t after its job: if it saw the flag, the job is
      late for good; if not, the job is accounted for, or about to be. */
  ghost predicate Decided<Op>(s: State<Op>, t: nat, late: bool) {
    && t < |s.tasks|
    && if late then s.tasks[t].account == Late
       else
         || Accounted(s.tasks[t].account)
         || (s.worker.Accounting? && s.worker.task == t && s.tasks[t].account == InFlight)
  }

  lemma StopKeepsDecided<Op>(s: State<Op>, t: nat, late: bool)
    requires Core(s) && s.ctl.stopper.NoStop? && Decided(s, t, late)
    ensures Decided(StopBegun(s), t, late)
  {
    if s.ctl.running {
      CancelAllEffect(StopFlagged(s), s.queue, Head(s));
    }
  }

  lemma ReportKeepsDecided<Op>(s: State<Op>, e: Event<Op>, t: nat, late: bool)
    requires Core(s) && Enabled(s, e) && ReportingEvent(e) && Decided(s, t, late)
    ensures Decided(Next(s, e), t, late)
  {
  }

  lemma StepKeepsDecided<Op>(s: State<Op>, e: Event<Op>, t: nat, late: bool)
    requires Core(s) && Enabled(s, e) && Decided(s, t, late)
    ensures Decided(Next(s, e), t, late)
  {
    if e.StopBegin? {
      StopKeepsDecided(s, t, late);
    } else if ReportingEvent(e) {
      ReportKeepsDecided(s, e, t, late);
    }
  }

  lemma {:induction false} RunKeepsDecided<Op>(s: State<Op>, es: seq<Event<Op>>, t: nat, late: bool)
    requires Core(s) && CanRun(s, es) && Decided(s, t, late)
    ensures Decided(Run(s, es), t, late)
    decreases |es|
  {
    if es != [] {
      StepKeepsCore(s, es[0]);
      StepKeepsDecided(s, es[0], t, late);
      RunKeepsDecided(Next(s, es[0]), es[1..], t, late);
    }
  }

  /** Which counter a finished job goes to is settled when the worker looks at its flag again,
      whatever the schedule after that: it is counted as succeeded or failed exactly when the
      flag was not stored by then, and is otherwise late. So it is in one of those counters and
      timed out exactly when its caller stored the flag after the worker had looked. */
  lemma CountedExactly<Op>(s: State<Op>, es: seq<Event<Op>>)
    requires Core(s) && Enabled(s, CheckFlag) && CanRun(Next(s, CheckFlag), es)
    ensures var t, r := s.worker.task, Run(Next(s, CheckFlag), es);
      && t < |r.tasks|
      && (Settled(r.tasks[t].account) ==>
            && (Accounted(r.tasks[t].account) <==> !s.tasks[t].flagged)
            && (r.tasks[t].account == Late <==> s.tasks[t].flagged)
            && (Accounted(r.tasks[t].account) && Matches(TimeoutReturned, r.tasks[t]) <==>
                  !s.tasks[t].flagged && r.tasks[t].caller == Returned(DeadlinePassed)))
  {
    var t := s.worker.task;
    StepKeepsCore(s, CheckFlag);
    RunKeepsDecided(Next(s, CheckFlag), es, t, s.tasks[t].flagged);
  }

  /** One task, taken by the worker, its caller still waiting. */
  ghost predicate OneTaken(s: State<nat>) {
    && s.worker == Popped(0) && s.queue == []
    && s.tasks == [Task(true, false, None, Waiting, 0, None, InFlight)]
    && s.metrics == NO_METRICS.(submitted := 1, started := 1)
  }

  lemma TaskTaken() returns (s: State<nat>)
    ensures Reachable(s) && OneTaken(s)
  {
    var s0 := Initial<nat>(true);
    var s1 := Next(s0, Start(true, ""));
    var s2 := Next(s1, Submit(true));
    s := Next(s2, Take);
    LeadsNowhere(s0);
    LeadsOn(s0, s0, Start(true, ""));
    LeadsOn(s0, s1, Submit(true));
    LeadsOn(s0, s2, Take);
  }

  /** Its job has run and been found unflagged. */
  ghost predicate AboutToCount(s: State<nat>) {
    && s.worker == Accounting(0, OK)
    && s.tasks == [Task(true, false, None, Waiting, 1, Some(OK), InFlight)]
    && s.metrics == NO_METRICS.(submitted := 1, started := 1)
  }

  lemma JobFoundUnflagged() returns (s: State<nat>)
    ensures Reachable(s) && AboutToCount(s)
  {
    var s0 := TaskTaken();
    var s1 := Next(s0, Begin(0));
    var s2 := Next(s1, JobReturns(OK));
    s := Next(s2, CheckFlag);
    LeadsNowhere(s0);
    LeadsOn(s0, s0, Begin(0));
    LeadsOn(s0, s1, JobReturns(OK));
    LeadsOn(s0, s2, CheckFlag);
    ReachableOn(s0, s);
  }

  lemma ReachableOn<Op(!new)>(s: State<Op>, r: State<Op>)
    requires Reachable(s) && Leads(s, r)
    ensures Reachable(r)
  {
    var hasBus, es :| CanRun(Initial<Op>(hasBus), es) && Run(Initial<Op>(hasBus), es) == s;
    LeadsThrough(Initial<Op>(hasBus), s, r);
  }

  /** The counters do not add up to `submitted` without the late ones, and `timed_out`
      is no disjoint class: a job whose caller gives up just after the worker looked at
      the flag is counted as succeeded and as timed out. */
  lemma SucceededAndTimedOut() returns (s: State<nat>)
    ensures Reachable(s) && s.metrics.submitted == 1 && s.metrics.succeeded == 1 && s.metrics.timedOut == 1
  {
    var s0 := JobFoundUnflagged();
    var s1 := Next(s0, Expire(0));
    var s2 := Next(s1, SetFlag(0));
    var s3 := Next(s2, AccountJob);
    s := Next(s3, CountTimeout(0));
    LeadsNowhere(s0);
    LeadsOn(s0, s0, Expire(0));
    LeadsOn(s0, s1, SetFlag(0));
    LeadsOn(s0, s2, AccountJob);
    LeadsOn(s0, s3, CountTimeout(0));
    ReachableOn(s0, s);
  }
}
