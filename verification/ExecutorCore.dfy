/** What every step of the executor protocol keeps: who holds which task, which
    promises are fulfilled, and how the session flags relate. */
module ExecutorCore {
  import opened Statuses
  import opened ExecutorModel

  /** Tasks below the head have been taken or cancelled; the rest are the queue. */
  function Head<Op>(s: State<Op>): int { |s.tasks| - |s.queue| }

  ghost predicate QueueInOrder<Op>(s: State<Op>) {
    && |s.queue| <= |s.tasks|
    && forall i :: 0 <= i < |s.queue| ==> s.queue[i] == Head(s) + i
  }

  ghost predicate Session<Op>(s: State<Op>) {
    && (s.ctl.stopping <==> !s.ctl.stopper.NoStop?)
    && (s.ctl.stopping ==> s.ctl.running && s.queue == [])
    && (!s.ctl.running ==> s.queue == [] && s.worker.Absent?)
    && (s.ctl.running ==> s.ctl.hasBus)
    && (!s.worker.Absent? ==> s.ctl.running && s.ctl.busOpen)
    && (s.ctl.running && !s.ctl.stopping ==> !s.worker.Absent? && !s.worker.Exited?)
    && (s.ctl.stopper.Joining? ==> !s.worker.Absent?)
    && (s.ctl.stopper.Closing? || s.ctl.stopper.Finishing? ==> s.worker.Absent?)
    && (s.worker.Exited? ==> s.ctl.stopping)
    && (s.ctl.stopper.Finishing? ==> !s.ctl.busOpen)
  }

  predicate Settled(a: Account) { a != Queued && a != InFlight }

  /** The task the worker holds, according to where the worker is. */
  ghost predicate HeldTask<Op>(w: Worker<Op>, task: Task)
    requires WorkerHolds(w)
  {
    match w
    case Popped(_) => Untouched(task) && task.account == InFlight
    case Skipping(_) => Untouched(task) && task.account == InFlight && task.flagged
    case SkipCounting(_) => task.promise == Some(BySkip) && task.account == InFlight
    case Running(_, _, _) =>
      task.promise == None && task.runs == 1 && task.result == None && task.account == InFlight
    case Finished(_, status) => Unpublished(task, status) && task.account == InFlight
    case Accounting(_, status) => Unpublished(task, status) && task.account == InFlight
    case Publishing(_, status) => Unpublished(task, status) && Settled(task.account)
  }

  ghost predicate Untouched(task: Task) {
    task.promise == None && task.runs == 0 && task.result == None
  }

  ghost predicate Unpublished(task: Task, status: Status) {
    task.promise == None && task.runs == 1 && task.result == Some(status)
  }

  /** What holds of a task on its own, wherever everybody else is. */
  ghost predicate TaskSound(task: Task) {
    && (task.promise.Some? && task.promise.value.ByJob? ==>
          task.runs == 1 && task.result == Some(task.promise.value.status))
    && (task.promise == Some(ByStop) || task.promise == Some(BySkip) ==> task.runs == 0 && task.result == None)
    && (task.promise == Some(BySkip) ==> task.flagged)
    && (task.flagged <==> task.caller == Flagged || task.caller == Returned(DeadlinePassed))
    && (task.caller.Expired? || task.flagged ==> task.bounded)
    && (task.caller.Returned? && task.caller.how.Collected? ==>
          task.promise == Some(task.caller.how.fulfilment))
    && (task.account == Late ==> task.flagged && task.result.Some?)
    && (task.account == Succeeded ==> task.result.Some? && task.result.value.IsOk())
    && (task.account == Failed ==> task.result.Some? && !task.result.value.IsOk())
    && (task.account == Dropped ==> task.promise == Some(ByStop) || task.promise == Some(BySkip))
  }

  /** Where task `t` stands, given the head of the queue and the worker. */
  ghost predicate Placed<Op>(head: int, worker: Worker<Op>, t: nat, task: Task) {
    if t >= head then Untouched(task) && task.account == Queued
    else if WorkerHolds(worker) && worker.task == t then HeldTask(worker, task)
    else task.promise.Some? && Settled(task.account)
  }

  ghost predicate TasksSound<Op>(s: State<Op>) {
    && (WorkerHolds(s.worker) ==> s.worker.task < Head(s))
    && (WorkerHolds(s.worker) ==>
          forall t :: s.worker.task < t < Head(s) ==> s.tasks[t].promise == Some(ByStop))
    && (forall t :: 0 <= t < |s.tasks| ==> TaskSound(s.tasks[t]))
    && (forall t :: 0 <= t < |s.tasks| ==> Placed(Head(s), s.worker, t, s.tasks[t]))
    && s.past.doubleSets == 0
  }

  predicate CarryingOut<Op>(w: Worker<Op>) { w.Popped? || w.Running? }

  function One(b: bool): nat { if b then 1 else 0 }

  /** At most the job in hand when stop begins still finishes. */
  ghost predicate LastJobOnly<Op>(s: State<Op>) {
    s.ctl.stopping ==> s.past.finishedSinceStop + One(CarryingOut(s.worker)) <= 1
  }

  ghost predicate Core<Op>(s: State<Op>) {
    QueueInOrder(s) && Session(s) && TasksSound(s) && LastJobOnly(s)
  }

  lemma InitialCore<Op>(s: State<Op>)
    requires s == Initial(s.ctl.hasBus)
    ensures Core(s)
  {
  }

  /** What the cancel loop does to the tasks of the queue, which are the last ones. */
  lemma {:induction false} CancelAllEffect<Op>(s: State<Op>, pending: seq<nat>, first: nat)
    requires first + |pending| == |s.tasks|
    requires forall i :: 0 <= i < |pending| ==> pending[i] == first + i
    requires forall t :: first <= t < |s.tasks| ==> Untouched(s.tasks[t])
    ensures var r := CancelAll(s, pending);
      && r == s.(tasks := r.tasks, metrics := s.metrics.(cancelled := s.metrics.cancelled + |pending|))
      && |r.tasks| == |s.tasks|
      && (forall t :: 0 <= t < first ==> r.tasks[t] == s.tasks[t])
      && (forall t :: first <= t < |s.tasks| ==>
            r.tasks[t] == s.tasks[t].(promise := Some(ByStop), account := Dropped))
    decreases |pending|
  {
    if pending != [] {
      var one := CancelOne(s, pending[0]);
      assert one.tasks == s.tasks[first := s.tasks[first].(promise := Some(ByStop), account := Dropped)];
      CancelAllEffect(one, pending[1..], first + 1);
    }
  }

  lemma StopKeepsCore<Op>(s: State<Op>)
    requires Core(s) && s.ctl.stopper.NoStop?
    ensures Core(StopBegun(s))
  {
    if s.ctl.running {
      CancelAllEffect(StopFlagged(s), s.queue, Head(s));
    }
  }

  lemma SubmitKeepsCore<Op>(s: State<Op>, bounded: bool)
    requires Core(s)
    ensures Core(Submitted(s, bounded))
  {
  }

  predicate CallerEvent<Op>(e: Event<Op>) {
    e.Expire? || e.SetFlag? || e.CountTimeout? || e.Collect?
  }

  lemma WaitKeepsCore<Op>(s: State<Op>, e: Event<Op>)
    requires Core(s) && Enabled(s, e) && (e.Expire? || e.SetFlag?)
    ensures Core(Next(s, e))
  {
  }

  lemma ReturnKeepsCore<Op>(s: State<Op>, e: Event<Op>)
    requires Core(s) && Enabled(s, e) && (e.CountTimeout? || e.Collect?)
    ensures Core(Next(s, e))
  {
  }

  lemma TakeKeepsCore<Op>(s: State<Op>)
    requires Core(s) && Enabled(s, Take)
    ensures Core(WorkerTook(s))
  {
  }

  /** The worker's steps on the task it holds, up to the end of the job. */
  predicate CarryingEvent<Op>(e: Event<Op>) {
    e.SeeFlag? || e.Begin? || e.Emit? || e.JobReturns?
  }

  lemma BeginKeepsCore<Op>(s: State<Op>, e: Event<Op>)
    requires Core(s) && Enabled(s, e) && (e.SeeFlag? || e.Begin?)
    ensures Core(Next(s, e))
  {
  }

  lemma JobKeepsCore<Op>(s: State<Op>, e: Event<Op>)
    requires Core(s) && Enabled(s, e) && (e.Emit? || e.JobReturns?)
    ensures Core(Next(s, e))
  {
  }

  /** The worker's steps from there to being idle again. */
  predicate ReportingEvent<Op>(e: Event<Op>) {
    e.SkipFulfil? || e.SkipCount? || e.CheckFlag? || e.AccountJob? || e.Publish?
  }

  lemma SkippingKeepsCore<Op>(s: State<Op>, e: Event<Op>)
    requires Core(s) && Enabled(s, e) && (e.SkipFulfil? || e.SkipCount?)
    ensures Core(Next(s, e))
  {
  }

  lemma CheckFlagKeepsCore<Op>(s: State<Op>)
    requires Core(s) && Enabled(s, CheckFlag)
    ensures Core(FlagChecked(s))
  {
  }

  lemma AccountKeepsCore<Op>(s: State<Op>)
    requires Core(s) && Enabled(s, AccountJob)
    ensures Core(JobAccounted(s))
  {
  }

  lemma PublishKeepsCore<Op>(s: State<Op>)
    requires Core(s) && Enabled(s, Publish)
    ensures Core(JobPublished(s))
  {
  }

  predicate SessionEvent<Op>(e: Event<Op>) {
    e.Start? || e.WorkerExit? || e.StopJoin? || e.StopClose? || e.StopFinish?
  }

  lemma SessionKeepsCore<Op>(s: State<Op>, e: Event<Op>)
    requires Core(s) && Enabled(s, e) && SessionEvent(e)
    ensures Core(Next(s, e))
  {
  }

  lemma StepKeepsCore<Op>(s: State<Op>, e: Event<Op>)
    requires Core(s) && Enabled(s, e)
    ensures Core(Next(s, e))
  {
    if e.Submit? {
      SubmitKeepsCore(s, e.bounded);
    } else if e.StopBegin? {
      StopKeepsCore(s);
    } else if e.Take? {
      TakeKeepsCore(s);
    } else if e.Expire? || e.SetFlag? {
      WaitKeepsCore(s, e);
    } else if e.CountTimeout? || e.Collect? {
      ReturnKeepsCore(s, e);
    } else if e.SeeFlag? || e.Begin? {
      BeginKeepsCore(s, e);
    } else if e.Emit? || e.JobReturns? {
      JobKeepsCore(s, e);
    } else if e.SkipFulfil? || e.SkipCount? {
      SkippingKeepsCore(s, e);
    } else if e.CheckFlag? {
      CheckFlagKeepsCore(s);
    } else if e.AccountJob? {
      AccountKeepsCore(s);
    } else if e.Publish? {
      PublishKeepsCore(s);
    } else {
      SessionKeepsCore(s, e);
    }
  }
}
