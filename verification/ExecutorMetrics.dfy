/** The executor's counters are exact in every reachable state. */
module ExecutorMetrics {
  import opened Statuses
  import opened ExecutorModel
  import opened ExecutorCore

  // ---- Counting tasks --------------------------------------------------------

  datatype Kind = In(account: Account) | FlagStored | TimeoutReturned | SkippedByWorker | CancelledByStop

  predicate Matches(kind: Kind, task: Task) {
    match kind
    case In(account) => task.account == account
    case FlagStored => task.flagged
    case TimeoutReturned => task.caller == Returned(DeadlinePassed)
    case SkippedByWorker => task.promise == Some(BySkip)
    case CancelledByStop => task.promise == Some(ByStop)
  }

  function Count(tasks: seq<Task>, kind: Kind): nat {
    if tasks == [] then 0
    else Count(tasks[..|tasks| - 1], kind) + One(Matches(kind, tasks[|tasks| - 1]))
  }

  lemma {:induction false} CountUpdate(tasks: seq<Task>, t: nat, task: Task, kind: Kind)
    requires t < |tasks|
    ensures Count(tasks[t := task], kind) + One(Matches(kind, tasks[t]))
         == Count(tasks, kind) + One(Matches(kind, task))
  {
    var last := |tasks| - 1;
    var updated := tasks[t := task];
    if t < last {
      assert updated[..last] == tasks[..last][t := task];
      CountUpdate(tasks[..last], t, task, kind);
    } else {
      assert updated[..last] == tasks[..last];
    }
  }

  lemma CountAppend(tasks: seq<Task>, task: Task, kind: Kind)
    ensures Count(tasks + [task], kind) == Count(tasks, kind) + One(Matches(kind, task))
  {
  }

  /** CountUpdate, for all kinds at once. */
  lemma CountsUpdate(tasks: seq<Task>, t: nat, task: Task)
    requires t < |tasks|
    ensures forall kind {:trigger Count(tasks[t := task], kind)} ::
      Count(tasks[t := task], kind) + One(Matches(kind, tasks[t])) == Count(tasks, kind) + One(Matches(kind, task))
  {
  }

  /** The worker has a task that no counter but `started` has seen yet. */
  ghost predicate Uncounted<Op>(w: Worker<Op>) { WorkerHolds(w) && !w.Publishing? }

  ghost predicate MetricsExact<Op>(s: State<Op>) {
    && s.metrics.submitted == |s.tasks|
    && s.metrics.queueDepth == |s.queue| == Count(s.tasks, In(Queued))
    && s.metrics.succeeded == Count(s.tasks, In(Succeeded))
    && s.metrics.failed == Count(s.tasks, In(Failed))
    && s.metrics.cancelled == Count(s.tasks, In(Dropped))
    && s.metrics.timedOut == Count(s.tasks, TimeoutReturned)
    && One(Uncounted(s.worker)) == Count(s.tasks, In(InFlight))
    && s.metrics.started + Count(s.tasks, CancelledByStop) == Head(s)
  }

  lemma InitialMetrics<Op>(s: State<Op>)
    requires s == Initial(s.ctl.hasBus)
    ensures MetricsExact(s)
  {
  }

  /** Each cancelled task moves from the queue to the dropped ones. */
  function Shift(kind: Kind): int {
    if kind == In(Queued) then -1 else if kind == In(Dropped) || kind == CancelledByStop then 1 else 0
  }

  lemma {:induction false} CancelAllCounts<Op>(s: State<Op>, pending: seq<nat>, first: nat, kind: Kind)
    requires first + |pending| == |s.tasks|
    requires forall i :: 0 <= i < |pending| ==> pending[i] == first + i
    requires forall t :: first <= t < |s.tasks| ==> Untouched(s.tasks[t]) && s.tasks[t].account == Queued
    ensures Count(CancelAll(s, pending).tasks, kind) == Count(s.tasks, kind) + Shift(kind) * |pending|
    decreases |pending|
  {
    if pending != [] {
      var one := CancelOne(s, pending[0]);
      var task := s.tasks[first].(promise := Some(ByStop), account := Dropped);
      assert one.tasks == s.tasks[first := task];
      CountUpdate(s.tasks, first, task, kind);
      CancelAllCounts(one, pending[1..], first + 1, kind);
      assert Shift(kind) * |pending| == Shift(kind) + Shift(kind) * |pending[1..]|;
    }
  }

  lemma StopCounts<Op>(s: State<Op>, kind: Kind)
    requires Core(s) && s.ctl.stopper.NoStop? && s.ctl.running
    ensures Count(StopBegun(s).tasks, kind) == Count(s.tasks, kind) + Shift(kind) * |s.queue|
  {
    CancelAllCounts(StopFlagged(s), s.queue, Head(s), kind);
  }

  lemma StopMetrics<Op>(s: State<Op>)
    requires Core(s) && s.ctl.stopper.NoStop? && s.ctl.running
    ensures var n := StopBegun(s);
      && n.metrics == s.metrics.(queueDepth := 0, cancelled := s.metrics.cancelled + |s.queue|)
      && n.queue == [] && |n.tasks| == |s.tasks| && n.worker == s.worker
  {
    CancelAllEffect(StopFlagged(s), s.queue, Head(s));
  }

  lemma StopKeepsMetrics<Op>(s: State<Op>)
    requires Core(s) && MetricsExact(s) && s.ctl.stopper.NoStop? && s.ctl.running
    ensures MetricsExact(StopBegun(s))
  {
    StopMetrics(s);
    StopCounts(s, In(Queued));
    StopCounts(s, In(InFlight));
    StopCounts(s, In(Succeeded));
    StopCounts(s, In(Failed));
    StopCounts(s, In(Dropped));
    StopCounts(s, TimeoutReturned);
    StopCounts(s, CancelledByStop);
  }

  lemma SubmitKeepsMetrics<Op>(s: State<Op>, bounded: bool)
    requires Core(s) && MetricsExact(s)
    ensures MetricsExact(Submitted(s, bounded))
  {
    if s.ctl.running && !s.ctl.stopping {
      var task := Task(bounded, false, None, Waiting, 0, None, Queued);
      forall kind ensures Count(s.tasks + [task], kind) == Count(s.tasks, kind) + One(Matches(kind, task)) {
        CountAppend(s.tasks, task, kind);
      }
    }
  }

  /** Any other event rewrites at most one task. */
  function Touched<Op>(s: State<Op>, e: Event<Op>): Option<nat>
    requires Enabled(s, e)
  {
    if CallerEvent(e) then Some(e.t)
    else if e.Take? then Some(s.queue[0])
    else if CarryingEvent(e) || ReportingEvent(e) then Some(s.worker.task)
    else None
  }

  /** The counters move exactly as the one touched task does. */
  ghost predicate Balanced<Op>(s: State<Op>, n: State<Op>, t: nat)
    requires t < |s.tasks| == |n.tasks|
  {
    var before, after := s.tasks[t], n.tasks[t];
    && n.tasks == s.tasks[t := after]
    && n.metrics.submitted == s.metrics.submitted
    && (n.metrics.queueDepth == |n.queue| || (|n.queue| == |s.queue| && n.metrics.queueDepth == s.metrics.queueDepth))
    && |n.queue| - |s.queue| == One(after.account == Queued) - One(before.account == Queued)
    && n.metrics.succeeded - s.metrics.succeeded == One(after.account == Succeeded) - One(before.account == Succeeded)
    && n.metrics.failed - s.metrics.failed == One(after.account == Failed) - One(before.account == Failed)
    && n.metrics.cancelled - s.metrics.cancelled == One(after.account == Dropped) - One(before.account == Dropped)
    && n.metrics.timedOut - s.metrics.timedOut
         == One(Matches(TimeoutReturned, after)) - One(Matches(TimeoutReturned, before))
    && One(Uncounted(n.worker)) - One(Uncounted(s.worker))
         == One(after.account == InFlight) - One(before.account == InFlight)
    && n.metrics.started - s.metrics.started == |s.queue| - |n.queue|
    && (before.promise == Some(ByStop) <==> after.promise == Some(ByStop))
  }

  lemma BalancedKeepsMetrics<Op>(s: State<Op>, n: State<Op>, t: nat)
    requires t < |s.tasks| == |n.tasks| && Balanced(s, n, t) && MetricsExact(s)
    ensures MetricsExact(n)
  {
    CountsUpdate(s.tasks, t, n.tasks[t]);
  }

  /** The part of Core that the worker's own steps need. */
  ghost predicate Held<Op>(s: State<Op>) {
    WorkerHolds(s.worker) && s.worker.task < |s.tasks| && HeldTask(s.worker, s.tasks[s.worker.task])
  }

  lemma WaitBalanced<Op>(s: State<Op>, e: Event<Op>)
    requires Enabled(s, e) && (e.Expire? || e.SetFlag?)
    ensures |Next(s, e).tasks| == |s.tasks| && Balanced(s, Next(s, e), e.t)
  {
  }

  lemma ReturnBalanced<Op>(s: State<Op>, e: Event<Op>)
    requires Enabled(s, e) && (e.CountTimeout? || e.Collect?)
    ensures |Next(s, e).tasks| == |s.tasks| && Balanced(s, Next(s, e), e.t)
  {
  }

  lemma TakeBalanced<Op>(s: State<Op>)
    requires Core(s) && Enabled(s, Take)
    ensures |WorkerTook(s).tasks| == |s.tasks| && Balanced(s, WorkerTook(s), s.queue[0])
  {
  }

  lemma CarryingBalanced<Op>(s: State<Op>, e: Event<Op>)
    requires Enabled(s, e) && CarryingEvent(e) && Held(s)
    ensures |Next(s, e).tasks| == |s.tasks| && Balanced(s, Next(s, e), s.worker.task)
  {
    assert s.tasks == s.tasks[s.worker.task := s.tasks[s.worker.task]];
  }

  lemma SkipBalanced<Op>(s: State<Op>, e: Event<Op>)
    requires Enabled(s, e) && (e.SkipFulfil? || e.SkipCount?) && Held(s)
    ensures |Next(s, e).tasks| == |s.tasks| && Balanced(s, Next(s, e), s.worker.task)
  {
  }

  lemma ReportBalanced<Op>(s: State<Op>, e: Event<Op>)
    requires Enabled(s, e) && (e.CheckFlag? || e.Publish?) && Held(s)
    ensures |Next(s, e).tasks| == |s.tasks| && Balanced(s, Next(s, e), s.worker.task)
  {
    assert s.tasks == s.tasks[s.worker.task := s.tasks[s.worker.task]];
  }

  lemma AccountBalanced<Op>(s: State<Op>)
    requires Enabled(s, AccountJob) && Held(s)
    ensures |JobAccounted(s).tasks| == |s.tasks| && Balanced(s, JobAccounted(s), s.worker.task)
  {
  }

  lemma SessionKeepsMetrics<Op>(s: State<Op>, e: Event<Op>)
    requires Core(s) && MetricsExact(s) && Enabled(s, e) && SessionEvent(e)
    ensures MetricsExact(Next(s, e))
  {
  }

  lemma TouchedBalanced<Op>(s: State<Op>, e: Event<Op>)
    requires Core(s) && Enabled(s, e) && Touched(s, e).Some?
    ensures Touched(s, e).value < |s.tasks| == |Next(s, e).tasks|
    ensures Balanced(s, Next(s, e), Touched(s, e).value)
  {
    if e.Expire? || e.SetFlag? {
      WaitBalanced(s, e);
    } else if CallerEvent(e) {
      ReturnBalanced(s, e);
    } else if e.SkipFulfil? || e.SkipCount? {
      SkipBalanced(s, e);
    } else if e.AccountJob? {
      AccountBalanced(s);
    } else if ReportingEvent(e) {
      ReportBalanced(s, e);
    } else if e.Take? {
      TakeBalanced(s);
    } else {
      CarryingBalanced(s, e);
    }
  }

  lemma StepKeepsMetrics<Op>(s: State<Op>, e: Event<Op>)
    requires Core(s) && MetricsExact(s) && Enabled(s, e)
    ensures MetricsExact(Next(s, e))
  {
    if e.Submit? {
      SubmitKeepsMetrics(s, e.bounded);
    } else if e.StopBegin? {
      if s.ctl.running {
        StopKeepsMetrics(s);
      }
    } else if SessionEvent(e) {
      SessionKeepsMetrics(s, e);
    } else {
      TouchedBalanced(s, e);
      BalancedKeepsMetrics(s, Next(s, e), Touched(s, e).value);
    }
  }
}
