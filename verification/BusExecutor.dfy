/** The executor object itself: the sections of src/i2c/bus_executor.cpp that run under
    the mutex and the steps between them, each proved to be one event of the protocol, whose
    invariants therefore hold of the object between any two of them; and a pass of
    `worker_loop`, `submit` and `stop`, put together from those steps. */
module BusExecutor {
  import opened Statuses
  import opened ExecutorModel
  import opened ExecutorCore
  import opened ExecutorLog
  import opened ExecutorTheorems

  class Executor<Op(!new)> {
    var hasBus: bool
    var busOpen: bool
    var running: bool
    var stopping: bool
    var stopper: Stopper
    var queue: seq<nat>
    var tasks: seq<Task>
    var metrics: Metrics
    var worker: Worker<Op>
    var past: Past<Op>

    ghost function View(): State<Op>
      reads this
    {
      State(Control(hasBus, busOpen, running, stopping, stopper), queue, tasks, metrics, worker, past)
    }

    ghost predicate Valid()
      reads this
    {
      Core(View())
    }

    constructor (withBus: bool)
      ensures View() == Initial(withBus) && Valid()
    {
      hasBus, busOpen, running, stopping, stopper := withBus, false, false, false, NoStop;
      queue, tasks, metrics, worker, past := [], [], NO_METRICS, Absent, Past([], [], 0, 0);
      new;
      InitialCore(View());
    }

    /** `start`, with the outcome `opens` of opening the bus. */
    method StartSession(opens: bool, error: string) returns (status: Status)
      requires Valid()
      modifies this
      ensures View() == Next(old(View()), Start(opens, error)) && Valid()
      ensures status.IsOk() ==> running && hasBus
      ensures status.IsOk() <==> old(running) || (old(hasBus) && opens)
    {
      ghost var before := View();
      if running {
        status := OK;
      } else if !hasBus {
        status := Status(Internal, "missing bus");
      } else if !opens {
        metrics := metrics.(lastError := error);
        status := Status(Unavailable, error);
      } else {
        stopping := false;
        running := true;
        busOpen := true;
        worker := Idle;
        status := OK;
      }
      StepKeepsCore(before, Start(opens, error));
    }

    /** The locked part of `submit`: refuse, or admit the task at the end of the queue. */
    method Admit(bounded: bool) returns (ticket: Option<nat>)
      requires Valid()
      modifies `tasks, `queue, `metrics
      ensures View() == Next(old(View()), Submit(bounded)) && Valid()
      ensures ticket.Some? <==> running && !stopping
      ensures ticket.Some? ==> ticket.value == |old(tasks)| && queue == old(queue) + [ticket.value]
    {
      ghost var before := View();
      if !running || stopping {
        ticket := None;
      } else {
        ticket := Some(|tasks|);
        tasks := tasks + [Task(bounded, false, None, Waiting, 0, None, Queued)];
        metrics := metrics.(submitted := metrics.submitted + 1);
        queue := queue + [ticket.value];
        metrics := metrics.(queueDepth := |queue|);
      }
      StepKeepsCore(before, Submit(bounded));
    }

    /** The locked part of `submit` after the caller has stored its flag. */
    method CountTimedOut(t: nat)
      requires Valid() && Enabled(View(), CountTimeout(t))
      modifies `tasks, `metrics
      ensures View() == Next(old(View()), CountTimeout(t)) && Valid()
    {
      ghost var before := View();
      metrics := metrics.(timedOut := metrics.timedOut + 1);
      metrics := metrics.(lastError := TIMED_OUT.message);
      tasks := tasks[t := tasks[t].(caller := Returned(DeadlinePassed))];
      StepKeepsCore(before, CountTimeout(t));
    }

    /** `safe_set_promise`. */
    method Fulfil(t: nat, f: Fulfilment)
      requires t < |tasks|
      modifies `tasks, `past
      ensures View() == SetPromise(old(View()), t, f)
    {
      if tasks[t].promise == None {
        tasks := tasks[t := tasks[t].(promise := Some(f))];
      } else {
        past := past.(doubleSets := past.doubleSets + 1);
      }
    }

    /** The cancel loop of `stop`. */
    method CancelEach(tickets: seq<nat>)
      requires forall i :: 0 <= i < |tickets| ==> tickets[i] < |tasks|
      modifies `tasks, `metrics, `past
      ensures View() == CancelAll(old(View()), tickets)
    {
      ghost var before := View();
      var pending: seq<nat> := tickets;
      while pending != []
        invariant |tasks| == |before.tasks|
        invariant forall i :: 0 <= i < |pending| ==> pending[i] < |tasks|
        invariant CancelAll(View(), pending) == CancelAll(before, tickets)
        decreases |pending|
      {
        var t := pending[0];
        pending := pending[1..];
        Fulfil(t, ByStop);
        tasks := tasks[t := tasks[t].(account := Dropped)];
        metrics := metrics.(cancelled := metrics.cancelled + 1);
      }
    }

    /** The locked part of `stop`: swap the queue out and cancel everything in it. */
    method CancelPending()
      requires Valid() && stopper.NoStop? && running
      modifies this
      ensures View() == Next(old(View()), StopBegin) && Valid()
      ensures past.doubleSets == 0 && queue == [] && stopper.Joining?
    {
      ghost var before := View();
      var pending := queue;
      stopping := true;
      stopper := Joining;
      queue := [];
      past := past.(finishedSinceStop := 0);
      metrics := metrics.(queueDepth := 0);
      assert View() == StopFlagged(before);
      CancelEach(pending);
      StepKeepsCore(before, StopBegin);
    }

    /** The end of `stop`, after the worker has been joined and the bus closed. */
    method EndSession()
      requires Valid() && stopper.Finishing?
      modifies `running, `stopping, `stopper
      ensures View() == Next(old(View()), StopFinish) && Valid()
      ensures !running && forall t :: 0 <= t < |tasks| ==> tasks[t].promise.Some?
    {
      ghost var before := View();
      running := false;
      stopping := false;
      stopper := NoStop;
      StepKeepsCore(before, StopFinish);
    }

    /** The locked part of `worker_loop`: take the head of the queue, or exit. */
    method TakeNext() returns (task: Option<nat>)
      requires Valid() && worker.Idle? && (stopping || queue != [])
      modifies `tasks, `queue, `metrics, `worker
      ensures View() == Next(old(View()), if old(queue) == [] then WorkerExit else Take) && Valid()
      ensures task.None? <==> stopping
      ensures task.Some? ==> [task.value] + queue == old(queue)
    {
      ghost var before := View();
      if stopping && queue == [] {
        worker := Exited;
        task := None;
        StepKeepsCore(before, WorkerExit);
      } else {
        task := Some(queue[0]);
        queue := queue[1..];
        metrics := metrics.(queueDepth := |queue|);
        metrics := metrics.(started := metrics.started + 1);
        tasks := tasks[task.value := tasks[task.value].(account := InFlight)];
        worker := Popped(task.value);
        StepKeepsCore(before, Take);
      }
    }

    /** The locked accounting after a job whose caller had not given up when the worker
        looked at the flag. */
    method AccountResult()
      requires Valid() && worker.Accounting?
      modifies `tasks, `metrics, `worker
      ensures View() == Next(old(View()), AccountJob) && Valid()
    {
      ghost var before := View();
      var t, status := worker.task, worker.status;
      if status.IsOk() {
        metrics := metrics.(succeeded := metrics.succeeded + 1);
        tasks := tasks[t := tasks[t].(account := Succeeded)];
      } else {
        metrics := metrics.(failed := metrics.failed + 1);
        metrics := metrics.(lastError := status.message);
        tasks := tasks[t := tasks[t].(account := Failed)];
      }
      worker := Publishing(t, status);
      StepKeepsCore(before, AccountJob);
    }

    // ---- The steps outside the lock -------------------------------------------------------

    /** `wait_for` returns without a value. */
    method GiveUp(t: nat)
      requires Valid() && Enabled(View(), Expire(t))
      modifies `tasks
      ensures View() == Next(old(View()), Expire(t)) && Valid()
    {
      ghost var before := View();
      tasks := tasks[t := tasks[t].(caller := Expired)];
      StepKeepsCore(before, Expire(t));
    }

    /** The caller stores its flag. */
    method StoreFlag(t: nat)
      requires Valid() && Enabled(View(), SetFlag(t))
      modifies `tasks
      ensures View() == Next(old(View()), SetFlag(t)) && Valid()
    {
      ghost var before := View();
      tasks := tasks[t := tasks[t].(flagged := true, caller := Flagged)];
      StepKeepsCore(before, SetFlag(t));
    }

    /** `future.get` on a fulfilled promise. */
    method CollectResult(t: nat) returns (status: Status)
      requires Valid() && Enabled(View(), Collect(t))
      modifies `tasks
      ensures View() == Next(old(View()), Collect(t)) && Valid()
      ensures status == StoredStatus(old(tasks)[t].promise.value)
    {
      ghost var before := View();
      var f := tasks[t].promise.value;
      tasks := tasks[t := tasks[t].(caller := Returned(Collected(f)))];
      status := StoredStatus(f);
      StepKeepsCore(before, Collect(t));
    }

    /** The worker looks at the flag of the task it has taken: it skips the task or begins its
        job, which performs at most `atMost` operations. */
    method SkipOrBegin(atMost: nat) returns (skip: bool)
      requires Valid() && worker.Popped?
      modifies `tasks, `worker
      ensures skip == old(tasks)[old(worker).task].flagged
      ensures View() == Next(old(View()), if skip then SeeFlag else Begin(atMost)) && Valid()
    {
      ghost var before := View();
      var t := worker.task;
      skip := tasks[t].flagged;
      if skip {
        worker := Skipping(t);
        StepKeepsCore(before, SeeFlag);
      } else {
        tasks := tasks[t := tasks[t].(runs := tasks[t].runs + 1)];
        worker := Running(t, atMost, []);
        StepKeepsCore(before, Begin(atMost));
      }
    }

    /** One bus operation of the running job. */
    method PerformOp(op: Op)
      requires Valid() && worker.Running? && worker.left > 0
      modifies `worker, `past
      ensures View() == Next(old(View()), Emit(op)) && Valid()
    {
      ghost var before := View();
      past := past.(log := past.log + [Entry(worker.task, op, busOpen)]);
      worker := Running(worker.task, worker.left - 1, worker.ops + [op]);
      StepKeepsCore(before, Emit(op));
    }

    /** The job returns. */
    method FinishJob(status: Status)
      requires Valid() && worker.Running?
      modifies `tasks, `worker, `past
      ensures View() == Next(old(View()), JobReturns(status)) && Valid()
    {
      ghost var before := View();
      var t, ops := worker.task, worker.ops;
      tasks := tasks[t := tasks[t].(result := Some(status))];
      past := past.(done := past.done + [Block(t, ops, status)],
                    finishedSinceStop := past.finishedSinceStop + if stopping then 1 else 0);
      worker := Finished(t, status);
      StepKeepsCore(before, JobReturns(status));
    }

    /** The worker looks at the flag again before it accounts for the job. */
    method LookAgain() returns (late: bool)
      requires Valid() && worker.Finished?
      modifies `tasks, `worker
      ensures View() == Next(old(View()), CheckFlag) && Valid()
      ensures late == old(tasks)[old(worker).task].flagged
      ensures if late then worker.Publishing? else worker.Accounting?
    {
      ghost var before := View();
      var t, status := worker.task, worker.status;
      late := tasks[t].flagged;
      if late {
        tasks := tasks[t := tasks[t].(account := Late)];
        worker := Publishing(t, status);
      } else {
        worker := Accounting(t, status);
      }
      StepKeepsCore(before, CheckFlag);
    }

    /** The job's status goes into the promise. */
    method PublishResult()
      requires Valid() && worker.Publishing?
      modifies `tasks, `past, `worker
      ensures View() == Next(old(View()), Publish) && Valid()
    {
      ghost var before := View();
      Fulfil(worker.task, ByJob(worker.status));
      worker := Idle;
      StepKeepsCore(before, Publish);
    }

    /** A task to be skipped has its promise fulfilled. */
    method FulfilSkipped()
      requires Valid() && worker.Skipping?
      modifies `tasks, `past, `worker
      ensures View() == Next(old(View()), SkipFulfil) && Valid()
    {
      ghost var before := View();
      Fulfil(worker.task, BySkip);
      worker := SkipCounting(worker.task);
      StepKeepsCore(before, SkipFulfil);
    }

    /** ... and is then counted, under the lock. */
    method CountSkipped()
      requires Valid() && worker.SkipCounting?
      modifies `tasks, `metrics, `worker
      ensures View() == Next(old(View()), SkipCount) && Valid()
    {
      ghost var before := View();
      var t := worker.task;
      metrics := metrics.(cancelled := metrics.cancelled + 1);
      tasks := tasks[t := tasks[t].(account := Dropped)];
      worker := Idle;
      StepKeepsCore(before, SkipCount);
    }

    /** `join` returns. */
    method JoinWorker()
      requires Valid() && stopper.Joining? && worker.Exited?
      modifies `worker, `stopper
      ensures View() == Next(old(View()), StopJoin) && Valid()
    {
      ghost var before := View();
      worker := Absent;
      stopper := Closing;
      StepKeepsCore(before, StopJoin);
    }

    /** The bus is closed, the worker being gone. */
    method CloseBus()
      requires Valid() && stopper.Closing?
      modifies `busOpen, `stopper
      ensures View() == Next(old(View()), StopClose) && Valid()
    {
      ghost var before := View();
      busOpen := false;
      stopper := Finishing;
      StepKeepsCore(before, StopClose);
    }

    // ---- One pass of worker_loop ------------------------------------------------------------

    /** The bus operations of a job, one after another. */
    method PerformAll(ops: seq<Op>)
      requires Valid() && worker.Running? && worker.left == |ops| && worker.ops == []
      modifies `worker, `past
      ensures Valid() && Leads(old(View()), View())
      ensures worker == Running(old(worker).task, 0, ops)
      ensures past == old(past).(log := old(past).log + Entries(old(worker).task, ops))
    {
      ghost var start := View();
      LeadsNowhere(start);
      var t, i := worker.task, 0;
      assert Entries<Op>(t, ops[..0]) == [];
      while i < |ops|
        invariant 0 <= i <= |ops| && Valid() && Leads(start, View())
        invariant worker == Running(t, |ops| - i, ops[..i])
        invariant past == start.past.(log := start.past.log + Entries(t, ops[..i]))
      {
        ghost var now := View();
        PerformOp(ops[i]);
        LeadsOn(start, now, Emit(ops[i]));
        assert ops[..i] + [ops[i]] == ops[..i + 1];
        assert Entries(t, ops[..i]) + [Entry(t, ops[i], true)] == Entries(t, ops[..i + 1]);
        i := i + 1;
      }
      assert ops[..i] == ops;
    }

    /** A task that is not skipped has its job begun, and its operations performed. */
    method BeginTask(ops: seq<Op>)
      requires Valid() && worker.Popped? && !tasks[worker.task].flagged
      modifies `tasks, `worker, `past
      ensures Valid() && Leads(old(View()), View())
      ensures worker == Running(old(worker).task, 0, ops) && |tasks| == |old(tasks)|
      ensures past == old(past).(log := old(past).log + Entries(old(worker).task, ops))
    {
      ghost var start := View();
      LeadsNowhere(start);
      var skip := SkipOrBegin(|ops|);
      LeadsOn(start, start, Begin(|ops|));
      ghost var begun := View();
      PerformAll(ops);
      LeadsThrough(start, begun, View());
    }

    /** The job of a task that is not skipped, from beginning to end. */
    method RunTask(ops: seq<Op>, status: Status)
      requires Valid() && worker.Popped? && !tasks[worker.task].flagged
      modifies `tasks, `worker, `past
      ensures Valid() && Leads(old(View()), View())
      ensures var t := old(worker).task;
        && worker == Finished(t, status) && |tasks| == |old(tasks)|
        && past.done == old(past).done + [Block(t, ops, status)]
        && past.log == old(past).log + Entries(t, ops)
    {
      ghost var start := View();
      BeginTask(ops);
      ghost var ended := View();
      FinishJob(status);
      LeadsOn(start, ended, JobReturns(status));
    }

    /** From the end of a job to the promise: account for it, unless its caller has given up, and
        publish its status. */
    method ReportTask()
      requires Valid() && worker.Finished?
      modifies `tasks, `metrics, `worker, `past
      ensures Valid() && Leads(old(View()), View())
      ensures var t := old(worker).task;
        && worker.Idle? && |tasks| == |old(tasks)|
        && tasks[t].promise == Some(ByJob(old(worker).status))
        && past.done == old(past).done && past.log == old(past).log
    {
      ghost var start := View();
      LeadsNowhere(start);
      var late := LookAgain();
      LeadsOn(start, start, CheckFlag);
      if !late {
        ghost var now := View();
        AccountResult();
        LeadsOn(start, now, AccountJob);
      }
      ghost var now := View();
      PublishResult();
      LeadsOn(start, now, Publish);
    }

    /** A task whose caller had given up. */
    method SkipTask()
      requires Valid() && worker.Skipping?
      modifies `tasks, `metrics, `worker, `past
      ensures Valid() && Leads(old(View()), View())
      ensures var t := old(worker).task;
        && worker.Idle? && |tasks| == |old(tasks)|
        && tasks[t].promise == Some(BySkip) && past.done == old(past).done && past.log == old(past).log
    {
      ghost var start := View();
      LeadsNowhere(start);
      FulfilSkipped();
      LeadsOn(start, start, SkipFulfil);
      ghost var now := View();
      CountSkipped();
      LeadsOn(start, now, SkipCount);
    }

    /** A task in hand: skipped if its caller has given up, else run and reported. */
    method HandleTask(jobs: nat -> (seq<Op>, Status))
      requires Valid() && worker.Popped?
      modifies `tasks, `metrics, `worker, `past
      ensures Valid() && Leads(old(View()), View())
      ensures var t := old(worker).task;
        var skipped := old(tasks)[t].flagged;
        && worker.Idle? && |tasks| == |old(tasks)|
        && tasks[t].promise == Some(if skipped then BySkip else ByJob(jobs(t).1))
        && past.log == old(past).log + (if skipped then [] else Entries(t, jobs(t).0))
    {
      ghost var start := View();
      var t := worker.task;
      LeadsNowhere(start);
      if tasks[t].flagged {
        var skip := SkipOrBegin(0);
        LeadsOn(start, start, SeeFlag);
        ghost var now := View();
        SkipTask();
        LeadsThrough(start, now, View());
      } else {
        RunTask(jobs(t).0, jobs(t).1);
        ghost var now := View();
        ReportTask();
        LeadsThrough(start, now, View());
      }
    }

    /** One pass of `worker_loop`, with nobody in between: the worker exits when it is stopping
        and the queue is empty; otherwise the task at the head of the queue leaves it, its promise
        is fulfilled, and its operations are on the bus, all of them or, if skipped, none. */
    method WorkerPass(jobs: nat -> (seq<Op>, Status)) returns (task: Option<nat>)
      requires Valid() && worker.Idle? && (stopping || queue != [])
      modifies this
      ensures Valid() && Leads(old(View()), View())
      ensures task.None? <==> old(queue) == []
      ensures task.None? ==> worker.Exited? && stopping
      ensures task.Some? ==>
        var t := task.value;
        && worker.Idle? && [t] + queue == old(queue) && |tasks| == |old(tasks)| && t < |tasks|
        && tasks[t].promise == Some(if old(tasks)[t].flagged then BySkip else ByJob(jobs(t).1))
        && past.log == old(past).log + (if old(tasks)[t].flagged then [] else Entries(t, jobs(t).0))
    {
      ghost var start := View();
      LeadsNowhere(start);
      task := TakeNext();
      LeadsOn(start, start, if start.queue == [] then WorkerExit else Take);
      if task.Some? {
        ghost var taken := View();
        HandleTask(jobs);
        LeadsThrough(start, taken, View());
      }
    }

    // ---- submit and stop, with the worker going on meanwhile ------------------------------------

    /** The worker can make a step: it is there, and not waiting for work. */
    predicate CanStep()
      reads this
    {
      !worker.Absent? && !worker.Exited? && (worker.Idle? ==> stopping || queue != [])
    }

    /** The worker's next step, whatever it is. */
    method WorkerStep(jobs: nat -> (seq<Op>, Status)) returns (ghost e: Event<Op>)
      requires Valid() && CanStep()
      modifies this
      ensures Enabled(old(View()), e) && WorkerEvent(e) && View() == Next(old(View()), e) && Valid()
    {
      if worker.Idle? {
        e := if queue == [] then WorkerExit else Take;
        var task := TakeNext();
      } else if worker.Popped? {
        var n := |jobs(worker.task).0|;
        e := if tasks[worker.task].flagged then SeeFlag else Begin(n);
        var skip := SkipOrBegin(n);
      } else if worker.Running? {
        var (ops, status) := jobs(worker.task);
        if worker.left > 0 && |worker.ops| < |ops| {
          e := Emit(ops[|worker.ops|]);
          PerformOp(ops[|worker.ops|]);
        } else {
          e := JobReturns(status);
          FinishJob(status);
        }
      } else {
        e := ReportStep();
      }
    }

    /** ... after the job, or for a task that is skipped. */
    method ReportStep() returns (ghost e: Event<Op>)
      requires Valid() && WorkerHolds(worker) && !worker.Popped? && !worker.Running?
      modifies this
      ensures Enabled(old(View()), e) && WorkerEvent(e) && View() == Next(old(View()), e) && Valid()
    {
      match worker
      case Skipping(_) =>
        e := SkipFulfil;
        FulfilSkipped();
      case SkipCounting(_) =>
        e := SkipCount;
        CountSkipped();
      case Finished(_, _) =>
        e := CheckFlag;
        var late := LookAgain();
      case Accounting(_, _) =>
        e := AccountJob;
        AccountResult();
      case Publishing(_, _) =>
        e := Publish;
        PublishResult();
    }

    /** The deadline path of `submit`, once `wait_for` has given up. */
    method TimeOut(t: nat) returns (status: Status)
      requires Valid() && Enabled(View(), Expire(t))
      modifies `tasks, `metrics
      ensures Valid() && Leads(old(View()), View())
      ensures |tasks| == |old(tasks)| && tasks[t].caller == Returned(DeadlinePassed) && status == TIMED_OUT
    {
      ghost var start := View();
      LeadsNowhere(start);
      GiveUp(t);
      LeadsOn(start, start, Expire(t));
      ghost var expired := View();
      StoreFlag(t);
      LeadsOn(start, expired, SetFlag(t));
      ghost var stored := View();
      CountTimedOut(t);
      LeadsOn(start, stored, CountTimeout(t));
      status := TIMED_OUT;
    }

    /** `submit`, the worker making its steps while the caller waits, the caller with a deadline
        giving up after `patience` of them: it returns, refused exactly when the executor is not
        running or stopping, and otherwise with what OutcomeTruth is about. */
    method SubmitJob(bounded: bool, patience: nat, jobs: nat -> (seq<Op>, Status))
      returns (status: Status, ticket: Option<nat>)
      requires Valid()
      modifies this
      ensures Valid() && Leads(old(View()), View())
      ensures ticket.None? <==> !old(running) || old(stopping)
      ensures ticket.None? ==> View() == old(View()) && status == NOT_RUNNING
      ensures ticket.Some? ==>
        var t := ticket.value;
        t == |old(tasks)| < |tasks| && tasks[t].caller.Returned? && status == ReturnedStatus(tasks[t].caller.how)
    {
      ghost var start := View();
      LeadsNowhere(start);
      ticket := Admit(bounded);
      LeadsOn(start, start, Submit(bounded));
      if ticket.None? {
        return NOT_RUNNING, None;
      }
      ghost var admitted := View();
      status := AwaitTask(ticket.value, patience, jobs);
      LeadsThrough(start, admitted, View());
    }

    /** The wait of `submit`. */
    method AwaitTask(t: nat, patience: nat, jobs: nat -> (seq<Op>, Status)) returns (status: Status)
      requires Valid() && running && !stopping && t < |tasks| && tasks[t].caller == Waiting
      modifies this
      ensures Valid() && Leads(old(View()), View()) && |tasks| == |old(tasks)|
      ensures tasks[t].caller.Returned? && status == ReturnedStatus(tasks[t].caller.how)
    {
      ghost var start := View();
      LeadsNowhere(start);
      var left := patience;
      while tasks[t].promise.None?
        invariant Valid() && running && !stopping && Leads(start, View())
        invariant |tasks| == |start.tasks| && tasks[t].caller == Waiting
        decreases |queue|, Distance(worker).0, Distance(worker).1
      {
        ghost var now := View();
        if tasks[t].bounded && left == 0 {
          status := TimeOut(t);
          LeadsThrough(start, now, View());
          return;
        }
        left := if left > 0 then left - 1 else 0;
        PendingIsWorkable(now, t);
        ghost var e := WorkerStep(jobs);
        LeadsOn(start, now, e);
        WorkerProgresses(now, e);
        WorkerLeavesCallers(now, e, t);
      }
      ghost var ready := View();
      status := CollectResult(t);
      LeadsOn(start, ready, Collect(t));
    }

    /** The first locked part of `stop`. */
    method BeginStop() returns (joining: bool)
      requires Valid() && stopper.NoStop?
      modifies this
      ensures View() == Next(old(View()), StopBegin) && Valid()
      ensures joining == old(running) && (joining ==> stopper.Joining?)
    {
      joining := running;
      if joining {
        CancelPending();
      } else {
        ghost var before := View();
        busOpen := false;
        StepKeepsCore(before, StopBegin);
      }
    }

    /** The worker goes on until it exits. */
    method AwaitExit(jobs: nat -> (seq<Op>, Status))
      requires Valid() && stopper.Joining?
      modifies this
      ensures Valid() && Leads(old(View()), View()) && stopper.Joining? && worker.Exited?
    {
      ghost var start := View();
      LeadsNowhere(start);
      while !worker.Exited?
        invariant Valid() && stopper.Joining? && Leads(start, View())
        decreases |queue|, Distance(worker).0, Distance(worker).1
      {
        ghost var now := View();
        ghost var e := WorkerStep(jobs);
        LeadsOn(start, now, e);
        WorkerProgresses(now, e);
      }
    }

    /** The part of `stop` after the worker has exited. */
    method FinishStop()
      requires Valid() && stopper.Joining? && worker.Exited?
      modifies `worker, `stopper, `busOpen, `running, `stopping
      ensures Valid() && Leads(old(View()), View()) && !running && !busOpen
      ensures forall t :: 0 <= t < |tasks| ==> tasks[t].promise.Some?
    {
      ghost var start := View();
      LeadsNowhere(start);
      JoinWorker();
      LeadsOn(start, start, StopJoin);
      ghost var joined := View();
      CloseBus();
      LeadsOn(start, joined, StopClose);
      ghost var closed := View();
      EndSession();
      LeadsOn(start, closed, StopFinish);
    }

    /** `stop`: it returns, with the executor stopped, the bus closed and every promise ever made
        fulfilled. */
    method StopSession(jobs: nat -> (seq<Op>, Status))
      requires Valid() && stopper.NoStop?
      modifies this
      ensures Valid() && Leads(old(View()), View())
      ensures !running && !stopping && !busOpen && queue == []
      ensures forall t :: 0 <= t < |tasks| ==> tasks[t].promise.Some?
    {
      ghost var start := View();
      LeadsNowhere(start);
      var joining := BeginStop();
      LeadsOn(start, start, StopBegin);
      if joining {
        ghost var begun := View();
        AwaitExit(jobs);
        LeadsThrough(start, begun, View());
        ghost var exited := View();
        FinishStop();
        LeadsThrough(start, exited, View());
      }
    }
  }

  /** While some promise is still to be fulfilled, the worker of a running executor has work. */
  lemma PendingIsWorkable<Op>(s: State<Op>, t: nat)
    requires Core(s) && s.ctl.running && !s.ctl.stopping && t < |s.tasks| && s.tasks[t].promise.None?
    ensures !s.worker.Absent? && !s.worker.Exited? && (s.worker.Idle? ==> s.queue != [])
  {
  }
}
