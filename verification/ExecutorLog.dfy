/** The bus log is always whole jobs, one after another, in submission order. */
module ExecutorLog {
  import opened Statuses
  import opened ExecutorModel
  import opened ExecutorCore

  function Entries<Op>(t: nat, ops: seq<Op>): seq<Entry<Op>> {
    seq(|ops|, i requires 0 <= i < |ops| => Entry(t, ops[i], true))
  }

  /** The log of jobs carried out whole, one after another, on an open bus. */
  function Flatten<Op>(done: seq<Block<Op>>): seq<Entry<Op>> {
    if done == [] then []
    else
      var last := done[|done| - 1];
      Flatten(done[..|done| - 1]) + Entries(last.task, last.ops)
  }

  ghost predicate ResultIs<Op>(tasks: seq<Task>, b: Block<Op>) {
    b.task < |tasks| && tasks[b.task].result == Some(b.status)
  }

  ghost predicate LogWhole<Op>(s: State<Op>) {
    && s.past.log == Flatten(s.past.done) + (if s.worker.Running? then Entries(s.worker.task, s.worker.ops) else [])
    && DoneInOrder(s.past.done, s.tasks, Head(s))
    && (CarryingOut(s.worker) ==> forall i :: 0 <= i < |s.past.done| ==> s.past.done[i].task < s.worker.task)
  }

  lemma InitialLog<Op>(s: State<Op>)
    requires s == Initial(s.ctl.hasBus)
    ensures LogWhole(s)
  {
  }

  lemma BeginKeepsLog<Op>(s: State<Op>, atMost: nat)
    requires Core(s) && LogWhole(s) && Enabled(s, Begin(atMost))
    ensures LogWhole(WorkerBegan(s, atMost))
  {
    assert Entries<Op>(s.worker.task, []) == [];
  }

  lemma EmitKeepsLog<Op>(s: State<Op>, op: Op)
    requires Core(s) && LogWhole(s) && Enabled(s, Emit(op))
    ensures LogWhole(JobEmitted(s, op))
  {
    var t := s.worker.task;
    assert Entries(t, s.worker.ops + [op]) == Entries(t, s.worker.ops) + [Entry(t, op, true)];
  }

  lemma FlattenAppend<Op>(done: seq<Block<Op>>, b: Block<Op>)
    ensures Flatten(done + [b]) == Flatten(done) + Entries(b.task, b.ops)
  {
  }

  /** The part of LogWhole about the jobs that ended. */
  ghost predicate DoneInOrder<Op>(done: seq<Block<Op>>, tasks: seq<Task>, head: int) {
    && (forall i, j :: 0 <= i < j < |done| ==> done[i].task < done[j].task)
    && (forall i :: 0 <= i < |done| ==> done[i].task < head)
    && (forall i :: 0 <= i < |done| ==> ResultIs(tasks, done[i]))
  }

  lemma OneMoreDone<Op>(done: seq<Block<Op>>, tasks: seq<Task>, head: int, b: Block<Op>, task: Task)
    requires DoneInOrder(done, tasks, head) && b.task < head && b.task < |tasks| && task.result == Some(b.status)
    requires forall i :: 0 <= i < |done| ==> done[i].task < b.task
    ensures DoneInOrder(done + [b], tasks[b.task := task], head)
  {
    var n := done + [b];
    forall i | 0 <= i < |n| ensures ResultIs(tasks[b.task := task], n[i]) {
      assert i < |done| ==> n[i] == done[i] && ResultIs(tasks, done[i]);
    }
  }

  /** The running job's operations become the last block. */
  lemma ReturnFlattens<Op>(log: seq<Entry<Op>>, done: seq<Block<Op>>, t: nat, ops: seq<Op>, status: Status)
    requires log == Flatten(done) + Entries(t, ops)
    ensures log == Flatten(done + [Block(t, ops, status)])
  {
    FlattenAppend(done, Block(t, ops, status));
  }

  lemma ReturnKeepsLog<Op>(s: State<Op>, status: Status)
    requires Core(s) && LogWhole(s) && Enabled(s, JobReturns(status))
    ensures LogWhole(JobReturned(s, status))
  {
    var t := s.worker.task;
    ReturnFlattens(s.past.log, s.past.done, t, s.worker.ops, status);
    OneMoreDone(s.past.done, s.tasks, Head(s), Block(t, s.worker.ops, status), s.tasks[t].(result := Some(status)));
  }

  /** A step that leaves the log alone: no operation, no job ended, no result changed,
      and a task newly in hand is the one that was at the head of the queue. */
  ghost predicate LogAlone<Op>(s: State<Op>, n: State<Op>) {
    && n.past.log == s.past.log && n.past.done == s.past.done
    && Head(s) <= Head(n) && |s.tasks| <= |n.tasks|
    && (forall t :: 0 <= t < |s.tasks| ==> n.tasks[t].result == s.tasks[t].result)
    && (s.worker.Running? || n.worker.Running? ==> n.worker == s.worker)
    && (n.worker.Popped? ==> n.worker == s.worker || n.worker.task == Head(s))
  }

  lemma LogAloneKeepsLog<Op>(s: State<Op>, n: State<Op>)
    requires LogWhole(s) && LogAlone(s, n)
    ensures LogWhole(n)
  {
  }

  lemma StopLeavesLog<Op>(s: State<Op>)
    requires Core(s) && s.ctl.stopper.NoStop?
    ensures LogAlone(s, StopBegun(s))
  {
    if s.ctl.running {
      CancelAllEffect(StopFlagged(s), s.queue, Head(s));
    }
  }

  predicate JobEvent<Op>(e: Event<Op>) { e.Begin? || e.Emit? || e.JobReturns? }

  lemma CallersLeaveLog<Op>(s: State<Op>, e: Event<Op>)
    requires Enabled(s, e) && CallerEvent(e)
    ensures LogAlone(s, Next(s, e))
  {
  }

  lemma WorkerLeavesLog<Op>(s: State<Op>, e: Event<Op>)
    requires Enabled(s, e) && (e.SeeFlag? || ReportingEvent(e))
    ensures LogAlone(s, Next(s, e))
  {
  }

  lemma OthersLeaveLog<Op>(s: State<Op>, e: Event<Op>)
    requires Core(s) && Enabled(s, e) && !e.StopBegin? && !JobEvent(e)
    ensures LogAlone(s, Next(s, e))
  {
    if CallerEvent(e) {
      CallersLeaveLog(s, e);
    } else if e.SeeFlag? || ReportingEvent(e) {
      WorkerLeavesLog(s, e);
    }
  }

  lemma JobKeepsLog<Op>(s: State<Op>, e: Event<Op>)
    requires Core(s) && LogWhole(s) && Enabled(s, e) && JobEvent(e)
    ensures LogWhole(Next(s, e))
  {
    if e.Begin? {
      BeginKeepsLog(s, e.atMost);
    } else if e.Emit? {
      EmitKeepsLog(s, e.op);
    } else {
      ReturnKeepsLog(s, e.status);
    }
  }

  lemma StepKeepsLog<Op>(s: State<Op>, e: Event<Op>)
    requires Core(s) && LogWhole(s) && Enabled(s, e)
    ensures LogWhole(Next(s, e))
  {
    if JobEvent(e) {
      JobKeepsLog(s, e);
    } else {
      if e.StopBegin? {
        StopLeavesLog(s);
      } else {
        OthersLeaveLog(s, e);
      }
      LogAloneKeepsLog(s, Next(s, e));
    }
  }
}
