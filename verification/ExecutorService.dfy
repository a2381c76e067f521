/** What one call of `submit` is on the service line: the executor's half of the link to the
    submissions the provider model is made of (ExecutorProvider). */
module ExecutorService {
  import opened Statuses
  import opened ServiceLine
  import opened ExecutorModel
  import opened ExecutorCore
  import opened ExecutorLog
  import opened ExecutorTheorems

  // ---- Whole runs --------------------------------------------------------------------

  ghost predicate CanAdvance<T, R>(line: Line<T, R>, ms: seq<Move<T, R>>)
    decreases |ms|
  {
    ms == [] || (Possible(line, ms[0]) && CanAdvance(Advance(line, ms[0]), ms[1..]))
  }

  ghost function Advanced<T, R>(line: Line<T, R>, ms: seq<Move<T, R>>): Line<T, R>
    requires CanAdvance(line, ms)
    decreases |ms|
  {
    if ms == [] then line else Advanced(Advance(line, ms[0]), ms[1..])
  }

  ghost function MovesOf<Op>(s: State<Op>, es: seq<Event<Op>>): seq<Move<nat, (seq<Op>, Status)>>
    requires CanRun(s, es)
    decreases |es|
  {
    if es == [] then [] else [MoveOf(s, es[0])] + MovesOf(Next(s, es[0]), es[1..])
  }

  /** Every schedule of the executor is a run of the serial line, move for event. */
  lemma {:induction false} RunRefinesLine<Op>(s: State<Op>, es: seq<Event<Op>>)
    requires Core(s) && CanRun(s, es)
    ensures CanAdvance(AsLine(s), MovesOf(s, es))
    ensures Advanced(AsLine(s), MovesOf(s, es)) == AsLine(Run(s, es))
    decreases |es|
  {
    if es != [] {
      StepKeepsCore(s, es[0]);
      RefinesServiceLine(s, es[0]);
      RunRefinesLine(Next(s, es[0]), es[1..]);
      assert MovesOf(s, es)[1..] == MovesOf(Next(s, es[0]), es[1..]);
    }
  }

  // ---- Every result is that of a served job ----------------------------------------------

  ghost predicate IsServed<Op>(done: seq<Block<Op>>, t: nat) {
    exists i :: 0 <= i < |done| && done[i].task == t
  }

  ghost predicate ResultsServed<Op>(s: State<Op>) {
    forall t :: 0 <= t < |s.tasks| && s.tasks[t].result.Some? ==> IsServed(s.past.done, t)
  }

  lemma JobKeepsServed<Op>(s: State<Op>, e: Event<Op>)
    requires Core(s) && ResultsServed(s) && Enabled(s, e) && JobEvent(e)
    ensures ResultsServed(Next(s, e)) && |Next(s, e).tasks| == |s.tasks|
  {
    var n := Next(s, e);
    forall t | 0 <= t < |n.tasks| && n.tasks[t].result.Some? ensures IsServed(n.past.done, t) {
      if e.JobReturns? && t == s.worker.task {
        assert n.past.done[|s.past.done|].task == t;
      } else {
        var i :| 0 <= i < |s.past.done| && s.past.done[i].task == t;
        assert n.past.done[i].task == t;
      }
    }
  }

  /** Only an accepted submission adds a task, and it adds one. */
  lemma TasksAdded<Op>(s: State<Op>, e: Event<Op>)
    requires Core(s) && Enabled(s, e) && !e.Submit?
    ensures |Next(s, e).tasks| == |s.tasks|
  {
    if e.StopBegin? && s.ctl.running {
      CancelAllEffect(StopFlagged(s), s.queue, Head(s));
    }
  }

  lemma StepKeepsServed<Op>(s: State<Op>, e: Event<Op>)
    requires Core(s) && ResultsServed(s) && Enabled(s, e)
    ensures ResultsServed(Next(s, e))
  {
    if JobEvent(e) {
      JobKeepsServed(s, e);
    } else {
      if e.StopBegin? {
        StopLeavesLog(s);
      } else {
        OthersLeaveLog(s, e);
      }
      if !e.Submit? {
        TasksAdded(s, e);
      }
    }
  }

  ghost predicate NoSubmits<Op>(es: seq<Event<Op>>) { forall i :: 0 <= i < |es| ==> !es[i].Submit? }

  ghost predicate Whole<Op>(s: State<Op>) { Core(s) && LogWhole(s) && ResultsServed(s) }

  lemma {:induction false} RunKeepsWhole<Op>(s: State<Op>, es: seq<Event<Op>>)
    requires Whole(s) && CanRun(s, es)
    ensures Whole(Run(s, es)) && (NoSubmits(es) ==> |Run(s, es).tasks| == |s.tasks|)
    decreases |es|
  {
    if es != [] {
      StepKeepsCore(s, es[0]);
      StepKeepsLog(s, es[0]);
      StepKeepsServed(s, es[0]);
      if NoSubmits(es) {
        TasksAdded(s, es[0]);
        assert NoSubmits(es[1..]);
      }
      RunKeepsWhole(Next(s, es[0]), es[1..]);
    }
  }

  lemma ReachableWhole<Op(!new)>(s: State<Op>)
    requires Reachable(s)
    ensures Whole(s)
  {
    var hasBus, es :| CanRun(Initial<Op>(hasBus), es) && Run(Initial<Op>(hasBus), es) == s;
    InitialCore(Initial<Op>(hasBus));
    InitialLog(Initial<Op>(hasBus));
    RunKeepsWhole(Initial<Op>(hasBus), es);
  }

  // ---- One submission --------------------------------------------------------------------

  /** How the newest task of a state stands on the line, by how its caller returned. */
  ghost predicate StandsAs<Op>(s: State<Op>, how: Return)
    requires s.tasks != []
  {
    var t, line := |s.tasks| - 1, AsLine(s);
    match how
    case Collected(ByJob(status)) =>
      line.waiting == [] && line.served != [] &&
      line.served[|line.served| - 1].0 == t && line.served[|line.served| - 1].1.1 == status
    case Collected(ByStop) => |line.waiting| <= 1 && t !in line.waiting && !IsServed(s.past.done, t)
    case Collected(BySkip) => false
    case DeadlinePassed => forall u :: u in line.waiting ==> u <= t
  }

  lemma NewestReturned<Op>(s: State<Op>)
    requires Whole(s) && s.tasks != [] && s.tasks[|s.tasks| - 1].caller.Returned?
    ensures StandsAs(s, s.tasks[|s.tasks| - 1].caller.how)
  {
  }

  lemma AdmittedWhole<Op(!new)>(s: State<Op>, bounded: bool)
    requires Reachable(s) && s.ctl.running && !s.ctl.stopping
    ensures Whole(Next(s, Submit(bounded))) && |Next(s, Submit(bounded)).tasks| == |s.tasks| + 1
  {
    ReachableWhole(s);
    StepKeepsCore(s, Submit(bounded));
    StepKeepsLog(s, Submit(bounded));
    StepKeepsServed(s, Submit(bounded));
  }

  /** A caller that submits, and nobody else does until its `submit` returns: if it is handed
      its job's status, that job was the last one served, with that status, and nothing is
      left in the line; if it is told of a stop, its job was not served and never will be,
      and at most the job the worker had in hand is still in the line; if its deadline
      passed, its job may still be there. These are the ways a submission ends in the
      provider model. */
  lemma SubmissionOnTheLine<Op(!new)>(s: State<Op>, bounded: bool, es: seq<Event<Op>>)
    requires Reachable(s) && s.ctl.running && !s.ctl.stopping
    requires CanRun(Next(s, Submit(bounded)), es) && NoSubmits(es)
    requires var r := Run(Next(s, Submit(bounded)), es); |s.tasks| < |r.tasks| && r.tasks[|s.tasks|].caller.Returned?
    ensures var r := Run(Next(s, Submit(bounded)), es);
      |r.tasks| == |s.tasks| + 1 && StandsAs(r, r.tasks[|s.tasks|].caller.how)
  {
    AdmittedWhole(s, bounded);
    RunKeepsWhole(Next(s, Submit(bounded)), es);
    NewestReturned(Run(Next(s, Submit(bounded)), es));
  }

  // ---- What becomes of the task at the end of the line ----------------------------------------

  lemma DoneKept<Op>(s: State<Op>, e: Event<Op>)
    requires Core(s) && Enabled(s, e) && !e.JobReturns?
    ensures Next(s, e).past.done == s.past.done
  {
    if e.StopBegin? {
      StopLeavesLog(s);
    }
  }

  ghost predicate OutOfLine<Op>(s: State<Op>, t: nat) { t !in AsLine(s).waiting && !IsServed(s.past.done, t) }

  lemma OutStaysOut<Op>(s: State<Op>, e: Event<Op>, t: nat)
    requires Core(s) && Enabled(s, e) && !e.Submit? && OutOfLine(s, t)
    ensures OutOfLine(Next(s, e), t)
  {
    RefinesServiceLine(s, e);
    if e.JobReturns? {
      assert s.worker.task == AsLine(s).waiting[0];
    } else {
      DoneKept(s, e);
    }
  }

  lemma {:induction false} RunKeepsFate<Op>(s: State<Op>, es: seq<Event<Op>>, t: nat)
    requires Core(s) && CanRun(s, es) && NoSubmits(es)
    ensures OutOfLine(s, t) ==> OutOfLine(Run(s, es), t)
    ensures IsServed(s.past.done, t) ==> IsServed(Run(s, es).past.done, t)
    decreases |es|
  {
    if es != [] {
      var n := Next(s, es[0]);
      StepKeepsCore(s, es[0]);
      assert NoSubmits(es[1..]);
      if OutOfLine(s, t) {
        OutStaysOut(s, es[0], t);
      }
      if IsServed(s.past.done, t) {
        var i :| 0 <= i < |s.past.done| && s.past.done[i].task == t;
        if !es[0].JobReturns? {
          DoneKept(s, es[0]);
        }
        assert n.past.done[i].task == t;
      }
      RunKeepsFate(n, es[1..], t);
    }
  }

  /** The task is at the end of the line, and nowhere else. */
  ghost predicate OnlyLast(waiting: seq<nat>, t: nat) {
    waiting != [] && waiting[|waiting| - 1] == t && forall i :: 0 <= i < |waiting| - 1 ==> waiting[i] != t
  }

  ghost predicate InLine<Op>(s: State<Op>, t: nat) { OnlyLast(AsLine(s).waiting, t) && !IsServed(s.past.done, t) }

  /** The move takes the last of n jobs away without carrying it out. */
  predicate Removes<T, R>(n: nat, m: Move<T, R>) { (m.PassOver? && n == 1) || (m.Dismiss? && m.keep < n) }

  lemma LastAfterMove<R>(line: Line<nat, R>, m: Move<nat, R>, t: nat)
    requires OnlyLast(line.waiting, t) && Possible(line, m) && !m.Join?
    ensures var n, after := |line.waiting|, Advance(line, m).waiting;
      if (m.Serve? && n == 1) || Removes(n, m) then t !in after else OnlyLast(after, t)
  {
  }

  lemma ServedByMove<Op>(s: State<Op>, e: Event<Op>, t: nat)
    requires Core(s) && Enabled(s, e) && InLine(s, t)
    ensures IsServed(Next(s, e).past.done, t) <==> MoveOf(s, e).Serve? && |AsLine(s).waiting| == 1
  {
    if e.JobReturns? {
      assert s.worker.task == AsLine(s).waiting[0];
      assert Next(s, e).past.done[|s.past.done|].task == s.worker.task;
    } else {
      DoneKept(s, e);
    }
  }

  /** What one event makes of a task at the end of the line. */
  lemma FateStep<Op>(s: State<Op>, e: Event<Op>, t: nat)
    requires Core(s) && Enabled(s, e) && !e.Submit? && InLine(s, t)
    ensures var n, m := |AsLine(s).waiting|, MoveOf(s, e);
      if m.Serve? && n == 1 then IsServed(Next(s, e).past.done, t)
      else if Removes(n, m) then OutOfLine(Next(s, e), t)
      else InLine(Next(s, e), t)
  {
    RefinesServiceLine(s, e);
    ServedByMove(s, e, t);
    LastAfterMove(AsLine(s), MoveOf(s, e), t);
  }
}
