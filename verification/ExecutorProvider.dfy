/** The executor under the provider: a state of the executor whose jobs are the provider's is a
    World, and one call of `submit`, whatever the schedule, is a submission of the provider
    model. */
module ExecutorProvider {
  import opened Statuses
  import opened ServiceLine
  import opened ExecutorModel
  import opened ExecutorCore
  import opened ExecutorTheorems
  import opened ExecutorService
  import P = Probe
  import J = Jobs
  import D = DeviceState
  import V = Provider
  import Submissions
  import F = ProviderFold

  /** Which job each task is, what the environment did during each job that ended, and where
      the probe and the record stood at the start. */
  datatype Setting<!Op> = Setting(job: nat -> J.Job, env: Block<Op> -> J.Env, probe: P.Device, record: D.Record)

  function JobsIn<Op>(c: Setting<Op>, tasks: seq<nat>): seq<J.Job> {
    seq(|tasks|, i requires 0 <= i < |tasks| => c.job(tasks[i]))
  }

  function ServedIn<Op>(c: Setting<Op>, done: seq<Block<Op>>): seq<(J.Job, J.Env)> {
    seq(|done|, i requires 0 <= i < |done| => (c.job(done[i].task), c.env(done[i])))
  }

  function ProbeAfter<Op>(c: Setting<Op>, done: seq<Block<Op>>): P.Device {
    F.Befell(c.probe, F.AsHistory(ServedIn(c, done)))
  }

  function WorldAt<Op>(c: Setting<Op>, waiting: seq<nat>, done: seq<Block<Op>>): V.World {
    V.World(c.record, ProbeAfter(c, done), Line(JobsIn(c, waiting), ServedIn(c, done)))
  }

  function AsWorld<Op>(c: Setting<Op>, s: State<Op>): V.World { WorldAt(c, AsLine(s).waiting, s.past.done) }

  // ---- Every event is a move ------------------------------------------------------------------

  /** The same move, of jobs instead of tasks; a job served is told by its block. */
  function Translated<Op>(c: Setting<Op>, t: nat, m: Move<nat, (seq<Op>, Status)>): Move<J.Job, J.Env> {
    match m
    case Join(u) => Join(c.job(u))
    case Serve(record) => Serve(c.env(Block(t, record.0, record.1)))
    case PassOver => PassOver
    case Dismiss(keep) => Dismiss(keep)
    case Stay => Stay
  }

  function MoveFor<Op>(c: Setting<Op>, s: State<Op>, e: Event<Op>): Move<J.Job, J.Env>
    requires Enabled(s, e)
  {
    Translated(c, if s.worker.Running? then s.worker.task else 0, MoveOf(s, e))
  }

  lemma OneMoreServed<Op>(c: Setting<Op>, done: seq<Block<Op>>, b: Block<Op>)
    ensures ServedIn(c, done + [b]) == ServedIn(c, done) + [(c.job(b.task), c.env(b))]
    ensures ProbeAfter(c, done + [b]) == J.RunJob(c.job(b.task), ProbeAfter(c, done), c.env(b)).device
  {
    var one := [F.JobRan(c.job(b.task), c.env(b))];
    assert F.AsHistory(ServedIn(c, done + [b])) == F.AsHistory(ServedIn(c, done)) + one;
    F.BefellInParts(c.probe, F.AsHistory(ServedIn(c, done)), one);
    assert one[1..] == [];
  }

  lemma WorldServes<Op>(c: Setting<Op>, waiting: seq<nat>, done: seq<Block<Op>>, b: Block<Op>)
    requires waiting != [] && waiting[0] == b.task
    ensures var w := WorldAt(c, waiting, done);
      w.line.waiting != [] && WorldAt(c, waiting[1..], done + [b]) == V.Moved(w, Serve(c.env(b)))
  {
    OneMoreServed(c, done, b);
    assert JobsIn(c, waiting[1..]) == JobsIn(c, waiting)[1..];
  }

  lemma WorldMoves<Op>(c: Setting<Op>, line: Line<nat, (seq<Op>, Status)>, done: seq<Block<Op>>, t: nat,
                       m: Move<nat, (seq<Op>, Status)>)
    requires Possible(line, m) && !m.Serve?
    ensures var w := WorldAt(c, line.waiting, done);
      && Possible(w.line, Translated(c, t, m))
      && WorldAt(c, Advance(line, m).waiting, done) == V.Moved(w, Translated(c, t, m))
  {
    var waiting := line.waiting;
    match m
    case Join(u) => assert JobsIn(c, waiting + [u]) == JobsIn(c, waiting) + [c.job(u)];
    case PassOver => assert JobsIn(c, waiting[1..]) == JobsIn(c, waiting)[1..];
    case Dismiss(k) => assert JobsIn(c, waiting[..k]) == JobsIn(c, waiting)[..k];
    case Stay =>
  }

  ghost predicate Moves<Op>(c: Setting<Op>, s: State<Op>, e: Event<Op>)
    requires Enabled(s, e)
  {
    var w, m := AsWorld(c, s), MoveFor(c, s, e);
    Possible(w.line, m) && AsWorld(c, Next(s, e)) == V.Moved(w, m)
  }

  lemma ReturnIsServe<Op>(c: Setting<Op>, s: State<Op>, status: Status)
    requires Core(s) && Enabled(s, JobReturns(status))
    ensures Moves(c, s, JobReturns(status))
  {
    RefinesServiceLine(s, JobReturns(status));
    WorldServes(c, AsLine(s).waiting, s.past.done, Block(s.worker.task, s.worker.ops, status));
  }

  lemma StepIsMove<Op>(c: Setting<Op>, s: State<Op>, e: Event<Op>)
    requires Core(s) && Enabled(s, e)
    ensures Moves(c, s, e)
  {
    if e.JobReturns? {
      ReturnIsServe(c, s, e.status);
    } else {
      RefinesServiceLine(s, e);
      DoneKept(s, e);
      WorldMoves(c, AsLine(s), s.past.done, if s.worker.Running? then s.worker.task else 0, MoveOf(s, e));
    }
  }

  ghost function MovesFor<Op>(c: Setting<Op>, s: State<Op>, es: seq<Event<Op>>): seq<Move<J.Job, J.Env>>
    requires CanRun(s, es)
    decreases |es|
  {
    if es == [] then [] else [MoveFor(c, s, es[0])] + MovesFor(c, Next(s, es[0]), es[1..])
  }

  lemma StepDrains<Op>(c: Setting<Op>, s: State<Op>, e: Event<Op>, ms: seq<Move<J.Job, J.Env>>)
    requires Core(s) && Enabled(s, e) && !e.Submit? && V.Workable(|AsWorld(c, Next(s, e)).line.waiting|, ms)
    ensures V.Workable(|AsWorld(c, s).line.waiting|, [MoveFor(c, s, e)] + ms)
    ensures V.Drained(AsWorld(c, s), [MoveFor(c, s, e)] + ms) == V.Drained(AsWorld(c, Next(s, e)), ms)
  {
    StepIsMove(c, s, e);
    Submissions.DrainedAfterMove(AsWorld(c, s), MoveFor(c, s, e), ms);
  }

  /** A schedule in which nobody submits is a draining of the line. */
  lemma {:induction false} RunIsDrained<Op>(c: Setting<Op>, s: State<Op>, es: seq<Event<Op>>)
    requires Core(s) && CanRun(s, es) && NoSubmits(es)
    ensures V.Workable(|AsWorld(c, s).line.waiting|, MovesFor(c, s, es))
    ensures V.Drained(AsWorld(c, s), MovesFor(c, s, es)) == AsWorld(c, Run(s, es))
    decreases |es|
  {
    if es != [] {
      var n := Next(s, es[0]);
      StepKeepsCore(s, es[0]);
      assert NoSubmits(es[1..]);
      RunIsDrained(c, n, es[1..]);
      StepDrains(c, s, es[0], MovesFor(c, n, es[1..]));
    }
  }

  // ---- The fate of the newest task ----------------------------------------------------------------

  ghost predicate FateIs<Op>(fate: V.Fate, s: State<Op>, t: nat) {
    match fate
    case Waits => t in AsLine(s).waiting
    case CarriedOut => IsServed(s.past.done, t)
    case Gone => OutOfLine(s, t)
  }

  lemma FateFirst(n: nat, m: Move<J.Job, J.Env>, ms: seq<Move<J.Job, J.Env>>)
    requires n > 0 && V.Remaining(n, m).Some? && V.Workable(V.Remaining(n, m).value, ms)
    ensures V.Workable(n, [m] + ms)
    ensures V.FateOfLast(n, [m] + ms) ==
      if m.Serve? && n == 1 then V.CarriedOut
      else if Removes(n, m) then V.Gone
      else V.FateOfLast(V.Remaining(n, m).value, ms)
  {
    assert ([m] + ms)[1..] == ms;
  }

  /** One event, given what is to come of the task after it. */
  lemma FateThen<Op>(c: Setting<Op>, s: State<Op>, e: Event<Op>, t: nat, ms: seq<Move<J.Job, J.Env>>, r: State<Op>)
    requires Core(s) && Enabled(s, e) && !e.Submit? && InLine(s, t)
    requires V.Workable(|AsLine(Next(s, e)).waiting|, ms)
    requires IsServed(Next(s, e).past.done, t) ==> IsServed(r.past.done, t)
    requires OutOfLine(Next(s, e), t) ==> OutOfLine(r, t)
    requires InLine(Next(s, e), t) ==> FateIs(V.FateOfLast(|AsLine(Next(s, e)).waiting|, ms), r, t)
    ensures V.Workable(|AsLine(s).waiting|, [MoveFor(c, s, e)] + ms)
    ensures FateIs(V.FateOfLast(|AsLine(s).waiting|, [MoveFor(c, s, e)] + ms), r, t)
  {
    FateStep(s, e, t);
    RemainingTold(c, s, e);
    FateFirst(|AsLine(s).waiting|, MoveFor(c, s, e), ms);
  }

  /** The fate the moves give the last job is the fate of its task. */
  lemma {:induction false} FateTold<Op>(c: Setting<Op>, s: State<Op>, es: seq<Event<Op>>, t: nat)
    requires Core(s) && CanRun(s, es) && NoSubmits(es) && InLine(s, t)
    ensures V.Workable(|AsLine(s).waiting|, MovesFor(c, s, es))
    ensures FateIs(V.FateOfLast(|AsLine(s).waiting|, MovesFor(c, s, es)), Run(s, es), t)
    decreases |es|
  {
    if es != [] {
      var n := Next(s, es[0]);
      StepKeepsCore(s, es[0]);
      assert NoSubmits(es[1..]);
      RunKeepsFate(n, es[1..], t);
      RunIsDrained(c, n, es[1..]);
      if InLine(n, t) {
        FateTold(c, n, es[1..], t);
      }
      FateThen(c, s, es[0], t, MovesFor(c, n, es[1..]), Run(s, es));
    }
  }

  lemma RemainingTold<Op>(c: Setting<Op>, s: State<Op>, e: Event<Op>)
    requires Core(s) && Enabled(s, e) && !e.Submit?
    ensures V.Remaining(|AsLine(s).waiting|, MoveFor(c, s, e)) == Some(|AsLine(Next(s, e)).waiting|)
  {
    RefinesServiceLine(s, e);
  }

  // ---- A call of submit is a submission ------------------------------------------------------------

  /** Each job that ended did what the provider's job does, and reported what it reports. */
  ghost predicate Performed<Op>(c: Setting<Op>, done: seq<Block<Op>>) {
    forall i :: 0 <= i < |done| ==>
      done[i].status == J.RunJob(c.job(done[i].task), ProbeAfter(c, done[..i]), c.env(done[i])).status
  }

  /** A submission of the provider model that this is one of. */
  ghost predicate Explains<Op>(c: Setting<Op>, s: State<Op>, r: State<Op>, t: nat, how: Return, svc: V.Service) {
    var w := AsWorld(c, s);
    && V.Serviceable(w, svc)
    && V.Submit(w, c.job(t), svc).world == AsWorld(c, r)
    && V.Submit(w, c.job(t), svc).status == ReturnedStatus(how)
  }

  /** Admission puts the task at the end of the line. */
  lemma AdmittedLast<Op(!new)>(c: Setting<Op>, s: State<Op>, bounded: bool)
    requires Reachable(s) && s.ctl.running && !s.ctl.stopping
    ensures var n := Next(s, Submit(bounded));
      && Whole(n) && |n.tasks| == |s.tasks| + 1 && InLine(n, |s.tasks|)
      && AsWorld(c, n) == V.Joined(AsWorld(c, s), c.job(|s.tasks|))
      && |AsLine(n).waiting| == |AsWorld(c, s).line.waiting| + 1
  {
    AdmittedWhole(s, bounded);
    ReachableWhole(s);
    StepIsMove(c, s, Submit(bounded));
    RefinesServiceLine(s, Submit(bounded));
  }

  lemma LastBlock<Op>(c: Setting<Op>, done: seq<Block<Op>>, served: seq<(J.Job, J.Env)>, job: J.Job, env: J.Env)
    requires ServedIn(c, done) == served + [(job, env)] && Performed(c, done)
    ensures done != []
    ensures done[|done| - 1].status == J.RunJob(job, F.Befell(c.probe, F.AsHistory(served)), env).status
  {
    var last := |done| - 1;
    assert ServedIn(c, done)[last] == (job, env);
    assert ServedIn(c, done[..last]) == ServedIn(c, done)[..last] == served;
  }

  /** The outcome of a job carried out last is what its block says. */
  lemma DoneStatus<Op>(c: Setting<Op>, w: V.World, job: J.Job, before: seq<Move<J.Job, J.Env>>, env: J.Env,
                       done: seq<Block<Op>>)
    requires F.Folds(c.probe, w) && V.Serviceable(w, V.Done(before, env)) && Performed(c, done)
    requires V.Submit(w, job, V.Done(before, env)).world.line.served == ServedIn(c, done)
    ensures done != [] && V.Submit(w, job, V.Done(before, env)).status == done[|done| - 1].status
  {
    F.DrainFolds(c.probe, w, before);
    LastBlock(c, done, V.Drained(w, before).line.served, job, env);
  }

  /** The submission that a schedule's moves amount to, by what became of the job. */
  lemma ServiceFor(w: V.World, job: J.Job, ms: seq<Move<J.Job, J.Env>>) returns (svc: V.Service)
    requires V.Workable(|w.line.waiting| + 1, ms)
    ensures V.Serviceable(w, svc) && V.Submit(w, job, svc).world == V.Drained(V.Joined(w, job), ms)
    ensures match V.FateOfLast(|w.line.waiting| + 1, ms)
            case Waits => svc.Late?
            case CarriedOut => svc.Done?
            case Gone => svc.Stopped? && V.Submit(w, job, svc).status == STOPPED
  {
    match V.FateOfLast(|w.line.waiting| + 1, ms)
    case Waits => svc := V.Late(ms);
    case CarriedOut =>
      var before, env := Submissions.CarriedOutLast(w, job, ms);
      svc := V.Done(before, env);
    case Gone =>
      var others := Submissions.GoneLeavesNoTrace(w, job, ms);
      svc := V.Stopped(others);
  }

  /** One call of `submit` from any reachable state of the executor, under any schedule in which
      nobody else submits until it returns, is a submission of the provider model: the same
      world after it and the same status to its caller. */
  lemma SubmissionIsService<Op(!new)>(c: Setting<Op>, s: State<Op>, bounded: bool, es: seq<Event<Op>>)
    returns (svc: V.Service)
    requires Reachable(s) && s.ctl.running && !s.ctl.stopping
    requires CanRun(Next(s, Submit(bounded)), es) && NoSubmits(es)
    requires var r := Run(Next(s, Submit(bounded)), es);
      |s.tasks| < |r.tasks| && r.tasks[|s.tasks|].caller.Returned? && Performed(c, r.past.done)
    ensures var r := Run(Next(s, Submit(bounded)), es);
      Explains(c, s, r, |s.tasks|, r.tasks[|s.tasks|].caller.how, svc)
  {
    AdmittedLast(c, s, bounded);
    svc := NewestExplained(c, AsWorld(c, s), Next(s, Submit(bounded)), es);
  }

  /** The same, from the moment the task is at the end of the line. */
  lemma NewestExplained<Op>(c: Setting<Op>, w: V.World, n: State<Op>, es: seq<Event<Op>>) returns (svc: V.Service)
    requires Whole(n) && n.tasks != [] && InLine(n, |n.tasks| - 1) && CanRun(n, es) && NoSubmits(es)
    requires |n.tasks| <= |Run(n, es).tasks| && Run(n, es).tasks[|n.tasks| - 1].caller.Returned?
    requires AsWorld(c, n) == V.Joined(w, c.job(|n.tasks| - 1)) && |AsLine(n).waiting| == |w.line.waiting| + 1
    requires F.Folds(c.probe, w) && Performed(c, Run(n, es).past.done)
    ensures V.Serviceable(w, svc) && V.Submit(w, c.job(|n.tasks| - 1), svc).world == AsWorld(c, Run(n, es))
    ensures V.Submit(w, c.job(|n.tasks| - 1), svc).status ==
      ReturnedStatus(Run(n, es).tasks[|n.tasks| - 1].caller.how)
  {
    RunIsDrained(c, n, es);
    FateFits(c, n, es);
    svc := ReturnExplained(c, w, c.job(|n.tasks| - 1), MovesFor(c, n, es), Run(n, es).past.done,
                           Run(n, es).tasks[|n.tasks| - 1].caller.how);
  }

  /** How its caller returned tells what became of the newest task. */
  ghost predicate Fits<Op>(how: Return, fate: V.Fate, done: seq<Block<Op>>) {
    match how
    case DeadlinePassed => true
    case Collected(ByStop) => fate.Gone?
    case Collected(BySkip) => false
    case Collected(ByJob(status)) => fate.CarriedOut? && done != [] && done[|done| - 1].status == status
  }

  lemma FateByReturn<Op>(r: State<Op>, fate: V.Fate)
    requires Whole(r) && r.tasks != [] && r.tasks[|r.tasks| - 1].caller.Returned? && FateIs(fate, r, |r.tasks| - 1)
    ensures Fits(r.tasks[|r.tasks| - 1].caller.how, fate, r.past.done)
  {
    NewestReturned(r);
  }

  lemma FateFits<Op>(c: Setting<Op>, n: State<Op>, es: seq<Event<Op>>)
    requires Whole(n) && n.tasks != [] && InLine(n, |n.tasks| - 1) && CanRun(n, es) && NoSubmits(es)
    requires |n.tasks| <= |Run(n, es).tasks| && Run(n, es).tasks[|n.tasks| - 1].caller.Returned?
    ensures V.Workable(|AsLine(n).waiting|, MovesFor(c, n, es))
    ensures Fits(Run(n, es).tasks[|n.tasks| - 1].caller.how,
                 V.FateOfLast(|AsLine(n).waiting|, MovesFor(c, n, es)), Run(n, es).past.done)
  {
    RunKeepsWhole(n, es);
    FateTold(c, n, es, |n.tasks| - 1);
    FateByReturn(Run(n, es), V.FateOfLast(|AsLine(n).waiting|, MovesFor(c, n, es)));
  }

  lemma LateService(w: V.World, job: J.Job, ms: seq<Move<J.Job, J.Env>>)
    requires V.Workable(|w.line.waiting| + 1, ms)
    ensures V.Serviceable(w, V.Late(ms)) && V.Submit(w, job, V.Late(ms)).world == V.Drained(V.Joined(w, job), ms)
    ensures V.Submit(w, job, V.Late(ms)).status == TIMED_OUT
  {
  }

  /** The same, once the schedule has been told as moves. */
  lemma ReturnExplained<Op>(c: Setting<Op>, w: V.World, job: J.Job, ms: seq<Move<J.Job, J.Env>>,
                            done: seq<Block<Op>>, how: Return) returns (svc: V.Service)
    requires F.Folds(c.probe, w) && V.Workable(|w.line.waiting| + 1, ms) && Performed(c, done)
    requires V.Drained(V.Joined(w, job), ms).line.served == ServedIn(c, done)
    requires Fits(how, V.FateOfLast(|w.line.waiting| + 1, ms), done)
    ensures V.Serviceable(w, svc) && V.Submit(w, job, svc).world == V.Drained(V.Joined(w, job), ms)
    ensures V.Submit(w, job, svc).status == ReturnedStatus(how)
  {
    if how == DeadlinePassed {
      svc := V.Late(ms);
      LateService(w, job, ms);
    } else {
      svc := ServiceFor(w, job, ms);
      if svc.Done? {
        DoneStatus(c, w, job, svc.moves, svc.env, done);
      }
    }
  }

  /** A refused call leaves everything as it is. */
  lemma RefusalIsService<Op>(c: Setting<Op>, s: State<Op>, bounded: bool)
    requires !s.ctl.running || s.ctl.stopping
    ensures AsWorld(c, Next(s, Submit(bounded))) == V.Submit(AsWorld(c, s), c.job(|s.tasks|), V.Refused).world
  {
  }

  // ---- The probe is what the bus operations make of it -----------------------------------------------

  /** Whatever a bus operation does to the probe, if each finished job's operations do what the
      provider's job does, then between jobs the probe on the bus is the probe of the world. */
  lemma ProbeIsFoldOfOperations<Op(!new)>(c: Setting<Op>, s: State<Op>, f: (P.Device, Op) -> P.Device)
    requires Reachable(s) && !s.worker.Running?
    requires forall i :: 0 <= i < |s.past.done| ==>
      FoldOps(f, ProbeAfter(c, s.past.done[..i]), s.past.done[i].ops) ==
        J.RunJob(c.job(s.past.done[i].task), ProbeAfter(c, s.past.done[..i]), c.env(s.past.done[i])).device
    ensures FoldLog(f, c.probe, s.past.log) == AsWorld(c, s).probe
  {
    DeviceStateIsFoldOfJobs(s, f, c.probe);
    JobsFolded(c, s.past.done, |s.past.done|, f);
    assert s.past.done[..|s.past.done|] == s.past.done;
  }

  lemma {:induction false} JobsFolded<Op>(c: Setting<Op>, done: seq<Block<Op>>, n: nat, f: (P.Device, Op) -> P.Device)
    requires n <= |done|
    requires forall i :: 0 <= i < |done| ==>
      FoldOps(f, ProbeAfter(c, done[..i]), done[i].ops) ==
        J.RunJob(c.job(done[i].task), ProbeAfter(c, done[..i]), c.env(done[i])).device
    ensures FoldJobs(f, c.probe, done[..n]) == ProbeAfter(c, done[..n])
  {
    if n > 0 {
      JobsFolded(c, done, n - 1, f);
      assert done[..n] == done[..n - 1] + [done[n - 1]] && done[..n][..n - 1] == done[..n - 1];
      OneMoreServed(c, done[..n - 1], done[n - 1]);
    }
  }
}
