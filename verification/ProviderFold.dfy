/** The probe is what happened to it: in every run its state is the jobs carried out and the
    power cuts, one whole job or cut after another. */
module ProviderFold {
  import opened ServiceLine
  import opened Probe
  import opened Signals
  import opened Jobs
  import opened DeviceState
  import opened ArgValidation
  import opened Provider

  datatype Happening = JobRan(job: Job, env: Env) | PowerLost

  function Happened(d: Device, h: Happening): Device {
    match h
    case JobRan(job, env) => RunJob(job, d, env).device
    case PowerLost => Cut(d)
  }

  function Befell(d: Device, hs: seq<Happening>): Device
    decreases |hs|
  {
    if hs == [] then d else Befell(Happened(d, hs[0]), hs[1..])
  }

  lemma {:induction false} BefellInParts(d: Device, first: seq<Happening>, rest: seq<Happening>)
    ensures Befell(d, first + rest) == Befell(Befell(d, first), rest)
    decreases |first|
  {
    if first == [] {
      assert first + rest == rest;
    } else {
      assert (first + rest)[1..] == first[1..] + rest;
      BefellInParts(Happened(d, first[0]), first[1..], rest);
    }
  }

  lemma BefellAt(d: Device, hs: seq<Happening>, k: nat)
    requires k < |hs|
    ensures Befell(d, hs) == Befell(Happened(Befell(d, hs[..k]), hs[k]), hs[k + 1..])
  {
    assert hs == hs[..k] + hs[k..] && hs[k..][1..] == hs[k + 1..];
    BefellInParts(d, hs[..k], hs[k..]);
  }

  function AsHistory(served: seq<(Job, Env)>): seq<Happening> {
    seq(|served|, i requires 0 <= i < |served| => JobRan(served[i].0, served[i].1))
  }

  /** The jobs served between two moments, the first before the second. */
  predicate Before(v: World, w: World) { v.line.served <= w.line.served }

  function Since(v: World, w: World): seq<Happening>
    requires Before(v, w)
  {
    AsHistory(w.line.served[|v.line.served|..])
  }

  /** Between two moments nothing but whole jobs befell the probe. */
  predicate OnlyJobs(v: World, w: World) { Before(v, w) && w.probe == Befell(v.probe, Since(v, w)) }

  lemma Unmoved(v: World, w: World)
    requires w.line.served == v.line.served && w.probe == v.probe
    ensures OnlyJobs(v, w)
  {
  }

  lemma SinceInParts(u: World, v: World, w: World)
    requires OnlyJobs(u, v) && OnlyJobs(v, w)
    ensures OnlyJobs(u, w) && Since(u, w) == Since(u, v) + Since(v, w)
  {
    assert Since(u, w) == Since(u, v) + Since(v, w);
    BefellInParts(u.probe, Since(u, v), Since(v, w));
  }

  lemma MoveIsJob(w: World, m: Move<Job, Env>)
    requires Possible(w.line, m)
    ensures OnlyJobs(w, Moved(w, m))
  {
    if m.Serve? {
      var h := Since(w, Moved(w, m));
      assert h == [JobRan(w.line.waiting[0], m.record)] && h[1..] == [];
    }
  }

  lemma {:induction false} DrainIsJobs(w: World, ms: seq<Move<Job, Env>>)
    requires Workable(|w.line.waiting|, ms)
    ensures OnlyJobs(w, Drained(w, ms))
    decreases |ms|
  {
    if ms == [] {
      Unmoved(w, w);
    } else {
      var next := Moved(w, ms[0]);
      MoveIsJob(w, ms[0]);
      DrainIsJobs(next, ms[1..]);
      SinceInParts(w, next, Drained(next, ms[1..]));
    }
  }

  /** The probe is the jobs served so far, carried out one after another. */
  predicate Folds(start: Device, w: World) { w.probe == Befell(start, AsHistory(w.line.served)) }

  lemma DrainFolds(start: Device, w: World, ms: seq<Move<Job, Env>>)
    requires Folds(start, w) && Workable(|w.line.waiting|, ms)
    ensures Folds(start, Drained(w, ms))
  {
    var r := Drained(w, ms);
    DrainIsJobs(w, ms);
    BefellInParts(start, AsHistory(w.line.served), Since(w, r));
    assert AsHistory(r.line.served) == AsHistory(w.line.served) + Since(w, r);
  }

  lemma SubmitIsJobs(w: World, job: Job, s: Service)
    requires Serviceable(w, s)
    ensures OnlyJobs(w, Submit(w, job, s).world)
  {
    match s
    case Refused => Unmoved(w, w);
    case Stopped(moves) => DrainIsJobs(w, moves);
    case Late(moves) =>
      DrainIsJobs(Joined(w, job), moves);
      Unmoved(w, Joined(w, job));
      SinceInParts(w, Joined(w, job), Drained(Joined(w, job), moves));
    case Done(moves, env) =>
      var before := Drained(w, moves);
      DrainIsJobs(w, moves);
      Unmoved(before, Joined(before, job));
      SinceInParts(w, before, Joined(before, job));
      MoveIsJob(Joined(before, job), Serve(env));
      SinceInParts(w, Joined(before, job), Moved(Joined(before, job), Serve(env)));
  }

  /** The jobs served between two moments are all among these. */
  predicate ServedFrom(v: World, w: World, jobs: seq<Job>) {
    Before(v, w) && forall i :: |v.line.served| <= i < |w.line.served| ==> w.line.served[i].0 in jobs
  }

  /** Only what waits is served. */
  lemma {:induction false} DrainServes(w: World, ms: seq<Move<Job, Env>>)
    requires Workable(|w.line.waiting|, ms)
    ensures ServedFrom(w, Drained(w, ms), w.line.waiting)
    ensures forall job :: job in Drained(w, ms).line.waiting ==> job in w.line.waiting
    decreases |ms|
  {
    if ms != [] {
      DrainServes(Moved(w, ms[0]), ms[1..]);
    }
  }

  lemma SubmitServes(w: World, job: Job, s: Service)
    requires Serviceable(w, s)
    ensures ServedFrom(w, Submit(w, job, s).world, w.line.waiting + [job])
    ensures forall other :: other in Submit(w, job, s).world.line.waiting ==> other in w.line.waiting + [job]
  {
    match s
    case Refused =>
    case Stopped(moves) => DrainServes(w, moves);
    case Late(moves) => DrainServes(Joined(w, job), moves);
    case Done(moves, env) => DrainServes(w, moves);
  }

  /** A submission followed by any change of the record. */
  lemma SubmitAndRecord(w: World, job: Job, s: Service, r: World)
    requires Serviceable(w, s)
    requires r.probe == Submit(w, job, s).world.probe && r.line == Submit(w, job, s).world.line
    ensures OnlyJobs(w, r)
  {
    SubmitIsJobs(w, job, s);
  }

  lemma CheckedIsJobs(w: World, s: Service, bound: int)
    requires CheckServiceable(w, s)
    ensures OnlyJobs(w, Checked(w, s, bound))
  {
    if Compensates(w.record.family) {
      SubmitAndRecord(w, Check(w.record.remembered), s, Checked(w, s, bound));
    } else {
      Unmoved(w, w);
    }
  }

  lemma LevelIsJobs(w: World, s: Service, bound: int)
    requires LevelServiceable(w, s)
    ensures OnlyJobs(w, LevelChecked(w, s, bound))
  {
    if Calibrates(w.record.family) {
      SubmitAndRecord(w, Level, s, LevelChecked(w, s, bound));
    } else {
      Unmoved(w, w);
    }
  }

  lemma CallEndIsJobs(w: World, f: Function, ok: bool, level: Service, bound: int)
    requires ok && TouchesLevel(f) ==> LevelServiceable(w, level)
    ensures OnlyJobs(w, CallEnd(w, f, ok, level, bound))
  {
    var recorded := Counted(w, ok, bound);
    Unmoved(w, recorded);
    if ok && TouchesLevel(f) {
      LevelIsJobs(recorded, level, bound);
      SinceInParts(w, recorded, LevelChecked(recorded, level, bound));
    }
  }

  lemma CallIsJobs(w: World, f: Function, a: ControlArgs, main: Service, check: Service, level: Service, bound: int)
    requires CallServiceable(w, f, a, main, check, level, bound)
    ensures OnlyJobs(w, CallEnd(CallReadBack(CallRan(w, f, a, main, bound), f, check, bound),
                                f, CallOk(w, f, a, main), level, bound))
  {
    var ran := CallRan(w, f, a, main, bound);
    var back := CallReadBack(ran, f, check, bound);
    SubmitAndRecord(w, JobFor(f, w.record, a), main, ran);
    if TouchesCompensation(f, ran.record.family) {
      CheckedIsJobs(ran, check, bound);
    } else {
      Unmoved(ran, back);
    }
    SinceInParts(w, ran, back);
    CallEndIsJobs(back, f, CallOk(w, f, a, main), level, bound);
    SinceInParts(w, back, CallEnd(back, f, CallOk(w, f, a, main), level, bound));
  }

  lemma ActIsJobs(w: World, act: Act, bound: int)
    requires Actable(w, act, bound) && !act.PowerCut?
    ensures OnlyJobs(w, Acted(w, act, bound))
  {
    match act
    case Poll(sample, check, now, steady) =>
      var polled := Polled(w, sample, now, steady, bound);
      SubmitAndRecord(w, Sample, sample, polled);
      if CheckDue(polled.record) {
        CheckedIsJobs(polled, check, bound);
        SinceInParts(w, polled, Checked(polled, check, bound));
      }
    case Call(f, args, order, main, check, level) =>
      if Declared(f, w.record.family) && Validate(f, w.record.family, args, order).Accepted? {
        CallIsJobs(w, f, Validate(f, w.record.family, args, order).filled, main, check, level, bound);
      } else {
        Unmoved(w, Acted(w, act, bound));
      }
    case CheckNow(check) => CheckedIsJobs(w, check, bound);
    case LevelNow(level) => LevelIsJobs(w, level, bound);
    case Background(moves) => DrainIsJobs(w, moves);
  }

  /** What befell the probe during a run: the jobs served in each act, and the power cuts. */
  function History(w: World, acts: seq<Act>, bound: int): seq<Happening>
    requires CanAct(w, acts, bound)
    decreases |acts|
  {
    if acts == [] then []
    else
      var next := Acted(w, acts[0], bound);
      (if acts[0].PowerCut? then [PowerLost] else if Before(w, next) then Since(w, next) else [])
      + History(next, acts[1..], bound)
  }

  function JobsOf(hs: seq<Happening>): seq<Happening> {
    if hs == [] then [] else (if hs[0].JobRan? then [hs[0]] else []) + JobsOf(hs[1..])
  }

  lemma {:induction false} JobsInParts(first: seq<Happening>, rest: seq<Happening>)
    requires forall i :: 0 <= i < |first| ==> first[i].JobRan?
    ensures JobsOf(first + rest) == first + JobsOf(rest)
  {
    if first == [] {
      assert first + rest == rest;
    } else {
      assert (first + rest)[1..] == first[1..] + rest;
      JobsInParts(first[1..], rest);
    }
  }

  /** A history tells how one moment came about from another: the probe is what the history made
      of it, and the jobs in it are the ones the line has served, in that order. */
  predicate Tells(hs: seq<Happening>, v: World, w: World) {
    Before(v, w) && w.probe == Befell(v.probe, hs) && Since(v, w) == JobsOf(hs)
  }

  lemma JobsThenTold(u: World, v: World, w: World, hs: seq<Happening>)
    requires OnlyJobs(u, v) && Tells(hs, v, w)
    ensures Tells(Since(u, v) + hs, u, w)
  {
    BefellInParts(u.probe, Since(u, v), hs);
    JobsInParts(Since(u, v), hs);
    assert Since(u, w) == Since(u, v) + Since(v, w);
  }

  lemma CutThenTold(v: World, w: World, hs: seq<Happening>)
    requires Tells(hs, v.(probe := Cut(v.probe)), w)
    ensures Tells([PowerLost] + hs, v, w)
  {
    assert ([PowerLost] + hs)[1..] == hs;
  }

  /** In every run the probe is what its history makes of it, jobs carried out whole, one at a
      time, and power cuts; and those jobs are the ones the line has served, in that order. */
  lemma {:induction false} ProbeIsItsHistory(w: World, acts: seq<Act>, bound: int)
    requires CanAct(w, acts, bound)
    ensures Tells(History(w, acts, bound), w, AfterActs(w, acts, bound))
    decreases |acts|
  {
    if acts != [] {
      var next := Acted(w, acts[0], bound);
      var rest := History(next, acts[1..], bound);
      ProbeIsItsHistory(next, acts[1..], bound);
      if acts[0].PowerCut? {
        CutThenTold(w, AfterActs(w, acts, bound), rest);
      } else {
        ActIsJobs(w, acts[0], bound);
        JobsThenTold(w, next, AfterActs(w, acts, bound), rest);
      }
    }
  }
}
