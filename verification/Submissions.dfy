/** What the moves the executor makes while one caller waits come to, for the job that caller
    put at the end of the line. */
module Submissions {
  import opened Statuses
  import opened ServiceLine
  import opened Jobs
  import opened Provider

  lemma {:induction false} EmptyLineRests(w: World, ms: seq<Move<Job, Env>>)
    requires w.line.waiting == [] && Workable(0, ms)
    ensures Drained(w, ms) == w
    decreases |ms|
  {
    if ms != [] {
      EmptyLineRests(w, ms[1..]);
    }
  }

  /** A move that leaves the last job where it is makes no difference to it. */
  lemma MoveBeforeLast(w: World, job: Job, m: Move<Job, Env>)
    requires Possible(w.line, m) && (m.Serve? || m.PassOver?)
    ensures Possible(Joined(w, job).line, m) && Moved(Joined(w, job), m) == Joined(Moved(w, m), job)
  {
    assert (w.line.waiting + [job])[1..] == w.line.waiting[1..] + [job];
  }

  lemma DrainedAfterMove(w: World, m: Move<Job, Env>, rest: seq<Move<Job, Env>>)
    requires Possible(w.line, m) && !m.Join? && Workable(|Moved(w, m).line.waiting|, rest)
    ensures Workable(|w.line.waiting|, [m] + rest) && Drained(w, [m] + rest) == Drained(Moved(w, m), rest)
  {
    assert ([m] + rest)[1..] == rest;
  }

  lemma {:induction false} DrainedInParts(w: World, first: seq<Move<Job, Env>>, rest: seq<Move<Job, Env>>)
    requires Workable(|w.line.waiting|, first) && Workable(Left(|w.line.waiting|, first), rest)
    ensures Workable(|w.line.waiting|, first + rest)
    ensures Drained(w, first + rest) == Drained(Drained(w, first), rest)
    decreases |first|
  {
    if first == [] {
      assert first + rest == rest;
    } else {
      assert first + rest == [first[0]] + (first[1..] + rest);
      DrainedInParts(Moved(w, first[0]), first[1..], rest);
      DrainedAfterMove(w, first[0], first[1..] + rest);
    }
  }

  /** A job that leaves the line without being carried out leaves no trace: the others fare as
      if it had never joined. */
  lemma {:induction false} GoneLeavesNoTrace(w: World, job: Job, ms: seq<Move<Job, Env>>)
    returns (others: seq<Move<Job, Env>>)
    requires Workable(|w.line.waiting| + 1, ms) && FateOfLast(|w.line.waiting| + 1, ms) == Gone
    ensures Workable(|w.line.waiting|, others) && Drained(Joined(w, job), ms) == Drained(w, others)
    ensures forall i :: 0 <= i < |others| ==> others[i] in ms
    decreases |ms|
  {
    var n, m := |w.line.waiting|, ms[0];
    if m.Dismiss? && m.keep <= n {
      assert (w.line.waiting + [job])[..m.keep] == w.line.waiting[..m.keep];
      others := ms;
    } else if m.PassOver? && n == 0 {
      assert (w.line.waiting + [job])[1..] == w.line.waiting;
      others := ms[1..];
    } else if m.Serve? || m.PassOver? {
      MoveBeforeLast(w, job, m);
      var rest := GoneLeavesNoTrace(Moved(w, m), job, ms[1..]);
      DrainedAfterMove(w, m, rest);
      others := [m] + rest;
    } else {
      assert (w.line.waiting + [job])[..n + 1] == w.line.waiting + [job];
      others := GoneLeavesNoTrace(w, job, ms[1..]);
    }
  }

  lemma DoneAfterMove(w: World, job: Job, m: Move<Job, Env>, rest: seq<Move<Job, Env>>, env: Env)
    requires Possible(w.line, m) && !m.Join? && Serviceable(Moved(w, m), Done(rest, env))
    ensures Serviceable(w, Done([m] + rest, env))
    ensures Submit(w, job, Done([m] + rest, env)) == Submit(Moved(w, m), job, Done(rest, env))
  {
    DrainedAfterMove(w, m, rest);
  }

  lemma CarriedOutAtOnce(w: World, job: Job, ms: seq<Move<Job, Env>>)
    requires w.line.waiting == [] && Workable(1, ms) && ms != [] && ms[0].Serve?
    ensures Drained(Joined(w, job), ms) == Submit(w, job, Done([], ms[0].record)).world
    ensures LastOutcome(Joined(w, job), ms) == Some(Submit(w, job, Done([], ms[0].record)).outcome)
  {
    EmptyLineRests(Moved(Joined(w, job), ms[0]), ms[1..]);
  }

  /** One move that leaves the last job in place, or that dismisses nobody, unfolded. */
  lemma LastAfterMove(w: World, job: Job, ms: seq<Move<Job, Env>>)
    requires Workable(|w.line.waiting| + 1, ms) && FateOfLast(|w.line.waiting| + 1, ms) == CarriedOut
    requires !(ms[0].Serve? && w.line.waiting == [])
    ensures var next := Moved(Joined(w, job), ms[0]);
      && next.line.waiting != [] && Workable(|next.line.waiting|, ms[1..])
      && FateOfLast(|next.line.waiting|, ms[1..]) == CarriedOut
      && Drained(Joined(w, job), ms) == Drained(next, ms[1..])
      && LastOutcome(Joined(w, job), ms) == LastOutcome(next, ms[1..])
  {
  }

  /** The world and the outcome the moves come to are those of the submission. */
  ghost predicate Comes(w: World, job: Job, ms: seq<Move<Job, Env>>, before: seq<Move<Job, Env>>, env: Env)
    requires Workable(|w.line.waiting| + 1, ms) && Serviceable(w, Done(before, env))
  {
    && Drained(Joined(w, job), ms) == Submit(w, job, Done(before, env)).world
    && LastOutcome(Joined(w, job), ms) == Some(Submit(w, job, Done(before, env)).outcome)
  }

  lemma ComesAfterMove(w: World, job: Job, ms: seq<Move<Job, Env>>, rest: seq<Move<Job, Env>>, env: Env)
    requires Workable(|w.line.waiting| + 1, ms) && FateOfLast(|w.line.waiting| + 1, ms) == CarriedOut
    requires (ms[0].Serve? || ms[0].PassOver?) && Possible(w.line, ms[0])
    requires Serviceable(Moved(w, ms[0]), Done(rest, env)) && Comes(Moved(w, ms[0]), job, ms[1..], rest, env)
    ensures Serviceable(w, Done([ms[0]] + rest, env)) && Comes(w, job, ms, [ms[0]] + rest, env)
  {
    LastAfterMove(w, job, ms);
    MoveBeforeLast(w, job, ms[0]);
    DoneAfterMove(w, job, ms[0], rest, env);
  }

  /** A job that is carried out is carried out after everything before it has left the line,
      and nothing is left after it. */
  lemma {:induction false} CarriedOutLast(w: World, job: Job, ms: seq<Move<Job, Env>>)
    returns (before: seq<Move<Job, Env>>, env: Env)
    requires Workable(|w.line.waiting| + 1, ms) && FateOfLast(|w.line.waiting| + 1, ms) == CarriedOut
    ensures Serviceable(w, Done(before, env)) && Serve(env) in ms && forall i :: 0 <= i < |before| ==> before[i] in ms
    ensures Drained(Joined(w, job), ms) == Submit(w, job, Done(before, env)).world
    ensures LastOutcome(Joined(w, job), ms) == Some(Submit(w, job, Done(before, env)).outcome)
    decreases |ms|
  {
    var n, m := |w.line.waiting|, ms[0];
    if m.Serve? && n == 0 {
      before, env := [], m.record;
      CarriedOutAtOnce(w, job, ms);
    } else if m.Serve? || m.PassOver? {
      var rest;
      rest, env := CarriedOutLast(Moved(w, m), job, ms[1..]);
      before := [m] + rest;
      ComesAfterMove(w, job, ms, rest, env);
    } else {
      LastAfterMove(w, job, ms);
      assert (w.line.waiting + [job])[..n + 1] == w.line.waiting + [job];
      before, env := CarriedOutLast(w, job, ms[1..]);
    }
  }
}
