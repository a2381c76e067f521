/** The simple serial service the bus executor is meant to be: jobs wait in a
    line, the head of the line is served as one indivisible unit or passed over,
    and nobody overtakes. The executor is proved to refine this line
    (ExecutorTheorems), and the provider model is built on top of it (Provider). */
module ServiceLine {
  /** `served` is the history of jobs carried out, in order, with what each did. */
  datatype Line<T, R> = Line(waiting: seq<T>, served: seq<(T, R)>)

  datatype Move<T, R> =
    | Join(job: T)        // a job is accepted at the end of the line
    | Serve(record: R)    // the head job is carried out as a whole
    | PassOver            // the head job is dropped without being carried out
    | Dismiss(keep: nat)  // everything after the first `keep` jobs is dropped
    | Stay

  predicate Possible<T, R>(line: Line<T, R>, move: Move<T, R>) {
    match move
    case Join(_) => true
    case Serve(_) => line.waiting != []
    case PassOver => line.waiting != []
    case Dismiss(keep) => keep <= |line.waiting|
    case Stay => true
  }

  function Advance<T, R>(line: Line<T, R>, move: Move<T, R>): Line<T, R>
    requires Possible(line, move)
  {
    match move
    case Join(job) => line.(waiting := line.waiting + [job])
    case Serve(record) => Line(line.waiting[1..], line.served + [(line.waiting[0], record)])
    case PassOver => line.(waiting := line.waiting[1..])
    case Dismiss(keep) => line.(waiting := line.waiting[..keep])
    case Stay => line
  }
}
