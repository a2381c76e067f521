/** Vocabulary shared by every layer: optional values and the provider's
    operation status (src/i2c/status.hpp). */
module Statuses {
  datatype Option<+T> = None | Some(value: T)

  datatype StatusCode =
    | Ok
    | InvalidArgument
    | NotFound
    | Unavailable
    | DeadlineExceeded
    | Cancelled
    | Internal

  datatype Status = Status(code: StatusCode, message: string) {
    predicate IsOk() { code == Ok }
  }

  const OK := Status(Ok, "ok")

  // What the bus executor tells its callers on its own account.
  const NOT_RUNNING := Status(Unavailable, "executor is not running")
  const STOPPED := Status(Cancelled, "executor stopped before task execution")
  const SKIPPED := Status(Cancelled, "task skipped because caller timed out")
  const TIMED_OUT := Status(DeadlineExceeded, "job timed out")
}
