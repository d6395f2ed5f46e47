/** Failures the training harness can raise. The harness catches nothing: each
    of these aborts the run (fail-fast). */
module Outcomes {

  datatype Error =
    | ZeroReportInterval          // `global_step % report_every` with report_every == 0
    | EmptyTuneLoader             // `cum_acc / len(tune_loader)` with an empty loader
    | MissingCheckpoint(path: string)  // loading a "latest" file that does not exist

  /** The outcome of an operation that returns nothing on success. */
  datatype Outcome = Pass | Fail(error: Error)

  /** The outcome of an operation that yields a value on success. */
  datatype Result<+T> = Ok(value: T) | Err(error: Error)
}
