/** The types the other modules share. */
module Wrappers {
  datatype Option<+T> = None | Some(value: T)

  datatype Result<+T, +E> = Ok(value: T) | Err(error: E)

  /** Redis answers a command, or is not reached, or carries it out while its answer is lost. */
  datatype Connection = Answers | Unreached | AnswerLost
}
