/** Error codes and result wrappers shared by the repository, usecase and auth layers. */
module Errors {

  /** The coded error kinds the core attaches to its failures. `Uncoded` stands for an
      error some collaborator returned without a code (a builder error, a row-scan error,
      a token error, an integer-parse error) that the core passes through untouched;
      `Panic` stands for a Go runtime panic (nil dereference, index out of range). */
  datatype Code =
    | SQLBuilder
    | SQLRead
    | SQLRowScan
    | SQLTxBegin
    | SQLTxExec
    | SQLTxCommit
    | SQLNoRowsAffected
    | Unauthorized
    | InvalidValue
    | Uncoded
    | Panic

  datatype Error = Error(code: Code, message: string)

  datatype Option<+T> = None | Some(value: T)

  /** The (value, error) pair of a Go call: on failure the value returned beside the
      error is the zero value, which no caller reads, so only the error is kept. */
  datatype Result<+T> = Ok(value: T) | Fail(error: Error)

  /** `errors.NewWithCode(code, err.Error())`: a new coded error keeping the message. */
  function Recode(code: Code, e: Error): Error
  {
    Error(code, e.message)
  }
}
