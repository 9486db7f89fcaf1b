/** The two failures of the ledger and the messages they are raised with. */
module Errors {

  datatype Error = InvalidDate | InvalidEntry

  /** What an operation that may throw returns instead. */
  datatype Outcome = Pass | Fail(error: Error)

  function Message(e: Error): string
  {
    match e
    case InvalidDate => "Invalid date, must be dd/mm/yyyy"
    case InvalidEntry => "Invalid entry"
  }
}
