/** The service's `Status`: OK, or an error kind with the message the
    service builds (its text reduced to the values it reports). */
module Statuses {
  import opened Ranges

  datatype Code = Invalid | IOError

  datatype Message =
    | InvalidReference(dataset: string, dna: string)
    | InconsistentReferences(rng: Range, refs: set<string>)
    | NoReference(rng: Range)
    | Aborted
    | WriteFailed
    | CloseFailed

  datatype Error = Error(code: Code, message: Message)

  datatype Status = OK | Bad(error: Error)

  datatype Result<T> = Ok(value: T) | Err(error: Error)
}
