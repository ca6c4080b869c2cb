/**
 * The error values that cross the layers: the sentinel errors of
 * pkg/postres, errors of the SQL driver, the type-parse failure and the
 * producer's failure.
 */
module Errors {

  /** PostgreSQL's SQLSTATE for unique_violation (class 23, integrity constraint violation). */
  const UniqueViolation: string := "23505"

  /** An error raised by the driver layer and, unless classified, returned unchanged. */
  datatype DriverError =
    | PqError(code: string)            // a `*pq.Error` carrying its SQLSTATE
    | ErrNoRows                        // `sql.ErrNoRows`: a single-row query found nothing
    | OtherDriverError(message: string) // any other failure (connection, timeout, ...)

  datatype Error =
    | NoRowsErr                          // postres.NoRowsErr
    | DuplicateKey                       // postres.DuplicateKey
    | InvalidArgumentsForBuildingquery   // postres.InvalidArgumentsForBuildingquery
    | Driver(cause: DriverError)         // a driver error passed through unchanged
    | UnknownCompanyType(text: string)   // GetCompTypeFromString rejected a stored type
    | ProduceFailed                      // the producer could not hand off the event
}
