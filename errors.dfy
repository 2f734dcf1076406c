/** The client-visible failures of the two report endpoints. */
module Errors {

  /** No transactions loaded (HTTP 404), and a monthly income that is not
      strictly positive (rejected by the `Query(gt=0)` validation before the
      `/summary` handler runs). */
  datatype Error = NoData | InvalidInput
}
