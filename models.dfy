/**
 * The request and response records of the quoting API
 * (Models/QuoteRequest.cs and Models/QuoteResponse.cs).
 */
module Models {

  import opened Wrappers
  import opened Guids

  /** `DateTime` as its tick count (100 ns units since 0001-01-01), up to `DateTime.MaxValue`. */
  newtype DateTime = ticks: int | 0 <= ticks <= 3155378975999999999

  /**
   * A quote request as the controller receives it. The two names are
   * reference-typed strings and may be null; the client id is a value type.
   */
  datatype QuoteRequest = QuoteRequest(
    clientId: Guid,
    customerName: Option<string>,
    productName: Option<string>)

  /**
   * A quote record. `premiumCents` is the decimal premium in hundredths
   * (123.45 is 12345). Every record the controller builds sets both ids and
   * both names, so they are not nullable here.
   */
  datatype QuoteResponse = QuoteResponse(
    submissionId: string,
    quoteId: string,
    clientId: Guid,
    customerName: string,
    productName: string,
    premiumCents: int,
    createdAt: DateTime)

  /**
   * The values the runtime supplies while one record is built: the two
   * `Guid.NewGuid()` results (for SubmissionId, then QuoteId) and the
   * `DateTime.UtcNow` that initialises CreatedAt.
   */
  datatype Generated = Generated(submission: Guid, quote: Guid, createdAt: DateTime)
}
