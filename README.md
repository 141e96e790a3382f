# ClusterFlux quoting API — Dafny model of `QuoteController`

This project models the quoting controller of the ClusterFlux quoting API:

- `CreateQuote` checks a quote request with three guards, in a fixed order, and
  rejects it with the message of the first guard that fails:
  1. the client id is the empty GUID;
  2. the customer name is null, empty or white space only;
  3. the product name is null, empty or white space only.

  When all three pass, it builds a quote record. The record copies the client id
  and both names from the request, sets the premium to 123.45, and takes its
  SubmissionId and QuoteId from two freshly generated GUIDs, as text.
- `GetQuotes` returns three hard-coded records ("John Doe", "Product A", 100.00),
  ("Jane Smith", "Product B", 200.00) and ("Alice Johnson", "Product C", 150.00).
  Their ids are fresh GUIDs and their client id is never set, so it is the empty GUID.

Both actions are modelled as pure functions. Neither keeps or reads state.
`CreateQuote` builds sliding-expiration cache options but never uses them,
and `GetQuotes` does not look at anything that `CreateQuote` produced.

The runtime's nondeterministic values are parameters (`Models.Generated`): the two
`Guid.NewGuid()` results and the `DateTime.UtcNow` that initialises `CreatedAt`.
`GetQuotes` takes one such set per record. Decimal premiums are integer cents
(123.45 is 12345). `Guid.ToString()` is modelled as the lower-case "D" form
(8-4-4-4-12 hexadecimal digits). Its parser round trip shows that the text is
injective, so a quote's two ids differ exactly when the two generated GUIDs differ.
`string.IsNullOrWhiteSpace` is modelled over the characters that
`char.IsWhiteSpace` accepts.

Files: `wrappers.dfy` (Option), `guids.dfy` (GUID text), `strings.dfy`
(white-space test), `models.dfy` (request and response records),
`quote_controller.dfy` (the two actions and their properties).

`CreateQuote` builds a `MemoryCacheEntryOptions` with a 100-minute sliding
expiration and discards it. No cache is injected, so nothing is stored, and
`GetQuotes` returns literals. The model therefore has no ledger and no append,
and its listing is fixed.

## Model

| member | source | states |
|---|---|---|
| `QuoteController.CreateQuote` | apps/ClusterFlux.Quoting.API/Controllers/QuoteController.cs:19-57 | the request is accepted exactly when the client id is not empty and neither name is null or blank; a rejection carries one of the three fixed messages |
| `QuoteController.MissingClientIdRejected` | apps/ClusterFlux.Quoting.API/Controllers/QuoteController.cs:28-29 | an empty client id gives "Invalid quote request, missing client Id", whatever the names hold |
| `QuoteController.MissingCustomerNameRejected` | apps/ClusterFlux.Quoting.API/Controllers/QuoteController.cs:31-32 | with a client id present, a null or blank customer name gives "Invalid quote request, missing customer name", whatever the product name holds |
| `QuoteController.MissingProductNameRejected` | apps/ClusterFlux.Quoting.API/Controllers/QuoteController.cs:34-35 | with client id and customer name present, a null or blank product name gives "Invalid quote request, missing product name" |
| `QuoteController.Guards` | apps/ClusterFlux.Quoting.API/Controllers/QuoteController.cs:28-35 | the three guards in source order (client id, customer name, product name), each with its own message; the messages are pairwise distinct, so a reported message names exactly one guard |
| `QuoteController.FirstRejection` | apps/ClusterFlux.Quoting.API/Controllers/QuoteController.cs:28-35 | reference reading of an ordered guard list: no message exactly when no guard fails; otherwise the message of a failing guard that every earlier guard passes |
| `QuoteController.ReportsFirstFailingGuard` | apps/ClusterFlux.Quoting.API/Controllers/QuoteController.cs:28-35 | the outcome of `CreateQuote` is the first-failure reading of its three guards in source order: one message, never an aggregate; acceptance when none fails |
| `QuoteController.AcceptedQuoteCopiesRequest` | apps/ClusterFlux.Quoting.API/Controllers/QuoteController.cs:40-48 | an accepted record holds the request's client id and names unchanged, the premium 123.45, the two generated GUIDs (SubmissionId first, then QuoteId) and the supplied CreatedAt |
| `QuoteController.CreatedQuoteHasClientId` | apps/ClusterFlux.Quoting.API/Controllers/QuoteController.cs:28-29 | a created record never has the empty client id |
| `QuoteController.DistinctIdsIffDistinctGuids` | apps/ClusterFlux.Quoting.API/Controllers/QuoteController.cs:42-43 | SubmissionId and QuoteId differ exactly when the two generated GUIDs differ |
| `QuoteController.OutcomeIndependentOfGenerated` | apps/ClusterFlux.Quoting.API/Controllers/QuoteController.cs:37-50 | the result depends only on the request and the generated values; a rejection ignores the generated values; two acceptances of one request differ only in ids and CreatedAt |
| `QuoteController.RetriesGetNewIds` | apps/ClusterFlux.Quoting.API/Controllers/QuoteController.cs:42-43 | two acceptances of the same request share a SubmissionId (or a QuoteId) only if they were given the same GUID for it |
| `QuoteController.ListedQuote` | apps/ClusterFlux.Quoting.API/Controllers/QuoteController.cs:66-73 | a listed record has the given names and premium, the empty client id and the supplied CreatedAt |
| `QuoteController.GetQuotes` | apps/ClusterFlux.Quoting.API/Controllers/QuoteController.cs:60-93 | exactly three records, in order John Doe / Product A / 100.00, Jane Smith / Product B / 200.00, Alice Johnson / Product C / 150.00, each with the empty client id |
| `QuoteController.ListedIdsAreGenerated` | apps/ClusterFlux.Quoting.API/Controllers/QuoteController.cs:66-89 | each listed record's SubmissionId and QuoteId are the text of the two GUIDs generated for that record, and its CreatedAt is the time supplied for it |
| `QuoteController.ListingHoldsNoCreatedQuote` | apps/ClusterFlux.Quoting.API/Controllers/QuoteController.cs:64-92 | no record of the listing is a record that `CreateQuote` could return, for any request |
| `QuoteController.ListingIsFixed` | apps/ClusterFlux.Quoting.API/Controllers/QuoteController.cs:64-92 | apart from ids and timestamps, every call returns the same three records in the same order |
| `Guids.Format` | apps/ClusterFlux.Quoting.API/Controllers/QuoteController.cs:42-43 | the text of a GUID has 36 characters, hyphens at positions 8, 13, 18 and 23, and lower-case hexadecimal digits elsewhere |
| `Guids.ParseFormat` | apps/ClusterFlux.Quoting.API/Controllers/QuoteController.cs:42-43 | parsing the text of a GUID gives that GUID back |
| `Guids.FormatInjective` | apps/ClusterFlux.Quoting.API/Controllers/QuoteController.cs:42-43 | two GUIDs have the same text exactly when they are equal |
| `Strings.IsWhiteSpace` | apps/ClusterFlux.Quoting.API/Controllers/QuoteController.cs:31-35 | `char.IsWhiteSpace`, which decides both name guards: written as code-point ranges, and proved to hold exactly for the 25 characters of the enumerated set `WhiteSpaceChars` (U+0009 to U+000D, U+0020, U+0085, U+00A0, U+1680, U+2000 to U+200A, U+2028, U+2029, U+202F, U+205F, U+3000) |
| `Strings.IsNullOrWhiteSpace` | apps/ClusterFlux.Quoting.API/Controllers/QuoteController.cs:31-35 | the `string.IsNullOrWhiteSpace` test of lines 31 and 34: true exactly for null or for a string every character of which is in the white-space set |
| `Strings.PresentWhenSomeCharIsNotSpace` | apps/ClusterFlux.Quoting.API/Controllers/QuoteController.cs:31-35 | a name with one character that is not white space passes the name guards |
| `Strings.MissingValues` | apps/ClusterFlux.Quoting.API/Controllers/QuoteController.cs:31-35 | null, the empty string and strings of spaces, tabs, line breaks or non-breaking spaces fail the name guards |

## Left out

- Logging through `ILogger` (the calls at the start of both actions and in the error handler): output only, with no effect on results.
- The sliding-expiration cache options that `CreateQuote` builds: they are never attached to any cache, and no cache is injected. So the model has no ledger, no expiry and no concurrent read-modify-write.
- The `request == null` branch: the logging call before it already dereferences the request, so a null request never reaches that check.
- ASP.NET plumbing: routing, `[FromBody]` binding, the `[Required]` annotations on `QuoteRequest` that the framework checks before the action runs, and the `ActionResult` wrapping. The outcome is a plain `CreateResult` value.
- GUID generation and `DateTime.UtcNow`: nondeterministic runtime calls, taken as parameters.
- The load-test script (load-tests/quote-test.js): HTTP traffic generation, which is I/O only.
- C# strings are sequences of UTF-16 code units; here a string is a sequence of Unicode scalar values. So the model has no lone surrogates, and a character outside the Basic Multilingual Plane counts as one element, not two. This does not change any guard outcome: every white-space character is in the Basic Multilingual Plane and is not a surrogate.
- Response ids and names are non-null strings in the model. The C# properties are nullable, but every record the controller builds sets all four.
