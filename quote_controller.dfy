/**
 * QuoteController: `CreateQuote` validates a request with three ordered
 * guards and, when all pass, builds a quote record from it; `GetQuotes`
 * returns a fixed listing of three records. Neither keeps or reads any state:
 * the values the runtime generates (GUIDs, the current time) are parameters.
 */
module QuoteController {

  import opened Wrappers
  import opened Guids
  import opened Strings
  import opened Models

  const MissingClientIdMessage: string := "Invalid quote request, missing client Id"
  const MissingCustomerNameMessage: string := "Invalid quote request, missing customer name"
  const MissingProductNameMessage: string := "Invalid quote request, missing product name"

  /** The fixed premium of every created quote, 123.45. */
  const CreatedPremiumCents: int := 12345

  /** What the action returns: the record (200) or a client error carrying the message (400). */
  datatype CreateResult = Ok(response: QuoteResponse) | BadRequest(message: string)

  /** `CreateQuote`: the first guard that fails decides the error; otherwise a new record. */
  function CreateQuote(request: QuoteRequest, gen: Generated): (r: CreateResult)
    ensures r.Ok? <==> request.clientId != Empty
                       && !IsNullOrWhiteSpace(request.customerName)
                       && !IsNullOrWhiteSpace(request.productName)
    ensures r.BadRequest? ==>
              r.message in {MissingClientIdMessage, MissingCustomerNameMessage, MissingProductNameMessage}
  {
    if request.clientId == Empty then
      BadRequest(MissingClientIdMessage)
    else if IsNullOrWhiteSpace(request.customerName) then
      BadRequest(MissingCustomerNameMessage)
    else if IsNullOrWhiteSpace(request.productName) then
      BadRequest(MissingProductNameMessage)
    else
      Ok(QuoteResponse(
        submissionId := Format(gen.submission),
        quoteId := Format(gen.quote),
        clientId := request.clientId,
        customerName := request.customerName.value,
        productName := request.productName.value,
        premiumCents := CreatedPremiumCents,
        createdAt := gen.createdAt))
  }

  /** An empty client id is reported, whatever the names hold. */
  lemma MissingClientIdRejected(request: QuoteRequest, gen: Generated)
    requires request.clientId == Empty
    ensures CreateQuote(request, gen) == BadRequest(MissingClientIdMessage)
  {
  }

  /** With a client id present, a null or blank customer name is reported, whatever the product name holds. */
  lemma MissingCustomerNameRejected(request: QuoteRequest, gen: Generated)
    requires request.clientId != Empty && IsNullOrWhiteSpace(request.customerName)
    ensures CreateQuote(request, gen) == BadRequest(MissingCustomerNameMessage)
  {
  }

  /** With client id and customer name present, a null or blank product name is reported. */
  lemma MissingProductNameRejected(request: QuoteRequest, gen: Generated)
    requires request.clientId != Empty && !IsNullOrWhiteSpace(request.customerName)
    requires IsNullOrWhiteSpace(request.productName)
    ensures CreateQuote(request, gen) == BadRequest(MissingProductNameMessage)
  {
  }

  /** One guard of the validator: whether it rejects the request, and with which message. */
  datatype Guard = Guard(rejects: bool, message: string)

  /**
   * The guards in the order the controller evaluates them. Their messages are
   * pairwise distinct, so a reported message names exactly one guard.
   */
  function Guards(request: QuoteRequest): (gs: seq<Guard>)
    ensures |gs| == 3
    ensures forall j, k :: 0 <= j < k < |gs| ==> gs[j].message != gs[k].message
  {
    [ Guard(request.clientId == Empty, MissingClientIdMessage),
      Guard(IsNullOrWhiteSpace(request.customerName), MissingCustomerNameMessage),
      Guard(IsNullOrWhiteSpace(request.productName), MissingProductNameMessage) ]
  }

  /** Reference reading of "reject on the first failing guard": its message, if any guard fails. */
  function FirstRejection(gs: seq<Guard>): (m: Option<string>)
    ensures m.None? <==> forall k :: 0 <= k < |gs| ==> !gs[k].rejects
    ensures m.Some? ==> exists k :: 0 <= k < |gs| && gs[k].rejects && gs[k].message == m.value
                                    && forall j :: 0 <= j < k ==> !gs[j].rejects
  {
    if gs == [] then None
    else if gs[0].rejects then Some(gs[0].message)
    else
      var rest := FirstRejection(gs[1..]);
      assert forall k :: 1 <= k < |gs| ==> gs[k] == gs[1..][k - 1];
      rest
  }

  /**
   * Exactly one message is reported, and it is the one of the first guard
   * that fails; the request is accepted exactly when no guard fails.
   */
  lemma {:induction false} ReportsFirstFailingGuard(request: QuoteRequest, gen: Generated)
    ensures match CreateQuote(request, gen)
            case BadRequest(m) => FirstRejection(Guards(request)) == Some(m)
            case Ok(_) => FirstRejection(Guards(request)) == None
  {
    var gs := Guards(request);
    assert gs[1..] == gs[1..3];
    assert gs[1..][1..] == [gs[2]];
    assert [gs[2]][1..] == [];
  }

  /** An accepted request is copied verbatim into the record, with the fixed premium and the supplied ids and time. */
  lemma AcceptedQuoteCopiesRequest(request: QuoteRequest, gen: Generated)
    requires CreateQuote(request, gen).Ok?
    ensures var q := CreateQuote(request, gen).response;
            && request.customerName == Some(q.customerName)
            && request.productName == Some(q.productName)
            && q.clientId == request.clientId
            && q.premiumCents == CreatedPremiumCents
            && Parse(q.submissionId) == Some(gen.submission)
            && Parse(q.quoteId) == Some(gen.quote)
            && q.createdAt == gen.createdAt
  {
    ParseFormat(gen.submission);
    ParseFormat(gen.quote);
  }

  /** A created quote never carries the empty client id. */
  lemma CreatedQuoteHasClientId(request: QuoteRequest, gen: Generated)
    requires CreateQuote(request, gen).Ok?
    ensures CreateQuote(request, gen).response.clientId != Empty
  {
  }

  /** SubmissionId and QuoteId differ exactly when the two generated GUIDs differ. */
  lemma DistinctIdsIffDistinctGuids(request: QuoteRequest, gen: Generated)
    requires CreateQuote(request, gen).Ok?
    ensures var q := CreateQuote(request, gen).response;
            q.submissionId != q.quoteId <==> gen.submission != gen.quote
  {
    FormatInjective(gen.submission, gen.quote);
  }

  /**
   * The outcome depends on the generated values only through the two ids and
   * the timestamp: rejections ignore them entirely, and two acceptances of one
   * request agree on every other field.
   */
  lemma OutcomeIndependentOfGenerated(request: QuoteRequest, gen1: Generated, gen2: Generated)
    ensures CreateQuote(request, gen1).Ok? == CreateQuote(request, gen2).Ok?
    ensures CreateQuote(request, gen1).BadRequest? ==> CreateQuote(request, gen1) == CreateQuote(request, gen2)
    ensures CreateQuote(request, gen1).Ok? ==>
              var q1, q2 := CreateQuote(request, gen1).response, CreateQuote(request, gen2).response;
              q1.(submissionId := q2.submissionId, quoteId := q2.quoteId, createdAt := q2.createdAt) == q2
  {
  }

  /** Two acceptances of one request, with different generated GUIDs, never share a QuoteId or a SubmissionId. */
  lemma RetriesGetNewIds(request: QuoteRequest, gen1: Generated, gen2: Generated)
    requires CreateQuote(request, gen1).Ok?
    ensures var q1, q2 := CreateQuote(request, gen1).response, CreateQuote(request, gen2).response;
            && (q1.submissionId == q2.submissionId <==> gen1.submission == gen2.submission)
            && (q1.quoteId == q2.quoteId <==> gen1.quote == gen2.quote)
  {
    FormatInjective(gen1.submission, gen2.submission);
    FormatInjective(gen1.quote, gen2.quote);
  }

  /** A record of the fixed listing; its client id is never set, so it stays `Guid.Empty`. */
  function ListedQuote(customerName: string, productName: string, premiumCents: int, gen: Generated): (q: QuoteResponse)
    ensures q.clientId == Empty
    ensures q.customerName == customerName && q.productName == productName && q.premiumCents == premiumCents
    ensures q.createdAt == gen.createdAt
  {
    QuoteResponse(
      submissionId := Format(gen.submission),
      quoteId := Format(gen.quote),
      clientId := Empty,
      customerName := customerName,
      productName := productName,
      premiumCents := premiumCents,
      createdAt := gen.createdAt)
  }

  /** `GetQuotes`: three hard-coded records, one set of generated values per record. */
  function GetQuotes(gen1: Generated, gen2: Generated, gen3: Generated): (qs: seq<QuoteResponse>)
    ensures |qs| == 3
    ensures qs[0].customerName == "John Doe" && qs[0].productName == "Product A" && qs[0].premiumCents == 10000
    ensures qs[1].customerName == "Jane Smith" && qs[1].productName == "Product B" && qs[1].premiumCents == 20000
    ensures qs[2].customerName == "Alice Johnson" && qs[2].productName == "Product C" && qs[2].premiumCents == 15000
    ensures forall k :: 0 <= k < 3 ==> qs[k].clientId == Empty
  {
    var john := ListedQuote("John Doe", "Product A", 10000, gen1);
    var jane := ListedQuote("Jane Smith", "Product B", 20000, gen2);
    var alice := ListedQuote("Alice Johnson", "Product C", 15000, gen3);
    [john, jane, alice]
  }

  /** A record's ids read back as the given GUIDs, and its CreatedAt is the given time. */
  predicate CarriesGenerated(q: QuoteResponse, gen: Generated) {
    && Parse(q.submissionId) == Some(gen.submission)
    && Parse(q.quoteId) == Some(gen.quote)
    && q.createdAt == gen.createdAt
  }

  /** Each listed record's ids are the text of the GUIDs generated for it, and its CreatedAt the time supplied for it. */
  lemma ListedIdsAreGenerated(gen1: Generated, gen2: Generated, gen3: Generated)
    ensures var qs := GetQuotes(gen1, gen2, gen3);
            CarriesGenerated(qs[0], gen1) && CarriesGenerated(qs[1], gen2) && CarriesGenerated(qs[2], gen3)
  {
    ListedQuoteCarriesGenerated("John Doe", "Product A", 10000, gen1);
    ListedQuoteCarriesGenerated("Jane Smith", "Product B", 20000, gen2);
    ListedQuoteCarriesGenerated("Alice Johnson", "Product C", 15000, gen3);
  }

  lemma ListedQuoteCarriesGenerated(customerName: string, productName: string, premiumCents: int, gen: Generated)
    ensures CarriesGenerated(ListedQuote(customerName, productName, premiumCents, gen), gen)
  {
    ParseFormat(gen.submission);
    ParseFormat(gen.quote);
  }

  /**
   * The listing takes nothing from creation: no record it returns is one that
   * `CreateQuote` could have returned, for any request and any generated values.
   */
  lemma ListingHoldsNoCreatedQuote(gen1: Generated, gen2: Generated, gen3: Generated,
                                   request: QuoteRequest, gen: Generated, k: nat)
    requires k < 3
    ensures CreateQuote(request, gen) != Ok(GetQuotes(gen1, gen2, gen3)[k])
  {
  }

  /** Apart from ids and timestamps, every call lists the same three records in the same order. */
  lemma ListingIsFixed(a1: Generated, a2: Generated, a3: Generated, b1: Generated, b2: Generated, b3: Generated)
    ensures var xs, ys := GetQuotes(a1, a2, a3), GetQuotes(b1, b2, b3);
            forall k :: 0 <= k < 3 ==>
              xs[k].(submissionId := ys[k].submissionId, quoteId := ys[k].quoteId, createdAt := ys[k].createdAt) == ys[k]
  {
  }
}
