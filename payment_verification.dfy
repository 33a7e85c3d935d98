/** The client side of payment verification: reading the parameters the
    provider appends to the return URL, and asking the server relay whether the
    payment was made. */
module PaymentVerification {
  import opened Wrappers
  import opened Web

  /** The five parameters the provider appends to the return URL. */
  datatype VerificationParams = VerificationParams(
    receiptUrl: string, transactionId: string, captureMethod: string, orderNsu: string, slug: string)

  /** `{success, paid}` as the relay answers. */
  datatype VerificationResponse = VerificationResponse(success: bool, paid: bool)

  /** The JSON body posted to the relay, under the relay's field names
      `handle`, `transaction_nsu`, `external_order_nsu` and `slug`. */
  datatype VerifyRequestBody = VerifyRequestBody(
    handle: string, transactionNsu: string, externalOrderNsu: string, slug: string)

  const NotPaid: VerificationResponse := VerificationResponse(false, false)

  /** All five provider parameters are present and non-empty. */
  predicate HasAllReturnParams(params: map<string, string>) {
    && Truthy(GetParam(params, "receipt_url"))
    && Truthy(GetParam(params, "transaction_id"))
    && Truthy(GetParam(params, "capture_method"))
    && Truthy(GetParam(params, "order_nsu"))
    && Truthy(GetParam(params, "slug"))
  }

  /** `parsePaymentParams`: all five parameters, or nothing when the URL cannot be
      parsed or any of them is missing or empty. */
  function ParsePaymentParams(url: ParsedUrl): (r: Option<VerificationParams>)
    ensures r.Some? <==> url.Parsed? && HasAllReturnParams(url.searchParams)
    ensures r.Some? ==> r.value == VerificationParams(
      url.searchParams["receipt_url"], url.searchParams["transaction_id"],
      url.searchParams["capture_method"], url.searchParams["order_nsu"], url.searchParams["slug"])
  {
    match url
    case Unparseable => None
    case Parsed(_, params) =>
      var receiptUrl := GetParam(params, "receipt_url");
      var transactionId := GetParam(params, "transaction_id");
      var captureMethod := GetParam(params, "capture_method");
      var orderNsu := GetParam(params, "order_nsu");
      var slug := GetParam(params, "slug");
      if !Truthy(receiptUrl) || !Truthy(transactionId) || !Truthy(captureMethod) ||
         !Truthy(orderNsu) || !Truthy(slug) then None
      else Some(VerificationParams(receiptUrl.value, transactionId.value, captureMethod.value,
                                   orderNsu.value, slug.value))
  }

  /** The search parameters a return URL carries for `p`. */
  function ReturnParams(p: VerificationParams): map<string, string> {
    map["receipt_url" := p.receiptUrl, "transaction_id" := p.transactionId,
        "capture_method" := p.captureMethod, "order_nsu" := p.orderNsu, "slug" := p.slug]
  }

  /** Reading the return URL gives back exactly what the provider appended,
      whatever other parameters the URL carries. */
  lemma ParseReturnUrl(protocol: string, others: map<string, string>, p: VerificationParams)
    requires p.receiptUrl != "" && p.transactionId != "" && p.captureMethod != ""
    requires p.orderNsu != "" && p.slug != ""
    ensures ParsePaymentParams(Parsed(protocol, others + ReturnParams(p))) == Some(p)
  {
  }

  /** `verifyPayment`: posts the request body to the relay; answers the relay's
      parsed body when the response is ok, and `{success: false, paid: false}`
      on a failed response, a network error or a body that is not JSON. */
  function VerifyPayment(handle: string, transactionNsu: string, externalOrderNsu: string, slug: string,
                         relay: FetchOutcome<VerificationResponse>): (r: (VerifyRequestBody, VerificationResponse))
    ensures r.0 == VerifyRequestBody(handle, transactionNsu, externalOrderNsu, slug)
    ensures relay.HttpResponse? && relay.ok && relay.body.Ok? ==> r.1 == relay.body.value
    ensures !(relay.HttpResponse? && relay.ok && relay.body.Ok?) ==> r.1 == NotPaid
    ensures r.1.paid ==> relay.HttpResponse? && relay.ok && relay.body.Ok? && relay.body.value.paid
  {
    var body := VerifyRequestBody(handle, transactionNsu, externalOrderNsu, slug);
    match relay
    case NetworkError(_) => (body, NotPaid)
    case HttpResponse(ok, _, parsed) =>
      if !ok then (body, NotPaid)
      else if parsed.Err? then (body, NotPaid)
      else (body, parsed.value)
  }
}
