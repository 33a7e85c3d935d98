/** The server relay `verify-payment`: it checks the request's four fields,
    asks InfinitePay's payment-check endpoint and answers the caller. */
module VerifyPaymentFunction {
  import opened Wrappers
  import opened Web
  import Money
  import PaymentVerification

  type VerificationResponse = PaymentVerification.VerificationResponse

  /** The four fields read from the request's JSON body; `None` stands for a
      field that is missing or not a string. */
  datatype RequestFields = RequestFields(
    handle: Option<string>, transactionNsu: Option<string>, externalOrderNsu: Option<string>, slug: Option<string>)

  /** An incoming request: its method and its body read as JSON (`Err` when
      `req.json()` rejects, with the error's message). */
  datatype Request = Request(httpMethod: string, body: Result<RequestFields, string>)

  datatype ResponseBody =
    | PlainText(text: string)
    | MissingParameters(error: string)
    | Failure(error: string, success: bool, paid: bool)
    | Verification(result: VerificationResponse)

  datatype Response = Response(status: nat, body: ResponseBody)

  /** The GET request sent to InfinitePay. */
  datatype ProviderRequest = ProviderRequest(url: Url)

  /** What the handler answers, and the provider request it made, if any. */
  datatype Handled = Handled(response: Response, providerCall: Option<ProviderRequest>)

  const ProviderBase: string := "https://api.infinitepay.io/invoices/public/checkout/payment_check/"
  const MissingMessage: string := "Missing required parameters: handle, transaction_nsu, external_order_nsu, slug"
  const InternalError: string := "Internal server error"

  /** The handle goes in the path; the three other fields, and only they, in
      the query. */
  function ProviderUrl(handle: string, transactionNsu: string, externalOrderNsu: string, slug: string): (u: Url)
    ensures u.base == ProviderBase + handle
    ensures |u.query| == 3
    ensures Lookup(u.query, "transaction_nsu") == Some(transactionNsu)
    ensures Lookup(u.query, "external_order_nsu") == Some(externalOrderNsu)
    ensures Lookup(u.query, "slug") == Some(slug)
    ensures forall i :: 0 <= i < |u.query| ==> u.query[i].0 in {"transaction_nsu", "external_order_nsu", "slug"}
  {
    var query := [("transaction_nsu", transactionNsu), ("external_order_nsu", externalOrderNsu), ("slug", slug)];
    assert query[1..][1..] == [("slug", slug)];
    assert query[0].0 != "slug" && query[1].0 != "slug";
    assert Lookup(query[1..], "slug") == Lookup(query[1..][1..], "slug");
    Url(ProviderBase + handle, query)
  }

  /** The answer to any error thrown while handling: status 500, never paid. */
  function ThrownResponse(message: string): (r: Response)
    ensures r.status == 500 && r.body.Failure? && !r.body.success && !r.body.paid
  {
    Response(500, Failure(OrElse(Some(message), InternalError), false, false))
  }

  /** The request handler. `provider` is InfinitePay's answer to the request the
      handler sends, used only when one is sent. */
  function HandleRequest(req: Request, provider: FetchOutcome<VerificationResponse>): (h: Handled)
    ensures req.httpMethod == "OPTIONS" ==> h == Handled(Response(200, PlainText("ok")), None)
    ensures req.httpMethod != "OPTIONS" && req.body.Ok? && !AllPresent(req.body.value) ==>
      h.providerCall.None? && h.response.status == 400 && h.response.body == MissingParameters(MissingMessage)
    ensures h.providerCall.Some? <==> req.httpMethod != "OPTIONS" && req.body.Ok? && AllPresent(req.body.value)
    ensures h.providerCall.Some? ==> var f := req.body.value;
      h.providerCall.value.url == ProviderUrl(f.handle.value, f.transactionNsu.value, f.externalOrderNsu.value, f.slug.value)
    ensures h.providerCall.Some? && provider.HttpResponse? && !provider.ok ==>
      h.response.status == 500 && h.response.body.Failure? && !h.response.body.success && !h.response.body.paid
    ensures h.providerCall.Some? && provider.HttpResponse? && provider.ok && provider.body.Ok? ==>
      h.response == Response(200, Verification(provider.body.value))
    ensures (req.httpMethod != "OPTIONS" &&
             (req.body.Err? || (h.providerCall.Some? && (provider.NetworkError? || (provider.ok && provider.body.Err?))))) ==>
      h.response.status == 500 && h.response.body.Failure? && !h.response.body.success && !h.response.body.paid
    ensures h.response.status == 200 && req.httpMethod != "OPTIONS" ==>
      h.providerCall.Some? && provider.HttpResponse? && provider.ok && provider.body.Ok?
    ensures PaidResponse(h.response) ==>
      h.providerCall.Some? && provider.HttpResponse? && provider.ok && provider.body.Ok? && provider.body.value.paid
  {
    if req.httpMethod == "OPTIONS" then Handled(Response(200, PlainText("ok")), None)
    else
      match req.body
      case Err(message) => Handled(ThrownResponse(message), None)
      case Ok(fields) =>
        if !AllPresent(fields) then Handled(Response(400, MissingParameters(MissingMessage)), None)
        else
          var call := ProviderRequest(ProviderUrl(fields.handle.value, fields.transactionNsu.value,
                                                  fields.externalOrderNsu.value, fields.slug.value));
          match provider
          case NetworkError(message) => Handled(ThrownResponse(message), Some(call))
          case HttpResponse(ok, status, body) =>
            if !ok then
              Handled(Response(500, Failure("Payment verification failed: " + Money.NatToString(status), false, false)),
                      Some(call))
            else
              match body
              case Err(message) => Handled(ThrownResponse(message), Some(call))
              case Ok(result) => Handled(Response(200, Verification(result)), Some(call))
  }

  /** `!handle || !transaction_nsu || !external_order_nsu || !slug` is false. */
  predicate AllPresent(f: RequestFields) {
    Truthy(f.handle) && Truthy(f.transactionNsu) && Truthy(f.externalOrderNsu) && Truthy(f.slug)
  }

  /** A response that tells the caller the payment was made. */
  predicate PaidResponse(r: Response) {
    (r.body.Failure? && r.body.paid) || (r.body.Verification? && r.body.result.paid)
  }

  // ---------------------------------------------------------------------------
  // The relay as the client sees it

  /** The client's view of a relay response: `response.ok` is a 2xx status, and
      the body read as JSON carries `success` and `paid` when the relay put
      them there. */
  function AsSeenByClient(r: Response): FetchOutcome<VerificationResponse> {
    var body: Result<VerificationResponse, string> :=
      match r.body
      case Verification(result) => Ok(result)
      case Failure(_, success, paid) => Ok(PaymentVerification.VerificationResponse(success, paid))
      case MissingParameters(error) => Err(error)
      case PlainText(text) => Err(text);
    HttpResponse(200 <= r.status < 300, r.status, body)
  }

  /** The client's `verifyPayment` talking to this relay: the client hears
      `paid: true` only when InfinitePay answered ok with `paid: true`, an empty
      argument stops the relay before it calls InfinitePay, and an ok answer from
      InfinitePay reaches the client unchanged. */
  lemma ClientHearsPaidOnlyFromProvider(handle: string, transactionNsu: string, externalOrderNsu: string,
                                        slug: string, provider: FetchOutcome<VerificationResponse>)
    ensures var (body, _) := PaymentVerification.VerifyPayment(handle, transactionNsu, externalOrderNsu, slug,
                                                                NetworkError(""));
      var h := HandleRequest(Request("POST", Ok(RequestFields(Some(body.handle), Some(body.transactionNsu),
                                                             Some(body.externalOrderNsu), Some(body.slug)))),
                             provider);
      var (_, r) := PaymentVerification.VerifyPayment(handle, transactionNsu, externalOrderNsu, slug,
                                                      AsSeenByClient(h.response));
      && (r.paid ==> provider.HttpResponse? && provider.ok && provider.body.Ok? && provider.body.value.paid)
      && (handle == "" || transactionNsu == "" || externalOrderNsu == "" || slug == "" ==>
            h.providerCall.None? && r == PaymentVerification.NotPaid)
      && ((handle != "" && transactionNsu != "" && externalOrderNsu != "" && slug != "" &&
           provider.HttpResponse? && provider.ok && provider.body.Ok?) ==> r == provider.body.value)
  {
  }
}
