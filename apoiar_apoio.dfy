/** The supporter's contribution page (`ApoiarApoio`): the form, the checks in
    order, the checkout request with its redirect address, and the in-app
    payment with its deduplicated record, or the fallback to the checkout link.
    This page never changes a campaign's total. */
module ApoiarApoio {
  import opened Wrappers
  import opened Money
  import opened Fields
  import opened Email
  import opened Web
  import opened Infinitepay
  import opened Campaigns
  import opened Ledger

  const ValueDigits: nat := 6
  const NameLength: nat := 20
  const EmailLength: nat := 100
  const MinimumCents: int := 100
  const MinimumNameLength: nat := 3

  /** Why a contribution is refused before the checkout is requested. */
  datatype ContributionFailure =
    | MissingFields
    | CampaignFinished
    | NameTooShort
    | InvalidEmail
    | BelowMinimum
    | AboveRemaining(remaining: int)

  /** The checks of `handleApoiar`, in order; the amount in cents when all pass. */
  function CheckContribution(apoio: Option<Campaign>, valor: string, nome: string, email: string)
    : (r: Result<int, ContributionFailure>)
    ensures r.Ok? <==>
      && apoio.Some? && valor != "" && nome != "" && email != ""
      && !IsFinished(apoio.value) && |nome| >= MinimumNameLength && MatchesPattern(email)
      && MinimumCents <= ParseValueToCents(valor) <= apoio.value.metaValor - apoio.value.valorAtual
    ensures r.Ok? ==> r.value == ParseValueToCents(valor)
    ensures r == Err(MissingFields) <==> apoio.None? || valor == "" || nome == "" || email == ""
    ensures r == Err(CampaignFinished) <==>
      apoio.Some? && valor != "" && nome != "" && email != "" && IsFinished(apoio.value)
    ensures r == Err(NameTooShort) <==>
      apoio.Some? && valor != "" && nome != "" && email != "" && !IsFinished(apoio.value)
      && |nome| < MinimumNameLength
    ensures r == Err(InvalidEmail) <==>
      apoio.Some? && valor != "" && nome != "" && email != "" && !IsFinished(apoio.value)
      && |nome| >= MinimumNameLength && !MatchesPattern(email)
    ensures r == Err(BelowMinimum) <==>
      apoio.Some? && valor != "" && nome != "" && email != "" && !IsFinished(apoio.value)
      && |nome| >= MinimumNameLength && MatchesPattern(email) && ParseValueToCents(valor) < MinimumCents
    ensures (r.Err? && r.error.AboveRemaining?) <==>
      apoio.Some? && valor != "" && nome != "" && email != "" && !IsFinished(apoio.value)
      && |nome| >= MinimumNameLength && MatchesPattern(email)
      && MinimumCents <= ParseValueToCents(valor) && ParseValueToCents(valor) > apoio.value.metaValor - apoio.value.valorAtual
    ensures r.Err? && r.error.AboveRemaining? ==>
      r.error.remaining == apoio.value.metaValor - apoio.value.valorAtual
  {
    if apoio.None? || valor == "" || nome == "" || email == "" then Err(MissingFields)
    else if IsFinished(apoio.value) then Err(CampaignFinished)
    else if |nome| < MinimumNameLength then Err(NameTooShort)
    else if !IsValidEmail(email) then Err(InvalidEmail)
    else
      var valorCentavos := ParseValueToCents(valor);
      if valorCentavos < MinimumCents then Err(BelowMinimum)
      else
        var valorRestante := apoio.value.metaValor - apoio.value.valorAtual;
        if valorCentavos > valorRestante then Err(AboveRemaining(valorRestante))
        else Ok(valorCentavos)
  }

  /** An accepted amount never takes the campaign past its goal. */
  lemma AcceptedFitsGoal(apoio: Campaign, valor: string, nome: string, email: string)
    requires CheckContribution(Some(apoio), valor, nome, email).Ok?
    ensures var amount := CheckContribution(Some(apoio), valor, nome, email).value;
      MinimumCents <= amount && apoio.valorAtual + amount <= apoio.metaValor
  {
  }

  /** A finished campaign refuses every contribution whose fields are filled. */
  lemma FinishedRefusesAll(apoio: Campaign, valor: string, nome: string, email: string)
    requires IsFinished(apoio)
    requires valor != "" && nome != "" && email != ""
    ensures CheckContribution(Some(apoio), valor, nome, email) == Err(CampaignFinished)
  {
  }

  /** Exactly the remaining amount, typed into the field, is accepted. */
  lemma RemainingAmountAccepted(apoio: Campaign, nome: string, email: string)
    requires apoio.status != Some("concluido")
    requires apoio.metaValor - apoio.valorAtual >= MinimumCents
    requires |nome| >= MinimumNameLength && MatchesPattern(email)
    ensures var remaining := apoio.metaValor - apoio.valorAtual;
      CheckContribution(Some(apoio), FormatCurrency(NatToString(remaining)), nome, email) == Ok(remaining)
  {
    FormattedCentsParse(apoio.metaValor - apoio.valorAtual);
  }

  /** The body posted to `create-checkout`. */
  datatype Item = Item(quantity: nat, price: int, description: string)
  datatype Customer = Customer(name: string, email: string)
  datatype CheckoutRequest = CheckoutRequest(
    handle: string, orderNsu: string, items: seq<Item>, customer: Customer, redirectUrl: Url)

  /** The address the provider sends the supporter back to: `/apoio-sucesso`
      with the campaign id, name, e-mail and amount. */
  function RedirectUrl(origin: string, apoio: Campaign, nome: string, email: string, valorCentavos: nat): (u: Url)
    ensures u.base == origin + "/apoio-sucesso"
    ensures Lookup(u.query, "apoio_id") == Some(apoio.id)
    ensures Lookup(u.query, "nome") == Some(nome)
    ensures Lookup(u.query, "email") == Some(email)
    ensures Lookup(u.query, "valor") == Some(NatToString(valorCentavos))
  {
    var base := Url(origin + "/apoio-sucesso", []);
    SetUrlParam(SetUrlParam(SetUrlParam(SetUrlParam(base, "apoio_id", apoio.id),
                                        "nome", nome),
                            "email", email),
                "valor", NatToString(valorCentavos))
  }

  /** The return page reads back from its `valor` parameter exactly the
      amount of the contribution. */
  lemma RedirectCarriesContribution(origin: string, apoio: Campaign, nome: string, email: string, valorCentavos: nat)
    ensures var u := RedirectUrl(origin, apoio, nome, email, valorCentavos);
      && Lookup(u.query, "valor").Some?
      && IsDigitString(Lookup(u.query, "valor").value)
      && ValueOf(Lookup(u.query, "valor").value) == valorCentavos
  {
    ValueOfNatToString(valorCentavos);
  }

  /** The checkout request for an accepted contribution; `now` stands for
      `Date.now()`. */
  function CheckoutFor(origin: string, now: nat, apoio: Campaign, nome: string, email: string, valorCentavos: nat)
    : (req: CheckoutRequest)
    ensures req.handle == apoio.handleInfinitepay
    ensures req.items == [Item(1, valorCentavos, "Apoio para: " + apoio.titulo)]
    ensures req.customer == Customer(nome, email)
    ensures req.orderNsu == "APOIO_" + NatToString(now) + "_" + apoio.id
    ensures req.redirectUrl == RedirectUrl(origin, apoio, nome, email, valorCentavos)
  {
    CheckoutRequest(apoio.handleInfinitepay, "APOIO_" + NatToString(now) + "_" + apoio.id,
                    [Item(1, valorCentavos, "Apoio para: " + apoio.titulo)],
                    Customer(nome, email),
                    RedirectUrl(origin, apoio, nome, email, valorCentavos))
  }

  /** What `executePayment(url)` does: throws, or returns a payment result
      (`None` when it returns nothing). */
  datatype Execution = Threw | Returned(result: Option<PaymentData>)

  /** How a press of the contribute button ends. */
  datatype Outcome =
    | Refused(reason: ContributionFailure)
    | CheckoutRefused
    | Failed
    | PaidInApp(alreadyRecorded: bool)
    | OpenedCheckout(url: string)

  /** The page's state. */
  class Page {
    var apoio: Option<Campaign>
    var loading: bool
    var valor: string
    var nome: string
    var email: string

    ghost predicate Valid()
      reads this
    {
      ParseValueToCents(valor) < Pow10(ValueDigits) && |nome| <= NameLength && |email| <= EmailLength
    }

    constructor ()
      ensures Valid()
      ensures apoio.None? && loading && valor == "" && nome == "" && email == ""
    {
      apoio := None;
      loading := true;
      valor := "";
      nome := "";
      email := "";
    }

    /** The loading effect; `fetched` is the campaign read, `None` when it
        failed (the page then goes home). */
    method Load(id: string, fetched: Option<Campaign>) returns (sentHome: bool)
      modifies this`apoio, this`loading
      ensures sentHome <==> id != "" && fetched.None?
      ensures apoio == (if id != "" && fetched.Some? then fetched else old(apoio))
      ensures loading == (if id == "" then old(loading) else false)
    {
      sentHome := false;
      if id == "" {
        return;
      }
      if fetched.Some? {
        apoio := fetched;
      } else {
        sentHome := true;
      }
      loading := false;
    }

    /** `handleValorChange`: at most six digits. */
    method HandleValorChange(input: string)
      requires Valid()
      modifies this`valor
      ensures Valid()
      ensures valor == ValueFieldChange(old(valor), input, ValueDigits)
    {
      ValueFieldStaysBounded(valor, input, ValueDigits);
      valor := ValueFieldChange(valor, input, ValueDigits);
    }

    /** `handleNomeChange`: at most 20 characters. */
    method HandleNomeChange(input: string)
      requires Valid()
      modifies this`nome
      ensures Valid()
      ensures nome == TextFieldChange(old(nome), input, NameLength)
    {
      nome := TextFieldChange(nome, input, NameLength);
    }

    /** `handleEmailChange`: at most 100 characters. */
    method HandleEmailChange(input: string)
      requires Valid()
      modifies this`email
      ensures Valid()
      ensures email == TextFieldChange(old(email), input, EmailLength)
    {
      email := TextFieldChange(email, input, EmailLength);
    }

    /** `handleApoiar`. `checkout` is the answer of `create-checkout` (its
        body the checkout link), `bridgePresent` whether `window.Infinitepay`
        exists, `execution` what `executePayment` does, `insertOk` whether the
        contribution insert succeeds (a failure is ignored). `request` is the
        checkout requested, `executed` the link handed to `executePayment`. */
    method HandleApoiar(db: Database, origin: string, now: nat, checkout: FetchOutcome<string>,
                        bridgePresent: bool, execution: Execution, insertOk: bool)
      returns (outcome: Outcome, request: Option<CheckoutRequest>, executed: Option<string>)
      requires Valid() && db.Valid()
      modifies db
      ensures db.Valid()
      ensures db.campaigns == old(db.campaigns)
      ensures var check := CheckContribution(old(apoio), old(valor), old(nome), old(email));
        && (check.Err? ==> outcome == Refused(check.error) && request.None?)
        && (check.Ok? ==> request == Some(CheckoutFor(origin, now, old(apoio).value, old(nome), old(email), check.value)))
        && (check.Ok? && checkout.HttpResponse? && !checkout.ok ==> outcome == CheckoutRefused)
        && (check.Ok? && (checkout.NetworkError? || (checkout.ok && checkout.body.Err?)) ==> outcome == Failed)
      ensures executed.Some? <==>
        request.Some? && checkout.HttpResponse? && checkout.ok && checkout.body.Ok? && bridgePresent
      ensures executed.Some? ==> executed == Some(checkout.body.value)
      ensures outcome.PaidInApp? <==> executed.Some? && execution.Returned? && execution.result.Some?
      ensures outcome.PaidInApp? ==>
        db.contributions == RecordIfNew(old(db.contributions),
                                        Contribution(old(apoio).value.id, old(nome), old(email), ParseValueToCents(old(valor)),
                                                     execution.result.value.transactionNsu),
                                        insertOk)
      ensures outcome.PaidInApp? ==>
        outcome.alreadyRecorded == ExistingTransaction(old(db.contributions), execution.result.value.transactionNsu)
      ensures !outcome.PaidInApp? ==> db.contributions == old(db.contributions)
      ensures outcome.OpenedCheckout? <==>
        request.Some? && checkout.HttpResponse? && checkout.ok && checkout.body.Ok? && !outcome.PaidInApp?
      ensures outcome.OpenedCheckout? ==> outcome.url == checkout.body.value
    {
      request := None;
      executed := None;
      var check := CheckContribution(apoio, valor, nome, email);
      if check.Err? {
        outcome := Refused(check.error);
        return;
      }
      var valorCentavos := check.value;
      var campaign := apoio.value;
      request := Some(CheckoutFor(origin, now, campaign, nome, email, valorCentavos));
      if checkout.NetworkError? {
        outcome := Failed;
        return;
      }
      if !checkout.ok {
        outcome := CheckoutRefused;
        return;
      }
      if checkout.body.Err? {
        outcome := Failed;
        return;
      }
      var url := checkout.body.value;
      if bridgePresent {
        executed := Some(url);
        if execution.Returned? && execution.result.Some? {
          var paymentResult := execution.result.value;
          var row := Contribution(campaign.id, nome, email, valorCentavos, paymentResult.transactionNsu);
          var existing, _ := db.RecordContribution(row, insertOk);
          outcome := PaidInApp(existing);
          return;
        }
      }
      outcome := OpenedCheckout(url);
    }
  }
}
