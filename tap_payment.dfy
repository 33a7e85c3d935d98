/** The owner-only tap charge page (`TapPayment`): access control, the form
    with its limits, the checks before charging, the deduplicated record of the
    charge and the address of the success page. This page never changes a
    campaign's total. */
module TapPayment {
  import opened Wrappers
  import opened Money
  import opened Fields
  import opened Email
  import opened Web
  import opened Infinitepay
  import opened Campaigns
  import opened Ledger
  import DetalhesApoio

  /** Field limits of the form. */
  const ValueDigits: nat := 6
  const NameLength: nat := 50
  const EmailLength: nat := 100
  /** The installment choices offered for credit. */
  const MaxInstallments: nat := 6
  const MinimumCents: int := 100
  const MinimumNameLength: nat := 3

  /** What the loading effect decides. `Pending`: no id yet or the user is
      still loading; `NotLoggedIn`: sent back to the campaign; `LoadFailed`:
      the campaign could not be read, sent home; `NotOwner`: sent back to the
      campaign; `Granted`: the form is shown. */
  datatype Access = Pending | NotLoggedIn | LoadFailed | NotOwner | Granted

  /** The loading effect's decision; `fetched` is the campaign the `.single()`
      read returned, `None` when the read failed. */
  function AccessFor(id: string, userLoading: bool, user: Option<UserData>, fetched: Option<Campaign>): (a: Access)
    ensures a == Granted <==> id != "" && !userLoading && IsOwner(user, fetched)
    ensures a == NotLoggedIn <==> id != "" && !userLoading && user.None?
    ensures a == Pending <==> id == "" || userLoading
    ensures a == LoadFailed <==> id != "" && !userLoading && user.Some? && fetched.None?
    ensures a == NotOwner ==> user.Some? && fetched.Some?
  {
    if id == "" || userLoading then Pending
    else if user.None? then NotLoggedIn
    else if fetched.None? then LoadFailed
    else if !IsOwner(user, fetched) then NotOwner
    else Granted
  }

  /** Why a charge is refused before anything is sent. */
  datatype ChargeFailure = MissingFields | BelowMinimum | NameTooShort | InvalidEmail

  /** The checks of `handleTapPayment`, in order; the amount in cents when all
      pass. An e-mail may be left blank, but one given must match the pattern. */
  function CheckCharge(apoio: Option<Campaign>, valor: string, name: string, email: string): (r: Result<int, ChargeFailure>)
    ensures r.Ok? <==> apoio.Some? && valor != "" && name != "" && ParseValueToCents(valor) >= MinimumCents &&
                       |name| >= MinimumNameLength && (email == "" || MatchesPattern(email))
    ensures r.Ok? ==> r.value == ParseValueToCents(valor)
    ensures r == Err(MissingFields) <==> apoio.None? || valor == "" || name == ""
    ensures r == Err(BelowMinimum) <==>
      apoio.Some? && valor != "" && name != "" && ParseValueToCents(valor) < MinimumCents
    ensures r == Err(NameTooShort) <==>
      apoio.Some? && valor != "" && name != "" && ParseValueToCents(valor) >= MinimumCents && |name| < MinimumNameLength
    ensures r == Err(InvalidEmail) <==>
      apoio.Some? && valor != "" && name != "" &&
      ParseValueToCents(valor) >= MinimumCents && |name| >= MinimumNameLength && email != "" && !MatchesPattern(email)
  {
    if apoio.None? || valor == "" || name == "" then Err(MissingFields)
    else
      var valorCentavos := ParseValueToCents(valor);
      if valorCentavos < MinimumCents then Err(BelowMinimum)
      else if |name| < MinimumNameLength then Err(NameTooShort)
      else if email != "" && !IsValidEmail(email) then Err(InvalidEmail)
      else Ok(valorCentavos)
  }

  /** The success page address: `/apoio/<id>/tap-sucesso` with the amount, the
      client's name and the campaign title as query parameters. */
  function SuccessUrl(origin: string, apoio: Campaign, valorCentavos: nat, clientName: string): (u: Url)
    ensures u.base == origin + "/apoio/" + apoio.id + "/tap-sucesso"
    ensures Lookup(u.query, "valor") == Some(NatToString(valorCentavos))
    ensures Lookup(u.query, "clientName") == Some(clientName)
    ensures Lookup(u.query, "campaignTitle") == Some(apoio.titulo)
  {
    var base := Url(origin + "/apoio/" + apoio.id + "/tap-sucesso", []);
    SetUrlParam(SetUrlParam(SetUrlParam(base, "valor", NatToString(valorCentavos)),
                            "clientName", clientName),
                "campaignTitle", apoio.titulo)
  }

  /** The success page reads back from its `valor` parameter exactly the
      amount that was charged. */
  lemma SuccessUrlCarriesCharge(origin: string, apoio: Campaign, valorCentavos: nat, clientName: string)
    ensures var u := SuccessUrl(origin, apoio, valorCentavos, clientName);
      && Lookup(u.query, "valor").Some?
      && IsDigitString(Lookup(u.query, "valor").value)
      && ValueOf(Lookup(u.query, "valor").value) == valorCentavos
  {
    ValueOfNatToString(valorCentavos);
  }

  /** How a press of the charge button ends. */
  datatype Outcome =
    | Refused(reason: ChargeFailure)
    | BridgeMissing
    | PaymentError
    | SaveFailed
    | Completed(alreadyRecorded: bool)

  /** The page's state. */
  class Page {
    var apoio: Option<Campaign>
    var loading: bool
    var tapPaymentLoading: bool
    var tapValor: string
    var tapClientName: string
    var tapClientEmail: string
    var tapPaymentMethod: PaymentMethod
    var tapInstallments: nat

    ghost predicate Valid()
      reads this
    {
      && ParseValueToCents(tapValor) < Pow10(ValueDigits)
      && |tapClientName| <= NameLength
      && |tapClientEmail| <= EmailLength
      && 1 <= tapInstallments <= MaxInstallments
    }

    constructor ()
      ensures Valid()
      ensures apoio.None? && loading && !tapPaymentLoading
      ensures tapValor == "" && tapClientName == "" && tapClientEmail == ""
      ensures tapPaymentMethod == Debit && tapInstallments == 1
    {
      apoio := None;
      loading := true;
      tapPaymentLoading := false;
      tapValor := "";
      tapClientName := "";
      tapClientEmail := "";
      tapPaymentMethod := Debit;
      tapInstallments := 1;
    }

    /** The loading effect: the campaign read is kept even when access is then
        refused, and loading ends once the read was attempted. */
    method Load(id: string, userLoading: bool, user: Option<UserData>, fetched: Option<Campaign>)
      returns (a: Access)
      modifies this`apoio, this`loading
      ensures a == AccessFor(id, userLoading, user, fetched)
      ensures apoio == (if a == NotOwner || a == Granted then fetched else old(apoio))
      ensures loading == (if a == Pending || a == NotLoggedIn then old(loading) else false)
    {
      a := AccessFor(id, userLoading, user, fetched);
      if a == Pending || a == NotLoggedIn {
        return;
      }
      if fetched.Some? {
        apoio := fetched;
      }
      loading := false;
    }

    /** `handleTapValorChange`: at most six digits. */
    method HandleTapValorChange(input: string)
      requires Valid()
      modifies this`tapValor
      ensures Valid()
      ensures tapValor == ValueFieldChange(old(tapValor), input, ValueDigits)
    {
      ValueFieldStaysBounded(tapValor, input, ValueDigits);
      tapValor := ValueFieldChange(tapValor, input, ValueDigits);
    }

    /** `handleTapClientNameChange`: at most 50 characters. */
    method HandleTapClientNameChange(input: string)
      requires Valid()
      modifies this`tapClientName
      ensures Valid()
      ensures tapClientName == TextFieldChange(old(tapClientName), input, NameLength)
    {
      tapClientName := TextFieldChange(tapClientName, input, NameLength);
    }

    /** `handleTapClientEmailChange`: at most 100 characters. */
    method HandleTapClientEmailChange(input: string)
      requires Valid()
      modifies this`tapClientEmail
      ensures Valid()
      ensures tapClientEmail == TextFieldChange(old(tapClientEmail), input, EmailLength)
    {
      tapClientEmail := TextFieldChange(tapClientEmail, input, EmailLength);
    }

    /** The payment-method select (credit or debit). */
    method SelectPaymentMethod(m: PaymentMethod)
      requires Valid()
      modifies this`tapPaymentMethod
      ensures Valid()
      ensures tapPaymentMethod == m
    {
      tapPaymentMethod := m;
    }

    /** The installment select, which offers 1x to 6x. */
    method SelectInstallments(n: nat)
      requires Valid()
      requires 1 <= n <= MaxInstallments
      modifies this`tapInstallments
      ensures Valid()
      ensures tapInstallments == n
    {
      tapInstallments := n;
    }

    /** `handleTapPayment`. `bridge` is `window.Infinitepay`, `now` stands for
        `Date.now()`, `call` is the bridge's answer (a rejection is the thrown
        error), `insertOk` whether the contribution insert succeeds. `sent` is
        the charge handed to the bridge, `next` the page navigated to. */
    method HandleTapPayment(db: Database, bridge: Option<Bridge>, origin: string, now: nat,
                            call: Call<PaymentData>, insertOk: bool)
      returns (outcome: Outcome, sent: Option<TapPaymentParams>, next: Option<Url>)
      requires Valid() && db.Valid()
      modifies this`tapPaymentLoading, db
      ensures Valid() && db.Valid()
      ensures db.campaigns == old(db.campaigns)
      ensures var check := CheckCharge(apoio, tapValor, tapClientName, tapClientEmail);
        && (check.Err? ==> outcome == Refused(check.error) && tapPaymentLoading == old(tapPaymentLoading))
        && (check.Ok? ==> !tapPaymentLoading)
        && (check.Ok? && !TapAvailable(bridge) ==> outcome == BridgeMissing && sent.None?)
        && (check.Ok? && TapAvailable(bridge) ==>
              sent == Some(DetalhesApoio.TapParams(check.value, "TAP_" + NatToString(now) + "_" + apoio.value.id,
                                                   tapPaymentMethod, tapInstallments)))
        && (check.Ok? && TapAvailable(bridge) && !DetalhesApoio.Charged(call) ==> outcome == PaymentError)
        && (check.Ok? && TapAvailable(bridge) && DetalhesApoio.Charged(call) ==>
              db.contributions ==
                RecordIfNew(old(db.contributions),
                            Contribution(apoio.value.id, tapClientName, DetalhesApoio.StoredEmail(tapClientEmail),
                                         check.value, call.response.data.value.transactionNsu),
                            insertOk))
      ensures var check := CheckCharge(apoio, tapValor, tapClientName, tapClientEmail);
        check.Ok? && TapAvailable(bridge) && DetalhesApoio.Charged(call) ==>
          var existed := ExistingTransaction(old(db.contributions), call.response.data.value.transactionNsu);
          outcome == if existed || insertOk then Completed(existed) else SaveFailed
      ensures !DetalhesApoio.Charged(call) || sent.None? ==> db.contributions == old(db.contributions)
      ensures sent.None? ==> outcome.Refused? || outcome == BridgeMissing
      ensures outcome.Completed? <==> next.Some?
      ensures outcome.Completed? ==>
        (sent.Some? && apoio.Some? &&
         next == Some(SuccessUrl(origin, apoio.value, ParseValueToCents(tapValor), tapClientName)))
      ensures outcome == SaveFailed ==> sent.Some? && DetalhesApoio.Charged(call)
    {
      sent := None;
      next := None;
      var check := CheckCharge(apoio, tapValor, tapClientName, tapClientEmail);
      if check.Err? {
        outcome := Refused(check.error);
        return;
      }
      var valorCentavos := check.value;
      var campaign := apoio.value;
      tapPaymentLoading := true;
      var orderNsu := "TAP_" + NatToString(now) + "_" + campaign.id;
      if !TapAvailable(bridge) {
        outcome := BridgeMissing;
        tapPaymentLoading := false;
        return;
      }
      sent := Some(DetalhesApoio.TapParams(valorCentavos, orderNsu, tapPaymentMethod, tapInstallments));
      if !DetalhesApoio.Charged(call) {
        outcome := PaymentError;
        tapPaymentLoading := false;
        return;
      }
      var paymentResult := call.response.data.value;
      var row := Contribution(campaign.id, tapClientName, DetalhesApoio.StoredEmail(tapClientEmail),
                              valorCentavos, paymentResult.transactionNsu);
      var existing, saveError := db.RecordContribution(row, insertOk);
      if saveError {
        outcome := SaveFailed;
      } else {
        outcome := Completed(existing);
        next := Some(SuccessUrl(origin, campaign, valorCentavos, tapClientName));
      }
      tapPaymentLoading := false;
    }
  }
}
