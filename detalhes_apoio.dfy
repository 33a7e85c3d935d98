/** The campaign page (`DetalhesApoio`): who may charge by tap, when the
    campaign is finished, and the inline tap charge, which records the
    contribution and then writes the campaign total from the page's own copy
    of the campaign. */
module DetalhesApoio {
  import opened Wrappers
  import opened Money
  import opened Fields
  import opened Infinitepay
  import opened Campaigns
  import opened Ledger

  /** The amount field takes at most 8 digits (R$ 999999,99). */
  const ValueDigits: nat := 8
  /** The smallest charge, and the smallest installment, in cents. */
  const MinimumCents: int := 100
  /** The e-mail stored for a tap contribution given without one. */
  const TapEmailSentinel: string := "tap@payment.local"

  /** `canUseTapPayment`: the bridge offers `receiveTapPayment` (and the
      availability hook agrees), and the user owns the campaign or the page was
      opened with the `forceTap` flag. */
  function CanUseTapPayment(isOwner: bool, isInfinitepayAvailable: bool, bridge: Option<Bridge>, forceTap: bool): (r: bool)
    ensures r <==> isInfinitepayAvailable && TapAvailable(bridge) && (isOwner || forceTap)
  {
    var isTapPaymentAvailable := isInfinitepayAvailable && TapAvailable(bridge);
    (isOwner && isTapPaymentAvailable) || (forceTap && isTapPaymentAvailable)
  }

  /** Why a tap charge is refused before the bridge is called. */
  datatype TapRejection = BridgeUnavailable | MissingFields | BelowMinimum | BelowInstallmentMinimum

  /** The checks `handleTapPayment` runs, in order, before charging; the charge
      amount in cents when all pass. The installment check `amount / n < 100`
      is stated on integers as `amount < 100 * n`. */
  function CheckTapCharge(bridge: Option<Bridge>, valor: string, name: string,
                          paymentMethod: PaymentMethod, installments: nat): (r: Result<int, TapRejection>)
    requires installments >= 1
    ensures r.Ok? <==> TapAvailable(bridge) && valor != "" && name != "" &&
                       ParseValueToCents(valor) >= MinimumCents &&
                       (paymentMethod == Credit ==> ParseValueToCents(valor) >= MinimumCents * installments)
    ensures r.Ok? ==> r.value == ParseValueToCents(valor)
    ensures r == Err(BridgeUnavailable) <==> !TapAvailable(bridge)
    ensures r == Err(MissingFields) <==> TapAvailable(bridge) && (valor == "" || name == "")
    ensures r == Err(BelowMinimum) <==>
      TapAvailable(bridge) && valor != "" && name != "" && ParseValueToCents(valor) < MinimumCents
    ensures r == Err(BelowInstallmentMinimum) <==>
      TapAvailable(bridge) && valor != "" && name != "" && ParseValueToCents(valor) >= MinimumCents &&
      paymentMethod == Credit && ParseValueToCents(valor) < MinimumCents * installments
  {
    if !TapAvailable(bridge) then Err(BridgeUnavailable)
    else if valor == "" || name == "" then Err(MissingFields)
    else
      var valorCentavos := ParseValueToCents(valor);
      if valorCentavos < MinimumCents then Err(BelowMinimum)
      else if paymentMethod == Credit && valorCentavos < MinimumCents * installments then Err(BelowInstallmentMinimum)
      else Ok(valorCentavos)
  }

  /** What `receiveTapPayment` is given: debit always goes as one installment. */
  function TapParams(amount: int, orderNsu: string, paymentMethod: PaymentMethod, installments: nat): (p: TapPaymentParams)
    ensures p.amount == amount && p.orderNsu == orderNsu && p.paymentMethod == paymentMethod
    ensures paymentMethod == Debit ==> p.installments == 1
    ensures paymentMethod == Credit ==> p.installments == installments
  {
    TapPaymentParams(amount, orderNsu, if paymentMethod == Debit then 1 else installments, paymentMethod)
  }

  /** `tapClientEmail || 'tap@payment.local'`. */
  function StoredEmail(email: string): (r: string)
    ensures r != ""
    ensures email != "" ==> r == email
    ensures email == "" ==> r == TapEmailSentinel
  {
    if email != "" then email else TapEmailSentinel
  }

  /** The bridge answered with `status: 'success'` and payment data. */
  predicate Charged(call: Call<PaymentData>) {
    call.Resolved? && call.response.status == Success && call.response.data.Some?
  }

  /** The two tables after a successful charge of `row.valor` is saved: the
      deduplicating insert, then, unless the insert was tried and failed, the
      campaign total set to the page's cached total plus the amount. The total
      is written also when the lookup found the transaction already recorded. */
  function TapSaved(rows: seq<Contribution>, campaigns: map<string, Campaign>, cached: Campaign,
                    row: Contribution, insertOk: bool, updateOk: bool): (r: (seq<Contribution>, map<string, Campaign>))
    ensures r.0 == rows || r.0 == rows + [row]
    ensures r.1.Keys == campaigns.Keys
    ensures forall id :: id in campaigns && id != cached.id ==> r.1[id] == campaigns[id]
    ensures cached.id in campaigns ==>
      r.1[cached.id] == campaigns[cached.id] ||
      r.1[cached.id] == campaigns[cached.id].(valorAtual := cached.valorAtual + row.valor)
  {
    var saveError := !ExistingTransaction(rows, row.transactionNsu) && !insertOk;
    (RecordIfNew(rows, row, insertOk),
     if saveError then campaigns else WithRaised(campaigns, cached.id, cached.valorAtual + row.valor, updateOk))
  }

  /** The total the save writes is the cached total plus the amount, whatever the
      table held before (a stale copy overwrites a newer total), and it is
      written even when the transaction was already recorded; a failed insert
      leaves every total alone. */
  lemma TapSaveWritesCachedTotal(rows: seq<Contribution>, campaigns: map<string, Campaign>, cached: Campaign,
                                 row: Contribution, insertOk: bool)
    requires cached.id in campaigns
    ensures var (rows', campaigns') := TapSaved(rows, campaigns, cached, row, insertOk, true);
      && (ExistingTransaction(rows, row.transactionNsu) || insertOk ==>
            cached.id in campaigns' && campaigns'[cached.id].valorAtual == cached.valorAtual + row.valor)
      && (ExistingTransaction(rows, row.transactionNsu) ==> rows' == rows)
      && (!ExistingTransaction(rows, row.transactionNsu) && !insertOk ==> campaigns' == campaigns && rows' == rows)
  {
  }

  /** A confirmation seen twice (the page's copy refreshed after the first, as the
      page does) leaves one row for the transaction but raises the total twice. */
  lemma RetriedTapCountsTwice(rows: seq<Contribution>, campaigns: map<string, Campaign>, cached: Campaign,
                              row: Contribution, insertOk: bool)
    requires UniqueTransactions(rows)
    requires !ExistingTransaction(rows, row.transactionNsu)
    requires cached.id in campaigns
    ensures var (rows1, campaigns1) := TapSaved(rows, campaigns, cached, row, true, true);
      var refreshed := cached.(valorAtual := cached.valorAtual + row.valor);
      var (rows2, campaigns2) := TapSaved(rows1, campaigns1, refreshed, row, insertOk, true);
      && rows2 == rows1
      && CountTransaction(rows2, row.transactionNsu) == 1
      && campaigns2[cached.id].valorAtual == cached.valorAtual + 2 * row.valor
  {
    RecordIfNewCount(rows, row, true);
  }

  /** How a tap charge ends. */
  datatype TapOutcome =
    | Refused(reason: TapRejection)
    | PaymentError
    | SaveFailed
    | Completed(amount: int, alreadyRecorded: bool)

  /** The campaign page's state: the loaded campaign and the tap form. */
  class Page {
    var apoio: Campaign
    var tapValor: string
    var tapInstallments: nat
    var tapPaymentMethod: PaymentMethod
    var tapClientName: string
    var tapClientEmail: string

    ghost predicate Valid()
      reads this
    {
      tapInstallments >= 1 && ParseValueToCents(tapValor) < Pow10(ValueDigits)
    }

    constructor (apoio: Campaign)
      ensures Valid()
      ensures this.apoio == apoio && tapValor == "" && tapInstallments == 1 && tapPaymentMethod == Debit
      ensures tapClientName == "" && tapClientEmail == ""
    {
      this.apoio := apoio;
      tapValor := "";
      tapInstallments := 1;
      tapPaymentMethod := Debit;
      tapClientName := "";
      tapClientEmail := "";
    }

    /** `handleTapValorChange`. */
    method HandleTapValorChange(input: string)
      requires Valid()
      modifies this`tapValor
      ensures Valid()
      ensures tapValor == ValueFieldChange(old(tapValor), input, ValueDigits)
    {
      ValueFieldStaysBounded(tapValor, input, ValueDigits);
      tapValor := ValueFieldChange(tapValor, input, ValueDigits);
    }

    /** `handleTapPayment`. `bridge` is `window.Infinitepay`, `now` stands for
        `Date.now()`, `call` is the bridge's answer to the charge, and
        `insertOk`/`updateOk` say whether the contribution insert and the total
        update succeed. `sent` is the charge handed to the bridge, if any. */
    method HandleTapPayment(db: Database, bridge: Option<Bridge>, now: nat, call: Call<PaymentData>,
                            insertOk: bool, updateOk: bool)
      returns (outcome: TapOutcome, sent: Option<TapPaymentParams>)
      requires Valid() && db.Valid()
      modifies this, db
      ensures Valid() && db.Valid()
      ensures var check := CheckTapCharge(bridge, old(tapValor), old(tapClientName),
                                          old(tapPaymentMethod), old(tapInstallments));
        && (check.Err? ==> outcome == Refused(check.error) && sent.None?)
        && (check.Ok? ==> sent == Some(TapParams(check.value, "TAP_" + NatToString(now),
                                                 old(tapPaymentMethod), old(tapInstallments))))
        && (check.Ok? && Charged(call) ==>
              var row := Contribution(old(apoio).id, old(tapClientName), StoredEmail(old(tapClientEmail)),
                                      check.value, call.response.data.value.transactionNsu);
              (db.contributions, db.campaigns) ==
                TapSaved(old(db.contributions), old(db.campaigns), old(apoio), row, insertOk, updateOk))
        && (check.Ok? && !Charged(call) ==> outcome == PaymentError)
      ensures var check := CheckTapCharge(bridge, old(tapValor), old(tapClientName),
                                          old(tapPaymentMethod), old(tapInstallments));
        check.Ok? && Charged(call) ==>
          var existed := ExistingTransaction(old(db.contributions), call.response.data.value.transactionNsu);
          outcome == if existed || insertOk then Completed(check.value, existed) else SaveFailed
      ensures outcome.Refused? || outcome.PaymentError? ==>
        db.contributions == old(db.contributions) && db.campaigns == old(db.campaigns)
      ensures !outcome.Completed? ==>
        apoio == old(apoio) && tapValor == old(tapValor) && tapClientName == old(tapClientName) &&
        tapClientEmail == old(tapClientEmail) && tapInstallments == old(tapInstallments) &&
        tapPaymentMethod == old(tapPaymentMethod)
      ensures outcome.Completed? ==>
        && apoio == (if updateOk then old(apoio).(valorAtual := old(apoio).valorAtual + outcome.amount) else old(apoio))
        && tapValor == "" && tapClientName == "" && tapClientEmail == ""
        && tapInstallments == 1 && tapPaymentMethod == Debit
    {
      sent := None;
      var check := CheckTapCharge(bridge, tapValor, tapClientName, tapPaymentMethod, tapInstallments);
      if check.Err? {
        outcome := Refused(check.error);
        return;
      }
      var valorCentavos := check.value;
      var orderNsu := "TAP_" + NatToString(now);
      sent := Some(TapParams(valorCentavos, orderNsu, tapPaymentMethod, tapInstallments));
      if !Charged(call) {
        outcome := PaymentError;
        return;
      }
      var paymentResult := call.response.data.value;
      var row := Contribution(apoio.id, tapClientName, StoredEmail(tapClientEmail), valorCentavos,
                              paymentResult.transactionNsu);
      var existing, saveError := db.RecordContribution(row, insertOk);
      if saveError {
        outcome := SaveFailed;
        return;
      }
      var updateError := db.SetRaised(apoio.id, apoio.valorAtual + valorCentavos, updateOk);
      if !updateError {
        apoio := apoio.(valorAtual := apoio.valorAtual + valorCentavos);
      }
      tapValor := "";
      tapClientName := "";
      tapClientEmail := "";
      tapInstallments := 1;
      tapPaymentMethod := Debit;
      outcome := Completed(valorCentavos, existing);
    }
  }
}
