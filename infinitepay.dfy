/** The InfinitePay bridge (`window.Infinitepay`) that the payment app injects
    into the page, and the wrappers that wait for it and unwrap its responses. */
module Infinitepay {
  import opened Wrappers

  datatype Status = Success | Error

  /** `{status, data?, message?}` as every bridge method resolves. */
  datatype ApiResponse<T> = ApiResponse(status: Status, data: Option<T>, message: Option<string>)

  datatype UserData = UserData(id: string, name: string, handle: string, role: string)

  datatype PaymentData = PaymentData(transactionNsu: string, amount: int, receiptUrl: Option<string>)

  datatype PaymentMethod = Credit | Debit

  datatype TapPaymentParams = TapPaymentParams(amount: int, orderNsu: string, installments: int, paymentMethod: PaymentMethod)

  datatype TapPaymentData = TapPaymentData(amount: int, installments: int, paymentMethod: string, transactionNsu: string, orderNsu: string)

  /** What a call into the bridge does: it resolves with a response or rejects
      with an error message. */
  datatype Call<T> = Resolved(response: ApiResponse<T>) | Rejected(reason: string)

  /** The bridge object: which of its three methods are functions. */
  datatype Bridge = Bridge(hasGetUserData: bool, hasReceiveTapPayment: bool, hasSendCheckoutPayment: bool)

  /** `window.Infinitepay && typeof window.Infinitepay.receiveTapPayment === 'function'`. */
  predicate TapAvailable(bridge: Option<Bridge>) {
    bridge.Some? && bridge.value.hasReceiveTapPayment
  }

  const MaxAttempts: nat := 20
  const NotAvailable: string := "InfinitePay API not available"
  const UserDataFailed: string := "Failed to get user data"
  const PaymentFailed: string := "Payment failed"

  /** `waitForInfinitepay`: checks for the bridge and waits 100 ms between checks,
      at most 20 times. `present(k)` says whether `window.Infinitepay` is set
      when it is checked after `k` waits. */
  method WaitForInfinitepay(present: nat -> bool) returns (waits: nat, r: Result<(), string>)
    ensures waits <= MaxAttempts
    ensures present(0) ==> waits == 0
    ensures forall k :: 0 <= k < waits ==> !present(k)
    ensures r.Ok? <==> present(waits)
    ensures r.Err? ==> waits == MaxAttempts && r.error == NotAvailable
  {
    var attempts: nat := 0;
    while !present(attempts) && attempts < MaxAttempts
      invariant attempts <= MaxAttempts
      invariant forall k :: 0 <= k < attempts ==> !present(k)
    {
      attempts := attempts + 1;
    }
    waits := attempts;
    if !present(attempts) {
      r := Err(NotAvailable);
    } else {
      r := Ok(());
    }
  }

  /** The unwrapping shared by the three calls: `data` when the status is
      `'success'` and `data` is there, otherwise an error carrying `message`, or
      `fallback` when the message is missing or empty. */
  function Unwrap<T>(response: ApiResponse<T>, fallback: string): (r: Result<T, string>)
    ensures r.Ok? <==> response.status == Success && response.data.Some?
    ensures r.Ok? ==> r.value == response.data.value
    ensures r.Err? && response.message.Some? && response.message.value != "" ==> r.error == response.message.value
    ensures r.Err? && (response.message.None? || response.message.value == "") ==> r.error == fallback
  {
    if response.status == Success && response.data.Some? then Ok(response.data.value)
    else if response.message.Some? && response.message.value != "" then Err(response.message.value)
    else Err(fallback)
  }

  /** Wait for the bridge, then make one call to it and unwrap what it answers.
      `call` is the bridge's answer, used only when the call is made. */
  method CallBridge<T>(present: nat -> bool, call: Call<T>, fallback: string)
    returns (invoked: bool, r: Result<T, string>)
    ensures invoked <==> exists k :: 0 <= k <= MaxAttempts && present(k)
    ensures !invoked ==> r == Err(NotAvailable)
    ensures invoked && call.Rejected? ==> r == Err(call.reason)
    ensures invoked && call.Resolved? ==> r == Unwrap(call.response, fallback)
    ensures r.Ok? ==> invoked && call.Resolved? && call.response.status == Success &&
                      call.response.data == Some(r.value)
  {
    var waits, ready := WaitForInfinitepay(present);
    if ready.Err? {
      invoked := false;
      r := Err(ready.error);
      return;
    }
    invoked := true;
    match call
    case Rejected(reason) =>
      r := Err(reason);
    case Resolved(response) =>
      r := Unwrap(response, fallback);
  }

  /** `getInfinitepayUser`. */
  method GetInfinitepayUser(present: nat -> bool, call: Call<UserData>)
    returns (invoked: bool, r: Result<UserData, string>)
    ensures invoked <==> exists k :: 0 <= k <= MaxAttempts && present(k)
    ensures !invoked ==> r == Err(NotAvailable)
    ensures invoked && call.Resolved? ==> r == Unwrap(call.response, UserDataFailed)
    ensures invoked && call.Rejected? ==> r == Err(call.reason)
    ensures r.Ok? ==> invoked && call.Resolved? && call.response.status == Success &&
                      call.response.data == Some(r.value)
  {
    invoked, r := CallBridge(present, call, UserDataFailed);
  }

  /** `processCheckoutPayment(checkoutUrl)`: `sent` is the URL handed to
      `sendCheckoutPayment`, if the bridge was reached. */
  method ProcessCheckoutPayment(checkoutUrl: string, present: nat -> bool, call: Call<PaymentData>)
    returns (sent: Option<string>, r: Result<PaymentData, string>)
    ensures sent.Some? <==> exists k :: 0 <= k <= MaxAttempts && present(k)
    ensures sent.Some? ==> sent.value == checkoutUrl
    ensures sent.None? ==> r == Err(NotAvailable)
    ensures sent.Some? && call.Resolved? ==> r == Unwrap(call.response, PaymentFailed)
    ensures sent.Some? && call.Rejected? ==> r == Err(call.reason)
    ensures r.Ok? ==> sent.Some? && call.Resolved? && call.response.status == Success &&
                      call.response.data == Some(r.value)
  {
    var invoked;
    invoked, r := CallBridge(present, call, PaymentFailed);
    sent := if invoked then Some(checkoutUrl) else None;
  }

  /** `processTapPayment(params)`: `sent` is what `receiveTapPayment` was given,
      if the bridge was reached. */
  method ProcessTapPayment(params: TapPaymentParams, present: nat -> bool, call: Call<TapPaymentData>)
    returns (sent: Option<TapPaymentParams>, r: Result<TapPaymentData, string>)
    ensures sent.Some? <==> exists k :: 0 <= k <= MaxAttempts && present(k)
    ensures sent.Some? ==> sent.value == params
    ensures sent.None? ==> r == Err(NotAvailable)
    ensures sent.Some? && call.Resolved? ==> r == Unwrap(call.response, PaymentFailed)
    ensures sent.Some? && call.Rejected? ==> r == Err(call.reason)
    ensures r.Ok? ==> sent.Some? && call.Resolved? && call.response.status == Success &&
                      call.response.data == Some(r.value)
  {
    var invoked;
    invoked, r := CallBridge(present, call, PaymentFailed);
    sent := if invoked then Some(params) else None;
  }
}
