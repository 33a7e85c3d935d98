# crowd-fuel core, modelled in Dafny

crowd-fuel is a donation app: owners create campaigns (`apoios`) with a goal in
cents, supporters contribute through a hosted checkout or, inside the
InfinitePay app, through the app's JavaScript bridge (`window.Infinitepay`),
and owners can charge a card in person ("tap"). Its logic lives in page event
handlers and a few helpers. This project states that logic in Dafny and
proves what it promises:

- **Money** (`money.dfy`, `fields.dfy`): `formatCurrency` and
  `parseValueToCents`, copied into every page, defined once; the keystroke
  handlers with each page's digit and length limits. The display form
  `reais,centavos` reads back as the same number of cents, formatting is
  idempotent, and a field's value never exceeds its digit limit.
- **Text** (`jstext.dfy`, `email.dfy`): JavaScript's white-space set and
  `trim`, and the e-mail pattern `^[^\s@]+@[^\s@]+\.[^\s@]+$`, stated as the
  pattern reads and as a computable check proved equal to it.
- **Campaigns and the ledger** (`campaigns.dfy`, `ledger.dfy`): the two
  tables as a `Database` class holding the contribution rows (a sequence) and
  the campaigns (a map). The contribution insert is the lookup by
  `transaction_nsu` followed by an insert only when nothing was found; it
  keeps transaction ids unique. Ownership is trimmed-string id equality.
- **Pages** (`detalhes_apoio.dfy`, `tap_payment.dfy`, `apoiar_apoio.dfy`,
  `criar_apoio.dfy`): one class per page holding its form state, with the
  change handlers and the submit handler as methods, and each page's
  rejection chain as a function whose result says which check failed. The
  live tap flow is the tap page (`TapPayment`). The campaign page
  (`DetalhesApoio`) also defines a tap charge and its value handler, but its
  markup never calls them: both of its tap buttons only navigate to the tap
  page. That unreachable charge writes the campaign total from the page's own
  copy of the campaign, also when the transaction was already recorded. It is
  modelled as written, and lemmas state what it would do if it were called.
- **Verification** (`payment_verification.dfy`,
  `verify_payment_function.dfy`, `web.dfy`): reading the five parameters the
  provider appends to the return address, the client's `verifyPayment`, and
  the `verify-payment` server function that relays to the provider; a
  supporter is told "paid" only when the provider said so.
- **Bridge** (`infinitepay.dfy`): the bounded 20-probe wait for the bridge
  and the unwrapping of `{status, data, message}` answers.

The database, `fetch`, the bridge, the clock and URL parsing are inputs:
each handler takes the outcome of each outside call as a parameter
(`FetchOutcome`, `Call`, `insertOk`, `updateOk`, `now`, `ParsedUrl`).
Amounts are integer cents throughout.

## Model

| member | source | states |
|---|---|---|
| Money.FormatCurrency | src/pages/DetalhesApoio.tsx:60-76 | empty output exactly when the extracted digits are `""`, `"0"` or `"00"`; otherwise a display amount (canonical reais, comma, two cent digits) whose value is the digits' integer value |
| Money.ParseValueToCents | src/pages/DetalhesApoio.tsx:78-83 | the result is the integer value of the extracted digits (0 when there are none) and has no more digits than were extracted |
| Money.FormatCurrencyRoundTrip | src/pages/DetalhesApoio.tsx:60-83 | parsing the formatted value gives the same cents as parsing the raw value |
| Money.FormatCurrencyIdempotent | src/pages/DetalhesApoio.tsx:60-76 | formatting an already formatted value changes nothing |
| Money.DisplayAmountIsFixedPoint | src/pages/DetalhesApoio.tsx:60-76 | every display amount is its own formatting |
| Money.DisplayAmountParses | src/pages/DetalhesApoio.tsx:78-83 | a display amount parses to reais times 100 plus centavos |
| Money.ParseIgnoresNonDigits | src/pages/DetalhesApoio.tsx:78-83 | parsing ignores every non-digit character |
| Money.FormattedCentsParse | src/pages/ApoiarApoio.tsx:44-62 | a positive amount written as digits formats to a non-empty value that parses back to the amount |
| Money.NatToString | src/pages/DetalhesApoio.tsx:70-75 | `toString` of a number is a canonical digit string |
| Money.ValueOfNatToString | src/pages/DetalhesApoio.tsx:70-75 | the digit string of a number reads back as that number |
| Money.NatToStringOfValue | src/pages/DetalhesApoio.tsx:70-75 | a canonical digit string is the `toString` of its value |
| Money.DigitsAppend | src/pages/DetalhesApoio.tsx:62 | digit extraction distributes over concatenation |
| Money.ValueOfAppend | src/pages/DetalhesApoio.tsx:70 | the value of concatenated digit strings is the positional sum |
| Money.ValueOfBound | src/pages/DetalhesApoio.tsx:70 | a value with `k` digits is below 10^k |
| Money.Pad2 | src/pages/DetalhesApoio.tsx:75 | `padStart(2, '0')` of a number below 100 is two digits |
| Money.ValueOfPad2 | src/pages/DetalhesApoio.tsx:75 | the padded centavos read back as the centavos |
| Money.Pad2OfValue | src/pages/DetalhesApoio.tsx:75 | two digits are the padding of their own value |
| Fields.ValueFieldChange | src/pages/DetalhesApoio.tsx:86-93 | an input with more digits than the limit leaves the field unchanged; otherwise the field becomes exactly `formatCurrency` of the input's digits, which is empty or a display amount and parses to the input's value |
| Fields.ValueFieldStaysBounded | src/pages/DetalhesApoio.tsx:86-93 | a field below the limit stays below 10^limit cents after any keystroke |
| Fields.TextFieldChange | src/pages/TapPayment.tsx:83-95 | an input longer than the limit is ignored; otherwise it is taken as typed |
| JsText.Trim | src/pages/DetalhesApoio.tsx:98-99 | `trim` never lengthens a string |
| JsText.TrimIsWhitespaceFree | src/pages/DetalhesApoio.tsx:98-99 | a trimmed string neither starts nor ends with white space |
| JsText.TrimIgnoresPadding | src/pages/DetalhesApoio.tsx:98-99 | trimming ignores any white space added around a string |
| Email.IsValidEmail | src/pages/ApoiarApoio.tsx:151-153 | the check succeeds exactly when the string matches the pattern as written |
| Campaigns.IsFinished | src/pages/ApoiarApoio.tsx:318 | a campaign that is not finished is below its goal and not marked `concluido`; one at or past its goal is finished |
| Campaigns.IsOwner | src/pages/DetalhesApoio.tsx:98-99 | ownership needs a signed-in user and a loaded campaign, and a campaign with an owner id is owned only by a user whose id equals it up to surrounding white space |
| Campaigns.OwnerIgnoresPadding | src/pages/DetalhesApoio.tsx:98-99 | a user owns a campaign whose `user_id` equals the user's id up to surrounding white space |
| Ledger.CountTransaction | src/pages/DetalhesApoio.tsx:252-256 | the number of rows carrying a transaction id: at most the number of rows, and zero exactly when no row carries it |
| Ledger.RecordIfNew | src/pages/DetalhesApoio.tsx:252-272 | the rows are unchanged or gain exactly the new row at the end, and they grow exactly when the lookup found nothing and the insert succeeds |
| Ledger.ExistingIffPresent | src/pages/DetalhesApoio.tsx:252-260 | with unique ids, the `maybeSingle` lookup finds a row exactly when some row carries the id |
| Ledger.RecordIfNewKeepsUnique | src/pages/DetalhesApoio.tsx:252-272 | the lookup-then-insert keeps transaction ids unique |
| Ledger.RecordIfNewCount | src/pages/DetalhesApoio.tsx:252-272 | after the step the id occurs exactly once when it was already recorded or the insert succeeded, and not at all after a failed insert of a new id |
| Ledger.RecordAgainIsNoOp | src/pages/DetalhesApoio.tsx:252-272 | recording a transaction id a second time leaves the rows unchanged |
| Ledger.Database.RecordContribution | src/pages/DetalhesApoio.tsx:252-272 | reports whether the id was found, inserts only when absent, reports a save error only for a failed insert, keeps ids unique |
| Ledger.Database.SetRaised | src/pages/DetalhesApoio.tsx:283-288 | sets the named campaign's total when the update succeeds, changes nothing else |
| Ledger.Database.InsertCampaign | src/pages/CriarApoio.tsx:195-208 | adds the campaign under its new id when the insert succeeds |
| DetalhesApoio.CanUseTapPayment | src/pages/DetalhesApoio.tsx:103-117 | true exactly when the bridge offers `receiveTapPayment`, availability holds, and the user owns the campaign or `forceTap` is set |
| DetalhesApoio.CheckTapCharge | src/pages/DetalhesApoio.tsx:185-228 | accepted exactly when the bridge offers the call, value and name are filled, the amount is at least 100 and, for credit, at least 100 per installment; each refusal holds exactly when every earlier check passes and its own fails |
| DetalhesApoio.TapParams | src/pages/DetalhesApoio.tsx:236-245 | the charge carries the amount, the order id and method; debit sends one installment, credit the chosen count |
| DetalhesApoio.StoredEmail | src/pages/DetalhesApoio.tsx:267 | an empty e-mail is stored as `tap@payment.local`, a given one as typed; the stored e-mail is never empty |
| DetalhesApoio.TapSaved | src/pages/DetalhesApoio.tsx:252-291 | the rows are unchanged or gain the new row; no campaign is added or removed; every other campaign is unchanged; the charged campaign is unchanged or holds the cached total plus the amount |
| DetalhesApoio.TapSaveWritesCachedTotal | src/pages/DetalhesApoio.tsx:258-291 | the total written is the page's cached total plus the amount, whatever the table held, also for an already recorded transaction; a failed insert writes nothing |
| DetalhesApoio.RetriedTapCountsTwice | src/pages/DetalhesApoio.tsx:249-292 | a confirmation handled twice leaves one row but raises the total by twice the amount |
| DetalhesApoio.Page.HandleTapValorChange | src/pages/DetalhesApoio.tsx:86-93 | the value field follows the 8-digit rule and stays within it (the page's markup never calls this handler) |
| DetalhesApoio.Page.HandleTapPayment | src/pages/DetalhesApoio.tsx:183-332 | refusals send nothing and change nothing; an accepted charge sends the built parameters; after provider success the tables are the deduplicated insert plus the cached-total write, and the outcome is completion with the checked amount and whether the id was already recorded exactly when it was recorded or the insert succeeds, a save failure otherwise; the form resets and the cached total rises (when the update succeeds) only on completion (the page's markup never calls this handler) |
| TapPayment.AccessFor | src/pages/TapPayment.tsx:97-159 | access is granted exactly to the signed-in owner of the loaded campaign; no user is sent back; a signed-in user whose campaign read failed gets the load failure; waiting while the id is absent or the user loads |
| TapPayment.CheckCharge | src/pages/TapPayment.tsx:161-202 | accepted exactly when campaign, value and name are present, the amount is at least 100, the name has 3 characters and any e-mail given matches the pattern; each refusal holds exactly when every earlier check passes and its own fails |
| TapPayment.SuccessUrl | src/pages/TapPayment.tsx:264-267 | the success address is `/apoio/<id>/tap-sucesso` and its `valor`, `clientName` and `campaignTitle` parameters read the amount's digits, the client's name and the campaign title |
| TapPayment.SuccessUrlCarriesCharge | src/pages/TapPayment.tsx:264-269 | the success page reads back from `valor` exactly the cents charged |
| TapPayment.Page.Load | src/pages/TapPayment.tsx:97-159 | decides access as `AccessFor`, keeps the campaign read, ends loading once the read was attempted |
| TapPayment.Page.HandleTapValorChange | src/pages/TapPayment.tsx:73-81 | the value field follows the 6-digit rule |
| TapPayment.Page.HandleTapClientNameChange | src/pages/TapPayment.tsx:83-88 | names longer than 50 characters are ignored |
| TapPayment.Page.HandleTapClientEmailChange | src/pages/TapPayment.tsx:90-95 | e-mails longer than 100 characters are ignored |
| TapPayment.Page.SelectPaymentMethod | src/pages/TapPayment.tsx:427 | the payment method becomes the one selected |
| TapPayment.Page.SelectInstallments | src/pages/TapPayment.tsx:441-453 | the installment count is one of the offered 1 to 6 |
| TapPayment.Page.HandleTapPayment | src/pages/TapPayment.tsx:161-288 | refusals leave the loading flag; a missing bridge charges and records nothing; the deduplicated insert follows provider success; after it the outcome is completion (with whether the id was already recorded) exactly when the id was recorded or the insert succeeds, a save failure otherwise; navigation to the success address exactly on completion; the loading flag is false after every exit once set; totals are never touched |
| ApoiarApoio.CheckContribution | src/pages/ApoiarApoio.tsx:121-183 | accepted exactly when all fields are filled, the campaign is open, the name has 3 characters, the e-mail matches, and 100 <= amount <= goal minus raised; each refusal holds exactly when every earlier check passes and its own fails |
| ApoiarApoio.AcceptedFitsGoal | src/pages/ApoiarApoio.tsx:173-183 | an accepted amount never takes the campaign past its goal |
| ApoiarApoio.FinishedRefusesAll | src/pages/ApoiarApoio.tsx:131-139 | a finished campaign refuses every filled-in contribution |
| ApoiarApoio.RemainingAmountAccepted | src/pages/ApoiarApoio.tsx:173-183 | exactly the remaining amount, typed into the field, is accepted |
| ApoiarApoio.CheckoutFor | src/pages/ApoiarApoio.tsx:185-212 | one item of quantity 1 priced at the amount, the customer, `APOIO_<time>_<id>` and the redirect address |
| ApoiarApoio.RedirectUrl | src/pages/ApoiarApoio.tsx:188-194 | the redirect is `/apoio-sucesso` and its `apoio_id`, `nome`, `email` and `valor` parameters read the campaign id, name, e-mail and the amount's digits |
| ApoiarApoio.RedirectCarriesContribution | src/pages/ApoiarApoio.tsx:188-194 | the return page reads back from `valor` exactly the amount in cents |
| ApoiarApoio.Page.HandleValorChange | src/pages/ApoiarApoio.tsx:64-72 | the amount field follows the 6-digit rule |
| ApoiarApoio.Page.HandleNomeChange | src/pages/ApoiarApoio.tsx:74-79 | names longer than 20 characters are ignored |
| ApoiarApoio.Page.HandleEmailChange | src/pages/ApoiarApoio.tsx:81-86 | e-mails longer than 100 characters are ignored |
| ApoiarApoio.Page.Load | src/pages/ApoiarApoio.tsx:88-119 | keeps the campaign read, goes home when the read fails, ends loading |
| ApoiarApoio.Page.HandleApoiar | src/pages/ApoiarApoio.tsx:121-288 | refusals request nothing; a non-ok checkout stops with no bridge call and no insert; the bridge gets the link only when present; the deduplicated insert happens only for a returned payment, which reports whether the lookup found the transaction already recorded; otherwise the checkout link is opened; totals are never touched |
| CriarApoio.FilterHandle | src/pages/CriarApoio.tsx:92 | keeps only `[A-Za-z0-9_-]` characters, a character occurs in the result exactly when it is a handle character of the input, and the result is never longer than the input |
| CriarApoio.FilterHandleSingle | src/pages/CriarApoio.tsx:92 | one character is kept when it is in `[A-Za-z0-9_-]` and dropped otherwise; with FilterHandleAppend this fixes the filter on every string |
| CriarApoio.FilterHandleKeepsHandles | src/pages/CriarApoio.tsx:92 | a string of handle characters passes the filter unchanged |
| CriarApoio.FilterHandleAppend | src/pages/CriarApoio.tsx:92 | the filter keeps characters in order, piece by piece |
| CriarApoio.FilterHandleIdempotent | src/pages/CriarApoio.tsx:92 | filtering twice is filtering once |
| CriarApoio.HandleFieldChange | src/pages/CriarApoio.tsx:89-96 | the handle becomes the filtered input when it has at most 50 characters, otherwise stays; a valid handle stays valid |
| CriarApoio.IsValidImageUrl | src/pages/CriarApoio.tsx:98-105 | true exactly for parseable addresses with protocol `http:` or `https:` |
| CriarApoio.CheckNewCampaign | src/pages/CriarApoio.tsx:107-186 | accepted exactly when a user is signed in, all fields are filled, title has 5 and handle 3 characters, 100 <= goal <= 999999900 and any image address is valid; the description-length refusal never happens; each refusal holds exactly when every earlier check passes and its own fails |
| CriarApoio.NewCampaignRow | src/pages/CriarApoio.tsx:195-204 | the row carries the parsed goal, a null image for an empty address, the user's id and the handle |
| CriarApoio.NewCampaignOpenAndOwned | src/pages/CriarApoio.tsx:107-204 | a newly created campaign is open and owned by its creator |
| CriarApoio.Page.HandleMetaValorChange | src/pages/CriarApoio.tsx:54-63 | the goal field follows the 9-digit rule |
| CriarApoio.Page.HandleTituloChange | src/pages/CriarApoio.tsx:65-71 | titles longer than 100 characters are ignored |
| CriarApoio.Page.HandleDescricaoChange | src/pages/CriarApoio.tsx:73-79 | descriptions longer than 2000 characters are ignored |
| CriarApoio.Page.HandleImagemUrlChange | src/pages/CriarApoio.tsx:81-87 | image addresses longer than 500 characters are ignored |
| CriarApoio.Page.HandleInfinitepayChange | src/pages/CriarApoio.tsx:89-96 | the handle field follows the filter-and-limit rule and stays a valid handle |
| CriarApoio.Page.HandleSubmit | src/pages/CriarApoio.tsx:107-226 | refusals insert nothing and leave loading alone; an accepted form inserts the row when the insert succeeds, navigates to the new campaign, and ends with loading false |
| Web.Lookup | src/pages/ApoiarApoio.tsx:188-194 | `searchParams.get`: absent exactly when no pair has the name, otherwise the value of a pair with it |
| Web.SetParam | src/pages/ApoiarApoio.tsx:191-194 | `searchParams.set`: the name then reads the new value, other names read as before, a new name is appended |
| PaymentVerification.ParsePaymentParams | src/lib/payment-verification.ts:51-76 | a result exactly when the address parses and all five parameters are present and non-empty, and then exactly those five values |
| PaymentVerification.ParseReturnUrl | src/lib/payment-verification.ts:51-76 | a return address carrying the five parameters reads back as them |
| PaymentVerification.VerifyPayment | src/lib/payment-verification.ts:16-49 | the request renames its arguments; an ok response's body is returned as is; anything else is `{success: false, paid: false}`; paid only when the relay said paid |
| VerifyPaymentFunction.ProviderUrl | supabase/functions/verify-payment/index.ts:43-48 | the handle goes in the path, and the query holds exactly the three other fields |
| VerifyPaymentFunction.ThrownResponse | supabase/functions/verify-payment/index.ts:85-97 | a thrown error becomes status 500 with success and paid false |
| VerifyPaymentFunction.HandleRequest | supabase/functions/verify-payment/index.ts:20-98 | OPTIONS answers `ok` with no call; a missing field answers 400 with no call; the provider is called exactly when all four are present; a non-ok provider gives 500 and not paid; an unreadable request body, a network error or an unreadable provider body gives 500, a failure, not success and not paid; an ok body is passed through; paid only when the provider said paid |
| VerifyPaymentFunction.ClientHearsPaidOnlyFromProvider | supabase/functions/verify-payment/index.ts:60-83 | end to end, the client's `verifyPayment` reports paid only when the provider's answer said paid |
| Infinitepay.WaitForInfinitepay | src/lib/infinitepay.ts:52-64 | at most 20 waits, none when the bridge is there at once, stops at the first probe that finds it; fails with "InfinitePay API not available" exactly when the last probe finds nothing |
| Infinitepay.Unwrap | src/lib/infinitepay.ts:72-76 | the data exactly when status is success and data is present; otherwise the message, or the default when the message is missing or empty |
| Infinitepay.CallBridge | src/lib/infinitepay.ts:67-102 | the bridge is called only after the wait found it; otherwise the not-available error |
| Infinitepay.GetInfinitepayUser | src/lib/infinitepay.ts:67-77 | waits, then unwraps with "Failed to get user data"; a rejected call gives its reason |
| Infinitepay.ProcessCheckoutPayment | src/lib/infinitepay.ts:80-90 | waits, sends the link, unwraps with "Payment failed"; a rejected call gives its reason |
| Infinitepay.ProcessTapPayment | src/lib/infinitepay.ts:93-102 | waits, sends the parameters, unwraps with "Payment failed"; a rejected call gives its reason |

## Left out

- JSX rendering, toasts, `console` output and navigation calls: handlers return the address they would navigate to; the confirmation page `src/pages/TapSucesso.tsx` and the routing table `src/App.tsx` are not part of this model.
- Floating-point display (`valor / 100`, `toFixed`, `toLocaleString`, the progress percentage); all amounts are integer cents, and the per-installment check `amount / n < 100` is stated as `amount < 100 * n`.
- The network, the Supabase client, `fetch`, CORS headers and the bridge's own code: their outcomes are parameters of the handlers.
- Concurrency: each handler is one sequential run; the race between the lookup and the insert, and between two pages writing a total, is not modelled.
- `Date.now()`, the `setTimeout` delays of the wait loop and the `forceTap` address probe are inputs (`now`, `present`, `forceTap`).
- `new URL(...)` parsing is an input (`ParsedUrl`): a parsed address is its protocol and its query as a map; query strings are built as sequences of name/value pairs and not serialised.
- String lengths: `.length` in the source counts UTF-16 code units, the model counts characters, so the length limits and minimums differ for text with characters outside the Basic Multilingual Plane.
- `parseInt` beyond 2^53: cents are unbounded integers; the digit limits of the forms keep real values far below that bound.
- A failed database lookup: Supabase then returns no row, so it would read as "not recorded"; the model's lookup always answers.
- The columns the database fills itself: a new campaign is assumed to start with `valor_atual` 0 and no status.
- Ledger.Database.RecordContribution: `maybeSingle` returns no row when several rows match; with the uniqueness invariant the model never meets that case.
- DetalhesApoio.Page.HandleTapPayment and DetalhesApoio.Page.HandleTapValorChange: no element of the campaign page calls either handler (its tap buttons only navigate to the tap page), so they are modelled as the code defines them. The reload of the supporters list after a charge is left out. A campaign that has not finished loading is also left out: the page class is built from a loaded campaign, and the handler, if it were ever called, would read `apoio.id` of a missing campaign.
- DetalhesApoio.Page: the installment count is never changed on this page except by the reset, so only its stored value is modelled.
- ApoiarApoio.Page.HandleApoiar: `executePayment` comes from a hook (`src/hooks/useInfinitepay`) that is not part of this model; what it returns or throws is an input; the signed-in user the page reads is not used by the handler and is left out.
- TapPayment.Page.HandleTapPayment: a thrown bridge call and an unsuccessful answer are one outcome, as the page treats them alike.
- VerifyPaymentFunction.HandleRequest: a field of the request body that is present but not a string (a number, say) is treated as missing, whereas the function as written would let a truthy non-string value through to the provider address.
- VerifyPaymentFunction.HandleRequest: the error message text of a thrown error is kept, but how JSON parsing of the request fails is an input.
