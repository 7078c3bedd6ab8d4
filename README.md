# Donation charge pipeline

A Dafny model of the server side of a serverless donation page (a single
Cloudflare-style worker, `worker.js`). A POST of the donation form is turned
into one transaction request to the Midtrans Snap payment gateway: the
worker optionally checks a reCAPTCHA answer, computes the payment-method fee
and the VAT, builds a three-line item breakdown whose total is the gross
amount, picks the sandbox or production endpoint from the credential pair,
and relays the token the gateway answers with. A GET renders the form page;
any other HTTP method gets no response.

Modules, leaves first:

- `JsValues` (`js_values.dfy`): the JavaScript values the worker relies on.
  A number is `Finite(real)` or `NaN`; `+`, `*` and `<` treat NaN as
  JavaScript does; `DecimalString` is the text a whole number becomes when
  it is appended to a string.
- `FeePolicy` (`fee_policy.dfy`): the 16 payment methods, the fee switch
  (`calculateFee`), the VAT list (`calculateVAT`) and the display names
  (`translatedPaymentMethod`).
- `EnvironmentResolver` (`environment_resolver.dfy`): `getSnapEnvironment`
  and `getTransactionEnvironment`.
- `GatewayClient` (`gateway_client.dfy`): the call `getMidTransToken` makes.
  This covers the order id, the Basic authorization header and the JSON body.
  It also gives the line-total sum the gateway checks against `gross_amount`.
- `RequestRouter` (`request_router.dfy`): `handleRequest` as one function
  from the HTTP method, the parsed form, the settings and the outside
  collaborators to a `Response`.

The outside collaborators are parameters of `HandleRequest`:

- `verify`: the reCAPTCHA site-verify call, from secret and token to `{success, score}`.
- `gateway`: the gateway `fetch` plus `response.json()`, which yields a token or a failure.
- `base64`: `btoa`.
- `now`: `Date.now()`.

Money is an exact `real`. The settings object is the `Config` value passed
in. Its `countryVat` and `captchaScore` fields are the numeric readings of
the textual settings. A blank score setting is `None`.

## Model

| member | source | states |
|---|---|---|
| `FeePolicy.Parse` | worker.js:54-86 | a code is recognised exactly when it is one of the 16 case labels of the fee switch, and then as the method whose code it is |
| `FeePolicy.ParseCode` | worker.js:54-86 | every one of the 16 methods is recognised from its own code |
| `FeePolicy.CalculateFee` | worker.js:50-90 | the fee succeeds exactly for a present code among the 16 supported ones; otherwise it fails with the unsupported-method error carrying the posted code |
| `FeePolicy.FeeErrorMessage` | worker.js:86 | the thrown message is "Unsupported payment method: " followed by the posted code, or by "null" when the field is missing |
| `FeePolicy.RuleOf` | worker.js:54-84 | percentage 0.007 for other_qris and 0.02 for the other percentage methods; percentage plus flat only for credit_card; flat exactly for the ten bank-transfer and over-the-counter codes, 5000 for the four store codes and 4000 for the six bank codes |
| `FeePolicy.ApplyRule` | worker.js:56-83 | a flat rule gives its charge whatever the amount, NaN included; a percentage gives `amount * rate`, plus the charge for credit card, and is NaN exactly when the amount is |
| `FeePolicy.FeeTwoPercent` | worker.js:55-84 | gopay, shopeepay, akulaku and kredivo cost `amount * 0.02` |
| `FeePolicy.FeeOtherQris` | worker.js:61-63 | other_qris costs `amount * 0.007` |
| `FeePolicy.FeeCreditCard` | worker.js:64-66 | credit_card costs `amount * 0.029 + 2000` |
| `FeePolicy.FeeVirtualAccount` | worker.js:67-74 | the six bank-transfer / virtual-account codes cost a flat 4000 for any amount, NaN included |
| `FeePolicy.FeeOverTheCounter` | worker.js:75-80 | indomaret, alfamart, alfamidi and dan_dan cost a flat 5000 for any amount |
| `FeePolicy.FeeFiniteForFiniteAmount` | worker.js:54-86 | every method has a fee; it is a number when the amount is, and a flat fee is a number even for a NaN amount |
| `FeePolicy.CreditCardExample` | worker.js:64-66 | 100000 by credit card costs 4900 |
| `FeePolicy.UnsupportedExample` | worker.js:85-86 | "bitcoin" and a missing method both fail with the unsupported-method error |
| `FeePolicy.VatPercent` | worker.js:110 | an empty or unparseable VAT setting counts as 0% |
| `FeePolicy.CalculateVat` | worker.js:93-115 | a code outside the VAT list gets VAT 0 for any amount; a finite amount gets a finite VAT |
| `FeePolicy.VatListMatchesKinds` | worker.js:97-107 | the VAT list is exactly credit card, the two pay-later methods and the six bank-transfer / virtual-account methods |
| `FeePolicy.VatCodesAreSupported` | worker.js:97-107 | every code on the VAT list is also a fee-supported code |
| `FeePolicy.VatZeroOutsideList` | worker.js:109-114 | a method not on the VAT list gets VAT 0 whatever the amount (even NaN) and the configured percentage |
| `FeePolicy.VatOnList` | worker.js:109-112 | a method on the VAT list gets `amount * (percent / 100)` |
| `FeePolicy.VatUnsetIsZero` | worker.js:110-111 | with an unparseable VAT setting the VAT of a finite amount is 0 |
| `FeePolicy.DisplayNamesCoverSupported` | worker.js:159-176 | the translation table has an entry for exactly the 16 supported codes |
| `FeePolicy.DisplayNameOfMethod` | worker.js:158-178 | each supported code is displayed under its method's name |
| `FeePolicy.DisplayName` | worker.js:158-178 | a code outside the table is returned unchanged, and a supported code gets its method's display name; see also `DisplayNameOfMethod` and `DisplayNameUnknown` |
| `FeePolicy.FeeLineName` | worker.js:181 | the fee line of a supported code is its method's display name followed by " Payment Fee"; a code outside the table is followed by " Payment Fee" unchanged |
| `FeePolicy.DisplayNameUnknown` | worker.js:177 | a code the fee switch does not know is displayed unchanged |
| `EnvironmentResolver.SnapEnvironment` | worker.js:213-224 | the sandbox checkout script exactly when both keys start with "SB-", the production one otherwise |
| `EnvironmentResolver.TransactionEnvironment` | worker.js:1521-1532 | the sandbox transaction endpoint exactly when both keys start with "SB-", the production one otherwise |
| `EnvironmentResolver.EnvironmentsAgree` | worker.js:215-223 | the form's checkout script and the token request always target the same environment, sandbox exactly when both keys are sandbox keys |
| `EnvironmentResolver.MixedPairIsProduction` | worker.js:1523-1531 | a pair where only one key starts with "SB-" is not rejected and selects production |
| `JsValues.DecimalString` | worker.js:1509 | the timestamp text is a non-empty run of decimal digits with no leading zero |
| `JsValues.DecimalRoundTrip` | worker.js:1509 | reading the timestamp text back gives the timestamp |
| `JsValues.DecimalInjective` | worker.js:1509 | different timestamps give different text |
| `GatewayClient.OrderId` | worker.js:1509 | every order id starts with "support-" |
| `GatewayClient.OrderIdUniquePerMillisecond` | worker.js:1509 | two order ids are equal exactly when they were taken in the same millisecond |
| `GatewayClient.AuthHeader` | worker.js:1504 | the header is "Basic " followed by the encoding of the server key and a colon |
| `GatewayClient.AuthHeaderIdentifiesKey` | worker.js:1504 | with an injective encoding, different server keys give different headers |
| `GatewayClient.BuildCall` | worker.js:1503-1518 | the call targets the environment's transaction endpoint, sandbox exactly when both keys are sandbox keys; it carries the Basic header of the server key, the order id of `now` (so a "support-" one), the given gross amount, items, name and email, and only the given method enabled |
| `RequestRouter.Gross` | worker.js:155 | `amount + fee + vat` is a number exactly when all three are, and then it is their sum |
| `RequestRouter.Breakdown` | worker.js:183-202 | three lines with ids donation, fee and vat in that order, priced amount, fee and VAT, each of quantity 1; their sum is stated by `BreakdownSumsToGross` |
| `RequestRouter.BreakdownSumsToGross` | worker.js:155-202 | the price-times-quantity sum of the three lines equals `amount + fee + vat`, NaN included |
| `RequestRouter.HandleRequest` | worker.js:118-210 | the form page exactly for GET, no response exactly for methods other than GET and POST, a 403 only for a POST with reCAPTCHA configured, and a token response only with the gateway's own token; the lemmas `GetRendersForm`, `CaptchaGate`, `UnsupportedMethodFails`, `ChargeCallTarget`, `ChargeBreakdown` and `ChargeTokenRelayed` state the rest |
| `RequestRouter.Charge` | worker.js:143-208 | the POST branch past the gate: it fails with the unsupported-method error exactly for a missing or unsupported code, and otherwise calls the gateway with only that code enabled and a gross amount equal to the sum of the lines; it relays the gateway's token or failure |
| `RequestRouter.CaptchaEnabled` | worker.js:128 | both reCAPTCHA keys are non-empty; used by `CaptchaGate` and `CaptchaSkippedWhenUnconfigured` |
| `RequestRouter.CaptchaThreshold` | worker.js:137 | the configured score, or 0.5 when it is blank; stated by `DefaultThreshold` |
| `RequestRouter.CaptchaRejects` | worker.js:137 | `!success` or a score below the threshold; stated by `CaptchaGate`, `DefaultThreshold` and `MissingScorePasses` |
| `RequestRouter.GetRendersForm` | worker.js:119-123 | GET renders the form, with the sandbox checkout script exactly when both keys are sandbox keys |
| `RequestRouter.OtherMethodsUnhandled` | worker.js:118-210 | any HTTP method other than GET and POST yields no response |
| `RequestRouter.CaptchaGate` | worker.js:128-140 | with both reCAPTCHA keys set, a POST gets 403 exactly when `!success` or `score < threshold`; that answer does not depend on the amount or the payment method, so no fee is computed |
| `RequestRouter.DefaultThreshold` | worker.js:137 | a blank score setting means a threshold of 0.5 |
| `RequestRouter.MissingScorePasses` | worker.js:137 | a successful answer without a score is never refused on score |
| `RequestRouter.CaptchaSkippedWhenUnconfigured` | worker.js:128 | without both keys the verification answer does not matter and no 403 is possible |
| `RequestRouter.UnsupportedMethodFails` | worker.js:143-149 | past the gate, a missing or unsupported method ends in the unsupported-method error without consulting the gateway |
| `RequestRouter.ChargeCallTarget` | worker.js:1503-1518 | past the gate with a supported method, the gateway is called at the environment's endpoint with the Basic header, a "support-" order id, the posted name and email and only the posted method enabled |
| `RequestRouter.ChargeTokenRelayed` | worker.js:204-208 | the gateway's token is relayed unchanged, and a failed call is a failed request |
| `RequestRouter.ChargeBreakdown` | worker.js:148-202 | the call carries the three lines described below, and its gross amount is `amount + fee + vat` and the sum of the lines |
| `RequestRouter.BniVaExample` | worker.js:148-155 | 50000 through bni_va at 10% VAT: fee 4000, VAT 5000, gross 59000 |
| `RequestRouter.GopayExample` | worker.js:143-209 | 5000 through gopay: fee 100, VAT 0, gross 5100, and the gateway's token comes back as it was |

The three lines that `RequestRouter.ChargeBreakdown` describes:

- they are donation, fee and VAT, in that order;
- each has quantity 1, and their prices are amount, fee and VAT;
- the VAT line is there even when the VAT is 0;
- the fee line is named after the method's display name, followed by " Payment Fee";
- the VAT line is named "VAT " followed by the VAT setting as written and "%".

## Left out

- The HTML page, its styles and its client-side script (`donationFormHTML`):
  `GetRendersForm` stops at the checkout script URL the page embeds.
- Network I/O. The reCAPTCHA `fetch` is the `verify` parameter; the gateway
  `fetch` and `response.json()` are the `gateway` parameter. A failure of the
  gateway `fetch` or of `response.json()` is one `TransportFailure` reply. A
  failure of the reCAPTCHA call itself is not modelled: the worker would
  throw there.
- `request.formData()` failing on a body that is not form data; the form
  arrives already parsed.
- `Date.now()` is the `now` parameter and `btoa` is the `base64` parameter.
- IEEE-754 arithmetic. Amounts are exact reals, so rounding of
  `amount * 0.029` and similar products is not modelled. Infinities are not
  modelled either; NaN is.
- `parseFloat` and JavaScript's string-to-number conversion of the
  settings are not modelled. The model takes their results as inputs: the
  form's `amount`, `countryVat`, and `captchaScore`.
- `DisplayName`: a key such as `"constructor"` that JavaScript would find on
  the object prototype is not modelled. It cannot reach this function anyway,
  because `calculateFee` has already rejected every code outside the 16.
- FeePolicy.DisplayNameUnknown: for a prototype key such as `"constructor"` or
  `"toString"` JavaScript would return the inherited member, not the code; the
  lemma does not cover that, because no such code gets past `calculateFee`.
- The serialization of the response. `TokenJson` stands for
  `JSON.stringify({ token })`; a missing token is `None`.
- The status code of the platform's default error response is not modelled.
  `ChargeFailure` and `GatewayFailure` stand for an uncaught exception.
- `DecimalString` covers whole numbers below 10^21, which is every
  `Date.now()` value.
- The module-level `ENV` object and the `addEventListener` wiring.
