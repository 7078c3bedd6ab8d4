/** Fee and VAT policy of the donation worker: the closed set of payment
    method codes the gateway is asked to enable, the fee formula of each,
    the subset that carries VAT, and the display name of each code. */
module FeePolicy {
  import opened JsValues

  /** The sixteen payment method codes `calculateFee` accepts. */
  datatype PaymentMethod =
    | Gopay | ShopeePay | OtherQris | CreditCard
    | Echannel | BriVa | CimbVa | BniVa | PermataVa | OtherVa
    | Indomaret | Alfamart | Alfamidi | DanDan
    | Akulaku | Kredivo

  /** The code the form posts and the gateway understands. */
  function Code(m: PaymentMethod): string {
    match m
    case Gopay => "gopay"
    case ShopeePay => "shopeepay"
    case OtherQris => "other_qris"
    case CreditCard => "credit_card"
    case Echannel => "echannel"
    case BriVa => "bri_va"
    case CimbVa => "cimb_va"
    case BniVa => "bni_va"
    case PermataVa => "permata_va"
    case OtherVa => "other_va"
    case Indomaret => "indomaret"
    case Alfamart => "alfamart"
    case Alfamidi => "alfamidi"
    case DanDan => "dan_dan"
    case Akulaku => "akulaku"
    case Kredivo => "kredivo"
  }

  /** The case labels of the fee switch, in the order they appear. */
  const SUPPORTED_CODES: seq<string> := [
    "gopay", "shopeepay", "other_qris", "credit_card",
    "echannel", "bri_va", "cimb_va", "bni_va", "permata_va", "other_va",
    "indomaret", "alfamart", "alfamidi", "dan_dan",
    "akulaku", "kredivo"
  ]

  /** The switch of `calculateFee` read as a lookup: which case label, if
      any, a posted code hits. */
  function Parse(code: string): (r: Option<PaymentMethod>)
    ensures r.Some? ==> Code(r.value) == code
    ensures r.Some? <==> code in SUPPORTED_CODES
  {
    if code == "gopay" then Some(Gopay)
    else if code == "shopeepay" then Some(ShopeePay)
    else if code == "other_qris" then Some(OtherQris)
    else if code == "credit_card" then Some(CreditCard)
    else if code == "echannel" then Some(Echannel)
    else if code == "bri_va" then Some(BriVa)
    else if code == "cimb_va" then Some(CimbVa)
    else if code == "bni_va" then Some(BniVa)
    else if code == "permata_va" then Some(PermataVa)
    else if code == "other_va" then Some(OtherVa)
    else if code == "indomaret" then Some(Indomaret)
    else if code == "alfamart" then Some(Alfamart)
    else if code == "alfamidi" then Some(Alfamidi)
    else if code == "dan_dan" then Some(DanDan)
    else if code == "akulaku" then Some(Akulaku)
    else if code == "kredivo" then Some(Kredivo)
    else None
  }

  /** Every method's code is recognised as that method. */
  lemma ParseCode(m: PaymentMethod)
    ensures Parse(Code(m)) == Some(m)
  {
  }

  /** A form field that may be missing (`formData.get` returns null). */
  function ParseField(code: Option<string>): Option<PaymentMethod> {
    if code.Some? then Parse(code.value) else None
  }

  // ---------------------------------------------------------------------
  // Fees

  /** The three shapes a fee formula takes. */
  datatype FeeRule =
    | Percentage(rate: real)
    | Flat(charge: real)
    | PercentagePlusFlat(rate: real, charge: real)

  /** The formula each case of the fee switch applies. */
  function RuleOf(m: PaymentMethod): (rule: FeeRule)
    ensures rule.Percentage? ==> rule.rate == (if m == OtherQris then 0.007 else 0.02)
    ensures rule.PercentagePlusFlat? <==> m == CreditCard
    ensures rule.Flat? <==> Code(m) in [
              "echannel", "bri_va", "cimb_va", "bni_va", "permata_va", "other_va",
              "indomaret", "alfamart", "alfamidi", "dan_dan"]
    ensures rule.Flat? ==> rule.charge == (if m.Indomaret? || m.Alfamart? || m.Alfamidi? || m.DanDan? then 5000.0 else 4000.0)
  {
    match m
    case Gopay | ShopeePay => Percentage(0.02)
    case OtherQris => Percentage(0.007)
    case CreditCard => PercentagePlusFlat(0.029, 2000.0)
    case Echannel | BriVa | CimbVa | BniVa | PermataVa | OtherVa => Flat(4000.0)
    case Indomaret | Alfamart | Alfamidi | DanDan => Flat(5000.0)
    case Akulaku | Kredivo => Percentage(0.02)
  }

  /** A flat fee ignores the amount, so it stays a number even when the
      amount is NaN; the other shapes multiply by the amount. */
  function ApplyRule(rule: FeeRule, amount: Num): (fee: Num)
    ensures rule.Flat? ==> fee == Finite(rule.charge)
    ensures !rule.Flat? ==> (fee.Finite? <==> amount.Finite?)
    ensures rule.Percentage? && amount.Finite? ==> fee.value == amount.value * rule.rate
    ensures rule.PercentagePlusFlat? && amount.Finite? ==> fee.value == amount.value * rule.rate + rule.charge
  {
    match rule
    case Percentage(rate) => Mul(amount, Finite(rate))
    case Flat(charge) => Finite(charge)
    case PercentagePlusFlat(rate, charge) => Add(Mul(amount, Finite(rate)), Finite(charge))
  }

  /** The error `calculateFee` throws; `code` is None when the field was missing. */
  datatype FeeError = UnsupportedPaymentMethod(code: Option<string>)

  /** The message of the thrown error; a missing field prints as "null". */
  function FeeErrorMessage(e: FeeError): (msg: string)
    ensures "Unsupported payment method: " <= msg
    ensures msg[|"Unsupported payment method: "|..] == (if e.code.Some? then e.code.value else "null")
  {
    "Unsupported payment method: " + (if e.code.Some? then e.code.value else "null")
  }

  /** `calculateFee(amount, paymentMethod)`: the fee for a supported code,
      the unsupported-method error for anything else. */
  function CalculateFee(amount: Num, code: Option<string>): (r: Result<Num, FeeError>)
    ensures r.Success? <==> code.Some? && code.value in SUPPORTED_CODES
    ensures r.Failure? ==> r.error == UnsupportedPaymentMethod(code)
  {
    match ParseField(code)
    case None => Failure(UnsupportedPaymentMethod(code))
    case Some(m) => Success(ApplyRule(RuleOf(m), amount))
  }

  /** Wallets and pay-later services cost 2% of the amount. */
  lemma FeeTwoPercent(amount: real, code: string)
    requires code in ["gopay", "shopeepay", "akulaku", "kredivo"]
    ensures CalculateFee(Finite(amount), Some(code)) == Success(Finite(amount * 0.02))
  {
  }

  /** Other QRIS costs 0.7% of the amount. */
  lemma FeeOtherQris(amount: real)
    ensures CalculateFee(Finite(amount), Some("other_qris")) == Success(Finite(amount * 0.007))
  {
  }

  /** Credit card costs 2.9% of the amount plus 2000. */
  lemma FeeCreditCard(amount: real)
    ensures CalculateFee(Finite(amount), Some("credit_card")) == Success(Finite(amount * 0.029 + 2000.0))
  {
  }

  /** Bank transfers and virtual accounts cost a flat 4000 whatever the
      amount, even a NaN one. */
  lemma FeeVirtualAccount(amount: Num, code: string)
    requires code in ["echannel", "bri_va", "cimb_va", "bni_va", "permata_va", "other_va"]
    ensures CalculateFee(amount, Some(code)) == Success(Finite(4000.0))
  {
  }

  /** Convenience stores cost a flat 5000 whatever the amount. */
  lemma FeeOverTheCounter(amount: Num, code: string)
    requires code in ["indomaret", "alfamart", "alfamidi", "dan_dan"]
    ensures CalculateFee(amount, Some(code)) == Success(Finite(5000.0))
  {
  }

  /** A supported code's fee is a number whenever the amount is, and only a
      percentage of a NaN amount is NaN. */
  lemma FeeFiniteForFiniteAmount(amount: Num, m: PaymentMethod)
    ensures CalculateFee(amount, Some(Code(m))).Success?
    ensures amount.Finite? ==> CalculateFee(amount, Some(Code(m))).value.Finite?
    ensures RuleOf(m).Flat? ==> CalculateFee(amount, Some(Code(m))).value.Finite?
  {
    ParseCode(m);
  }

  lemma CreditCardExample()
    ensures CalculateFee(Finite(100000.0), Some("credit_card")) == Success(Finite(4900.0))
  {
  }

  lemma UnsupportedExample(amount: Num)
    ensures CalculateFee(amount, Some("bitcoin")) == Failure(UnsupportedPaymentMethod(Some("bitcoin")))
    ensures CalculateFee(amount, None) == Failure(UnsupportedPaymentMethod(None))
  {
  }

  // ---------------------------------------------------------------------
  // VAT

  /** The `vatApplicableMethods` list, in its order. */
  const VAT_APPLICABLE_CODES: seq<string> := [
    "credit_card", "akulaku", "kredivo",
    "echannel", "bri_va", "cimb_va", "bni_va", "permata_va", "other_va"
  ]

  /** The methods that carry VAT, by kind: credit card, pay-later and bank
      transfer / virtual account. */
  predicate VatApplies(m: PaymentMethod) {
    m.CreditCard? || m.Akulaku? || m.Kredivo?
    || m.Echannel? || m.BriVa? || m.CimbVa? || m.BniVa? || m.PermataVa? || m.OtherVa?
  }

  /** `parseFloat(ENV.Donation_CountryVAT) || 0`, given the parse. */
  function VatPercent(countryVat: Num): (p: real)
    ensures countryVat.NaN? ==> p == 0.0
  {
    OrZero(countryVat)
  }

  /** `calculateVAT(amount, paymentMethod)`: `amount * (VAT / 100)` for a
      code on the VAT list, 0 for every other code. */
  function CalculateVat(amount: Num, code: Option<string>, countryVat: Num): (r: Num)
    ensures !(code.Some? && code.value in VAT_APPLICABLE_CODES) ==> r == Finite(0.0)
    ensures amount.Finite? ==> r.Finite?
  {
    if code.Some? && code.value in VAT_APPLICABLE_CODES
    then Mul(amount, Finite(VatPercent(countryVat) / 100.0))
    else Finite(0.0)
  }

  /** The VAT list is exactly the VAT-carrying kinds. */
  lemma VatListMatchesKinds(m: PaymentMethod)
    ensures Code(m) in VAT_APPLICABLE_CODES <==> VatApplies(m)
  {
  }

  /** Every code on the VAT list is also a code the fee switch supports. */
  lemma VatCodesAreSupported(code: string)
    requires code in VAT_APPLICABLE_CODES
    ensures code in SUPPORTED_CODES
    ensures Parse(code).Some? && VatApplies(Parse(code).value)
  {
  }

  /** Outside the VAT list the VAT is 0, whatever the amount (even NaN) and
      whatever the configured percentage. */
  lemma VatZeroOutsideList(amount: Num, m: PaymentMethod, countryVat: Num)
    requires !VatApplies(m)
    ensures CalculateVat(amount, Some(Code(m)), countryVat) == Finite(0.0)
  {
    VatListMatchesKinds(m);
  }

  /** On the VAT list the VAT is the configured percentage of the amount. */
  lemma VatOnList(amount: real, m: PaymentMethod, percent: real)
    requires VatApplies(m)
    ensures CalculateVat(Finite(amount), Some(Code(m)), Finite(percent)) == Finite(amount * (percent / 100.0))
  {
    VatListMatchesKinds(m);
  }

  /** An empty or unparseable VAT setting (NaN) counts as 0%. */
  lemma VatUnsetIsZero(amount: real, code: Option<string>)
    ensures CalculateVat(Finite(amount), code, NaN) == Finite(0.0)
  {
  }

  // ---------------------------------------------------------------------
  // Display names

  /** The `translations` table of `translatedPaymentMethod`. */
  const DISPLAY_NAMES: map<string, string> := map[
    "gopay" := "Gopay",
    "shopeepay" := "ShopeePay",
    "other_qris" := "QRIS Lainnya",
    "credit_card" := "Credit Card",
    "echannel" := "Bank Transfer (Mandiri)",
    "bri_va" := "BRI",
    "cimb_va" := "CIMB Niaga",
    "bni_va" := "BNI",
    "permata_va" := "Permata Bank",
    "other_va" := "Others Bank",
    "indomaret" := "Indomaret",
    "alfamart" := "Alfamart",
    "alfamidi" := "Alfamidi",
    "dan_dan" := "Dan Dan",
    "akulaku" := "Akulaku",
    "kredivo" := "Kredivo"
  ]

  /** The display name of each method. */
  function Name(m: PaymentMethod): string {
    match m
    case Gopay => "Gopay"
    case ShopeePay => "ShopeePay"
    case OtherQris => "QRIS Lainnya"
    case CreditCard => "Credit Card"
    case Echannel => "Bank Transfer (Mandiri)"
    case BriVa => "BRI"
    case CimbVa => "CIMB Niaga"
    case BniVa => "BNI"
    case PermataVa => "Permata Bank"
    case OtherVa => "Others Bank"
    case Indomaret => "Indomaret"
    case Alfamart => "Alfamart"
    case Alfamidi => "Alfamidi"
    case DanDan => "Dan Dan"
    case Akulaku => "Akulaku"
    case Kredivo => "Kredivo"
  }

  /** `translations[paymentMethod] || paymentMethod`: the table's name, or
      the code itself when the table has none (no entry is empty). */
  function DisplayName(code: string): (name: string)
    ensures code !in DISPLAY_NAMES ==> name == code
    ensures Parse(code).Some? ==> name == Name(Parse(code).value)
  {
    if code in DISPLAY_NAMES && DISPLAY_NAMES[code] != "" then DISPLAY_NAMES[code] else code
  }

  /** The table has an entry for exactly the supported codes. */
  lemma DisplayNamesCoverSupported()
    ensures DISPLAY_NAMES.Keys == set c | c in SUPPORTED_CODES
  {
  }

  /** Every supported code is displayed under its method's name. */
  lemma DisplayNameOfMethod(m: PaymentMethod)
    ensures DisplayName(Code(m)) == Name(m)
  {
  }

  /** A code the fee switch does not know is displayed unchanged. */
  lemma DisplayNameUnknown(code: string)
    requires Parse(code).None?
    ensures DisplayName(code) == code
  {
    DisplayNamesCoverSupported();
  }

  /** The name of the fee line in the item breakdown. */
  function FeeLineName(code: string): (name: string)
    ensures Parse(code).Some? ==> name == Name(Parse(code).value) + " Payment Fee"
    ensures code !in DISPLAY_NAMES ==> name == code + " Payment Fee"
  {
    DisplayName(code) + " Payment Fee"
  }
}
