/** `handleRequest`: GET renders the form, POST runs the optional reCAPTCHA
    gate, computes fee, VAT and total, builds the three-line item breakdown
    and asks the gateway for a token. Every outside effect (the reCAPTCHA
    check, the gateway call, `btoa`, the clock) is a parameter. */
module RequestRouter {
  import opened JsValues
  import opened FeePolicy
  import opened GatewayClient
  import EnvironmentResolver

  /** The worker's static settings that the pipeline reads. `captchaScore`
      is None when the setting is blank and otherwise the setting read as a
      number; `countryVat` is `parseFloat` of `countryVatText`. */
  datatype Config = Config(
    clientKey: string,
    serverKey: string,
    siteKey: string,
    secretKey: string,
    captchaScore: Option<Num>,
    countryVatText: string,
    countryVat: Num)

  /** The posted form. Fields that are missing are None; `amount` is
      `parseFloat` of the posted text. */
  datatype FormPost = FormPost(
    name: Option<string>,
    email: Option<string>,
    amount: Num,
    paymentMethod: Option<string>,
    recaptchaToken: Option<string>)

  /** What the reCAPTCHA check is sent: the secret and the client's token. */
  datatype CaptchaQuery = CaptchaQuery(secret: string, response: Option<string>)

  /** What it answers; a missing score is NaN. */
  datatype CaptchaResult = CaptchaResult(success: bool, score: Num)

  /** How a request ends. */
  datatype Response =
    | FormPage(snapScriptUrl: string)                 // GET: the HTML form
    | Forbidden(status: nat, body: string)            // reCAPTCHA rejected
    | ChargeFailure(error: FeeError)                  // calculateFee threw
    | GatewayFailure(call: GatewayCall)               // the gateway call threw
    | TokenJson(call: GatewayCall, token: Option<string>)  // JSON `{ token }`
    | NoResponse                                      // neither GET nor POST

  const CAPTCHA_REJECTED_MESSAGE := "reCAPTCHA verification score too low"

  const DEFAULT_CAPTCHA_SCORE := 0.5

  /** `ENV.reCAPTCHA_SiteKey && ENV.reCAPTCHA_SecretKey`. */
  predicate CaptchaEnabled(cfg: Config) {
    cfg.siteKey != "" && cfg.secretKey != ""
  }

  /** `ENV.reCAPTCHA_Score || 0.5`. */
  function CaptchaThreshold(score: Option<Num>): Num {
    if score.Some? then score.value else Finite(DEFAULT_CAPTCHA_SCORE)
  }

  /** `!recaptchaResult.success || recaptchaResult.score < threshold`. */
  predicate CaptchaRejects(result: CaptchaResult, score: Option<Num>) {
    !result.success || Less(result.score, CaptchaThreshold(score))
  }

  /** `amount + fee + vat`, added left to right. */
  function Gross(amount: Num, fee: Num, vat: Num): (total: Num)
    ensures total.Finite? <==> amount.Finite? && fee.Finite? && vat.Finite?
    ensures total.Finite? ==> total.value == amount.value + fee.value + vat.value
  {
    Add(Add(amount, fee), vat)
  }

  /** `item_details`: donation, fee and VAT lines, in that order. */
  function Breakdown(amount: Num, fee: Num, vat: Num, feeName: string, vatName: string): (items: seq<ItemDetail>)
    ensures |items| == 3
    ensures [items[0].id, items[1].id, items[2].id] == ["donation", "fee", "vat"]
    ensures [items[0].price, items[1].price, items[2].price] == [amount, fee, vat]
    ensures forall i :: 0 <= i < |items| ==> items[i].quantity == 1
  {
    [ ItemDetail("donation", amount, 1, "Donation Amount"),
      ItemDetail("fee", fee, 1, feeName),
      ItemDetail("vat", vat, 1, vatName) ]
  }

  /** The line totals of the breakdown add up to the gross amount, NaN
      included. */
  lemma BreakdownSumsToGross(amount: Num, fee: Num, vat: Num, feeName: string, vatName: string)
    ensures SumLineTotals(Breakdown(amount, fee, vat, feeName, vatName)) == Gross(amount, fee, vat)
  {
    var items := Breakdown(amount, fee, vat, feeName, vatName);
    assert items[..2][..1][..0] == [];
    assert SumLineTotals(items[..1]) == amount by {
      AddZeroLeft(Mul(amount, Finite(1.0)));
      MulOne(amount);
    }
    MulOne(fee);
    MulOne(vat);
    assert items[..2][..1] == items[..1];
  }

  /** The POST branch once the reCAPTCHA gate has passed. */
  function Charge(
    form: FormPost, cfg: Config, now: nat,
    base64: string -> string, gateway: GatewayCall -> GatewayReply): (r: Response)
    ensures r.ChargeFailure? <==> ParseField(form.paymentMethod).None?
    ensures r.ChargeFailure? ==> r.error == UnsupportedPaymentMethod(form.paymentMethod)
    ensures r.ChargeFailure? || r.GatewayFailure? || r.TokenJson?
    ensures r.TokenJson? ==> gateway(r.call) == Reply(r.token)
    ensures r.GatewayFailure? ==> gateway(r.call) == TransportFailure
    ensures !r.ChargeFailure? ==>
              r.call.body.enabledPayments == [form.paymentMethod.value]
              && r.call.body.grossAmount == SumLineTotals(r.call.body.itemDetails)
  {
    match CalculateFee(form.amount, form.paymentMethod)
    case Failure(e) => ChargeFailure(e)
    case Success(fee) =>
      var code := form.paymentMethod.value;
      var vat := CalculateVat(form.amount, form.paymentMethod, cfg.countryVat);
      var items := Breakdown(form.amount, fee, vat, FeeLineName(code), "VAT " + cfg.countryVatText + "%");
      var call := BuildCall(form.name, form.email, Gross(form.amount, fee, vat), code,
                            items, cfg.clientKey, cfg.serverKey, now, base64);
      BreakdownSumsToGross(form.amount, fee, vat, FeeLineName(code), "VAT " + cfg.countryVatText + "%");
      match gateway(call)
      case TransportFailure => GatewayFailure(call)
      case Reply(token) => TokenJson(call, token)
  }

  /** `handleRequest(request)`. */
  function HandleRequest(
    httpMethod: string, form: FormPost, cfg: Config, now: nat,
    verify: CaptchaQuery -> CaptchaResult,
    base64: string -> string, gateway: GatewayCall -> GatewayReply): (r: Response)
    ensures r.FormPage? <==> httpMethod == "GET"
    ensures r.NoResponse? <==> httpMethod != "GET" && httpMethod != "POST"
    ensures r.Forbidden? ==> httpMethod == "POST" && CaptchaEnabled(cfg) && r.status == 403
    ensures r.TokenJson? ==> gateway(r.call) == Reply(r.token)
  {
    if httpMethod == "GET" then
      FormPage(EnvironmentResolver.SnapEnvironment(cfg.clientKey, cfg.serverKey))
    else if httpMethod == "POST" then
      if CaptchaEnabled(cfg) && CaptchaRejects(verify(CaptchaQuery(cfg.secretKey, form.recaptchaToken)), cfg.captchaScore)
      then Forbidden(403, CAPTCHA_REJECTED_MESSAGE)
      else Charge(form, cfg, now, base64, gateway)
    else
      NoResponse
  }

  // ---------------------------------------------------------------------
  // Routing

  /** GET renders the form with the checkout script of the environment the
      credentials select. */
  lemma GetRendersForm(
    form: FormPost, cfg: Config, now: nat, verify: CaptchaQuery -> CaptchaResult,
    base64: string -> string, gateway: GatewayCall -> GatewayReply)
    ensures HandleRequest("GET", form, cfg, now, verify, base64, gateway).FormPage?
    ensures HandleRequest("GET", form, cfg, now, verify, base64, gateway).snapScriptUrl
            == EnvironmentResolver.SANDBOX_SNAP_URL
        <==> EnvironmentResolver.IsSandbox(cfg.clientKey, cfg.serverKey)
  {
  }

  /** Any method but GET and POST falls through and yields nothing. */
  lemma OtherMethodsUnhandled(
    httpMethod: string, form: FormPost, cfg: Config, now: nat, verify: CaptchaQuery -> CaptchaResult,
    base64: string -> string, gateway: GatewayCall -> GatewayReply)
    requires httpMethod != "GET" && httpMethod != "POST"
    ensures HandleRequest(httpMethod, form, cfg, now, verify, base64, gateway) == NoResponse
  {
  }

  // ---------------------------------------------------------------------
  // The reCAPTCHA gate

  /** With both keys set, a POST is refused with 403 exactly when the check
      fails or scores below the threshold; a refusal happens before any fee
      is computed, so it does not depend on the form's amount or method. */
  lemma CaptchaGate(
    form: FormPost, cfg: Config, now: nat, verify: CaptchaQuery -> CaptchaResult,
    base64: string -> string, gateway: GatewayCall -> GatewayReply)
    requires CaptchaEnabled(cfg)
    ensures var r := HandleRequest("POST", form, cfg, now, verify, base64, gateway);
            var answer := verify(CaptchaQuery(cfg.secretKey, form.recaptchaToken));
            r.Forbidden? <==> (!answer.success || Less(answer.score, CaptchaThreshold(cfg.captchaScore)))
    ensures var r := HandleRequest("POST", form, cfg, now, verify, base64, gateway);
            r.Forbidden? ==>
              (r == Forbidden(403, CAPTCHA_REJECTED_MESSAGE)
               && r == HandleRequest("POST", form.(amount := NaN, paymentMethod := None), cfg, now, verify, base64, gateway))
  {
  }

  /** A blank score setting means a threshold of 0.5. */
  lemma DefaultThreshold(result: CaptchaResult)
    ensures CaptchaRejects(result, None)
        <==> !result.success || (result.score.Finite? && result.score.value < 0.5)
  {
  }

  /** A success with no score (NaN) is never refused on score. */
  lemma MissingScorePasses(score: Option<Num>)
    ensures !CaptchaRejects(CaptchaResult(true, NaN), score)
  {
  }

  /** Without both keys no check is made: the outcome is the same whatever
      the check would have answered, and never a 403. */
  lemma CaptchaSkippedWhenUnconfigured(
    form: FormPost, cfg: Config, now: nat,
    verify1: CaptchaQuery -> CaptchaResult, verify2: CaptchaQuery -> CaptchaResult,
    base64: string -> string, gateway: GatewayCall -> GatewayReply)
    requires !CaptchaEnabled(cfg)
    ensures HandleRequest("POST", form, cfg, now, verify1, base64, gateway)
         == HandleRequest("POST", form, cfg, now, verify2, base64, gateway)
    ensures !HandleRequest("POST", form, cfg, now, verify1, base64, gateway).Forbidden?
  {
  }

  // ---------------------------------------------------------------------
  // Charging

  /** Past the gate, a missing or unsupported method ends in the
      unsupported-method error, and the gateway is never consulted. */
  lemma UnsupportedMethodFails(
    form: FormPost, cfg: Config, now: nat, verify: CaptchaQuery -> CaptchaResult,
    base64: string -> string, gateway1: GatewayCall -> GatewayReply, gateway2: GatewayCall -> GatewayReply)
    requires !CaptchaEnabled(cfg) || !CaptchaRejects(verify(CaptchaQuery(cfg.secretKey, form.recaptchaToken)), cfg.captchaScore)
    requires ParseField(form.paymentMethod).None?
    ensures HandleRequest("POST", form, cfg, now, verify, base64, gateway1)
         == ChargeFailure(UnsupportedPaymentMethod(form.paymentMethod))
    ensures HandleRequest("POST", form, cfg, now, verify, base64, gateway1)
         == HandleRequest("POST", form, cfg, now, verify, base64, gateway2)
  {
  }

  /** Past the gate with a supported method, the gateway is called once:
      at the environment's endpoint, with the Basic header, a "support-"
      order id, the posted name and email, and only that method enabled. */
  lemma ChargeCallTarget(
    form: FormPost, cfg: Config, now: nat, verify: CaptchaQuery -> CaptchaResult,
    base64: string -> string, gateway: GatewayCall -> GatewayReply, m: PaymentMethod)
    requires !CaptchaEnabled(cfg) || !CaptchaRejects(verify(CaptchaQuery(cfg.secretKey, form.recaptchaToken)), cfg.captchaScore)
    requires form.paymentMethod == Some(Code(m))
    ensures var r := HandleRequest("POST", form, cfg, now, verify, base64, gateway);
            (r.GatewayFailure? || r.TokenJson?)
            && r.call.url == EnvironmentResolver.TransactionEnvironment(cfg.clientKey, cfg.serverKey)
            && r.call.authorization == AuthHeader(cfg.serverKey, base64)
            && r.call.body.orderId == OrderId(now)
            && r.call.body.firstName == form.name && r.call.body.email == form.email
            && r.call.body.enabledPayments == [Code(m)]
  {
    ParseCode(m);
  }

  /** The gateway's answer is relayed as it is: its token when it replied,
      a failure when the call failed. */
  lemma ChargeTokenRelayed(
    form: FormPost, cfg: Config, now: nat, verify: CaptchaQuery -> CaptchaResult,
    base64: string -> string, gateway: GatewayCall -> GatewayReply, m: PaymentMethod)
    requires !CaptchaEnabled(cfg) || !CaptchaRejects(verify(CaptchaQuery(cfg.secretKey, form.recaptchaToken)), cfg.captchaScore)
    requires form.paymentMethod == Some(Code(m))
    ensures var r := HandleRequest("POST", form, cfg, now, verify, base64, gateway);
            (r.TokenJson? <==> gateway(r.call).Reply?)
            && (r.TokenJson? ==> r.token == gateway(r.call).token)
            && (r.GatewayFailure? <==> gateway(r.call).TransportFailure?)
  {
    ParseCode(m);
  }

  /** The body of that call carries the lines donation, fee and VAT, each
      of quantity 1, priced amount, the method's fee and the VAT (the VAT
      line is kept when the VAT is 0), the fee line named after the
      method's display name, and a gross amount equal to both
      `amount + fee + vat` and the sum of the lines. */
  lemma ChargeBreakdown(
    form: FormPost, cfg: Config, now: nat, verify: CaptchaQuery -> CaptchaResult,
    base64: string -> string, gateway: GatewayCall -> GatewayReply, m: PaymentMethod)
    requires !CaptchaEnabled(cfg) || !CaptchaRejects(verify(CaptchaQuery(cfg.secretKey, form.recaptchaToken)), cfg.captchaScore)
    requires form.paymentMethod == Some(Code(m))
    ensures var r := HandleRequest("POST", form, cfg, now, verify, base64, gateway);
            var fee := ApplyRule(RuleOf(m), form.amount);
            var vat := if VatApplies(m) then Mul(form.amount, Finite(VatPercent(cfg.countryVat) / 100.0)) else Finite(0.0);
            (r.GatewayFailure? || r.TokenJson?)
            && r.call.body.itemDetails == [
                 ItemDetail("donation", form.amount, 1, "Donation Amount"),
                 ItemDetail("fee", fee, 1, Name(m) + " Payment Fee"),
                 ItemDetail("vat", vat, 1, "VAT " + cfg.countryVatText + "%")]
            && r.call.body.grossAmount == Add(Add(form.amount, fee), vat)
            && r.call.body.grossAmount == SumLineTotals(r.call.body.itemDetails)
  {
    ParseCode(m);
    DisplayNameOfMethod(m);
    VatListMatchesKinds(m);
    var fee := ApplyRule(RuleOf(m), form.amount);
    var vat := CalculateVat(form.amount, form.paymentMethod, cfg.countryVat);
    BreakdownSumsToGross(form.amount, fee, vat, FeeLineName(Code(m)), "VAT " + cfg.countryVatText + "%");
  }

  // ---------------------------------------------------------------------
  // Worked examples

  function ExampleConfig(vat: Num): Config {
    Config("SB-Mid-client-1", "SB-Mid-server-1", "", "", None, "10", vat)
  }

  /** 50000 through BNI virtual account at 10% VAT: fee 4000, VAT 5000,
      gross 59000. */
  lemma BniVaExample(now: nat, verify: CaptchaQuery -> CaptchaResult,
    base64: string -> string, gateway: GatewayCall -> GatewayReply)
    ensures var r := HandleRequest("POST", FormPost(None, None, Finite(50000.0), Some("bni_va"), None),
                                   ExampleConfig(Finite(10.0)), now, verify, base64, gateway);
            r.call.body.grossAmount == Finite(59000.0)
            && r.call.body.itemDetails[1].price == Finite(4000.0)
            && r.call.body.itemDetails[2].price == Finite(5000.0)
  {
    ChargeBreakdown(FormPost(None, None, Finite(50000.0), Some("bni_va"), None), ExampleConfig(Finite(10.0)),
                    now, verify, base64, gateway, BniVa);
  }

  /** 5000 through GoPay without reCAPTCHA: fee 100, VAT 0, gross 5100, and
      the gateway's token comes back as it was. */
  lemma GopayExample(now: nat, verify: CaptchaQuery -> CaptchaResult,
    base64: string -> string, gateway: GatewayCall -> GatewayReply)
    ensures var r := HandleRequest("POST", FormPost(Some("Ann"), Some("ann@example.com"), Finite(5000.0), Some("gopay"), None),
                                   ExampleConfig(Finite(10.0)), now, verify, base64, gateway);
            r.call.body.grossAmount == Finite(5100.0)
            && r.call.body.itemDetails[1].price == Finite(100.0)
            && r.call.body.itemDetails[2].price == Finite(0.0)
            && (gateway(r.call).Reply? ==> r == TokenJson(r.call, gateway(r.call).token))
  {
    var form := FormPost(Some("Ann"), Some("ann@example.com"), Finite(5000.0), Some("gopay"), None);
    ChargeBreakdown(form, ExampleConfig(Finite(10.0)), now, verify, base64, gateway, Gopay);
    ChargeTokenRelayed(form, ExampleConfig(Finite(10.0)), now, verify, base64, gateway, Gopay);
  }
}
