/** The token request `getMidTransToken` sends to the payment gateway: its
    URL, its Basic authorization header and its JSON body. The network
    call itself, `btoa` and `Date.now()` are parameters. */
module GatewayClient {
  import opened JsValues
  import EnvironmentResolver

  /** One line of `item_details`. */
  datatype ItemDetail = ItemDetail(id: string, price: Num, quantity: nat, name: string)

  /** The JSON body: `transaction_details`, `customer_details`,
      `enabled_payments` and `item_details`. A missing form field is None
      (it is sent as null). */
  datatype TransactionRequest = TransactionRequest(
    orderId: string,
    grossAmount: Num,
    firstName: Option<string>,
    email: Option<string>,
    enabledPayments: seq<string>,
    itemDetails: seq<ItemDetail>)

  /** The POST the worker issues: endpoint, `Authorization` header, body. */
  datatype GatewayCall = GatewayCall(url: string, authorization: string, body: TransactionRequest)

  /** What the gateway call yields: the parsed reply's `token` field (None
      when the reply has none), or a transport or JSON failure. */
  datatype GatewayReply = Reply(token: Option<string>) | TransportFailure

  const ORDER_ID_PREFIX := "support-"

  /** `'support-' + Date.now()`. */
  function OrderId(now: nat): (id: string)
    ensures ORDER_ID_PREFIX <= id
  {
    ORDER_ID_PREFIX + DecimalString(now)
  }

  /** Order ids taken at different milliseconds differ; two attempts in the
      same millisecond get the same id. */
  lemma OrderIdUniquePerMillisecond(t1: nat, t2: nat)
    ensures OrderId(t1) == OrderId(t2) <==> t1 == t2
  {
    if t1 != t2 {
      DecimalInjective(t1, t2);
      var a, b := OrderId(t1), OrderId(t2);
      assert a[|ORDER_ID_PREFIX|..] == DecimalString(t1);
      assert b[|ORDER_ID_PREFIX|..] == DecimalString(t2);
    }
  }

  /** `'Basic ' + btoa(serverKey + ':')`, with `btoa` given. */
  function AuthHeader(serverKey: string, base64: string -> string): (h: string)
    ensures "Basic " <= h
    ensures h[|"Basic "|..] == base64(serverKey + ":")
  {
    "Basic " + base64(serverKey + ":")
  }

  /** With an injective encoding, the header identifies the server key:
      different keys give different headers. */
  lemma AuthHeaderIdentifiesKey(key1: string, key2: string, base64: string -> string)
    requires forall a, b :: base64(a) == base64(b) ==> a == b
    requires key1 != key2
    ensures AuthHeader(key1, base64) != AuthHeader(key2, base64)
  {
    assert key1 + ":" != key2 + ":" by {
      assert (key1 + ":")[..|key1|] == key1;
      assert (key2 + ":")[..|key2|] == key2;
    }
  }

  /** The sum the gateway checks against `gross_amount`: price times
      quantity over the lines, added up from the first line on. */
  function SumLineTotals(items: seq<ItemDetail>): Num
    decreases |items|
  {
    if items == [] then Finite(0.0)
    else
      var last := items[|items| - 1];
      Add(SumLineTotals(items[..|items| - 1]), Mul(last.price, Finite(last.quantity as real)))
  }

  /** The call `getMidTransToken(name, email, amount, paymentMethod,
      item_details)` makes, before it is sent. */
  function BuildCall(
    name: Option<string>, email: Option<string>, amount: Num, paymentMethod: string,
    items: seq<ItemDetail>, clientKey: string, serverKey: string,
    now: nat, base64: string -> string): (call: GatewayCall)
    ensures call.url == EnvironmentResolver.SANDBOX_TRANSACTION_URL
        <==> EnvironmentResolver.IsSandbox(clientKey, serverKey)
    ensures call.url == EnvironmentResolver.TransactionEnvironment(clientKey, serverKey)
    ensures "Basic " <= call.authorization
    ensures call.authorization == AuthHeader(serverKey, base64)
    ensures ORDER_ID_PREFIX <= call.body.orderId
    ensures call.body.orderId == OrderId(now)
    ensures call.body.grossAmount == amount && call.body.itemDetails == items
    ensures call.body.firstName == name && call.body.email == email
    ensures call.body.enabledPayments == [paymentMethod]
  {
    GatewayCall(
      EnvironmentResolver.TransactionEnvironment(clientKey, serverKey),
      AuthHeader(serverKey, base64),
      TransactionRequest(OrderId(now), amount, name, email, [paymentMethod], items))
  }
}
