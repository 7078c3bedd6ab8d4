/** Which gateway deployment the worker talks to. Both the checkout script
    URL (used by the form page) and the transaction endpoint (used by the
    token request) are chosen from the same credential pair. */
module EnvironmentResolver {

  datatype Environment = Sandbox | Production

  const SANDBOX_PREFIX := "SB-"

  const SANDBOX_SNAP_URL := "https://app.sandbox.midtrans.com/snap/snap.js"
  const PRODUCTION_SNAP_URL := "https://app.midtrans.com/snap/snap.js"
  const SANDBOX_TRANSACTION_URL := "https://app.sandbox.midtrans.com/snap/v1/transactions"
  const PRODUCTION_TRANSACTION_URL := "https://app.midtrans.com/snap/v1/transactions"

  /** `s.startsWith(prefix)`. */
  predicate StartsWith(s: string, prefix: string) {
    prefix <= s
  }

  /** `isSandbox`: both keys carry the sandbox prefix. */
  predicate IsSandbox(clientKey: string, serverKey: string) {
    StartsWith(clientKey, SANDBOX_PREFIX) && StartsWith(serverKey, SANDBOX_PREFIX)
  }

  /** `getSnapEnvironment()`: the checkout script URL. */
  function SnapEnvironment(clientKey: string, serverKey: string): (url: string)
    ensures url == SANDBOX_SNAP_URL <==> IsSandbox(clientKey, serverKey)
    ensures url == PRODUCTION_SNAP_URL <==> !IsSandbox(clientKey, serverKey)
  {
    if IsSandbox(clientKey, serverKey) then SANDBOX_SNAP_URL else PRODUCTION_SNAP_URL
  }

  /** `getTransactionEnvironment()`: the token request endpoint. */
  function TransactionEnvironment(clientKey: string, serverKey: string): (url: string)
    ensures url == SANDBOX_TRANSACTION_URL <==> IsSandbox(clientKey, serverKey)
    ensures url == PRODUCTION_TRANSACTION_URL <==> !IsSandbox(clientKey, serverKey)
  {
    if IsSandbox(clientKey, serverKey) then SANDBOX_TRANSACTION_URL else PRODUCTION_TRANSACTION_URL
  }

  const SANDBOX_HOST := "https://app.sandbox.midtrans.com/"

  /** The environment a URL belongs to: sandbox URLs are on the sandbox host. */
  function HostEnvironment(url: string): Environment {
    if SANDBOX_HOST <= url then Sandbox else Production
  }

  lemma HostsOfUrls()
    ensures HostEnvironment(SANDBOX_SNAP_URL) == Sandbox
    ensures HostEnvironment(SANDBOX_TRANSACTION_URL) == Sandbox
    ensures HostEnvironment(PRODUCTION_SNAP_URL) == Production
    ensures HostEnvironment(PRODUCTION_TRANSACTION_URL) == Production
  {
    assert PRODUCTION_SNAP_URL[12] != SANDBOX_HOST[12];
    assert PRODUCTION_TRANSACTION_URL[12] != SANDBOX_HOST[12];
  }

  /** The form page and the token request always use the same environment. */
  lemma EnvironmentsAgree(clientKey: string, serverKey: string)
    ensures HostEnvironment(SnapEnvironment(clientKey, serverKey))
         == HostEnvironment(TransactionEnvironment(clientKey, serverKey))
    ensures HostEnvironment(SnapEnvironment(clientKey, serverKey)) == Sandbox
        <==> IsSandbox(clientKey, serverKey)
  {
    HostsOfUrls();
  }

  /** A mixed pair is not rejected: it silently selects production. */
  lemma MixedPairIsProduction(clientKey: string, serverKey: string)
    requires StartsWith(clientKey, SANDBOX_PREFIX) != StartsWith(serverKey, SANDBOX_PREFIX)
    ensures SnapEnvironment(clientKey, serverKey) == PRODUCTION_SNAP_URL
    ensures TransactionEnvironment(clientKey, serverKey) == PRODUCTION_TRANSACTION_URL
  {
  }
}
