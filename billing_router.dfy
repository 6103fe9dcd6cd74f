/** The `/billing` routes. `initiate_payment` starts a Paystack checkout or
    hands out a crypto deposit address; without a Paystack key it queues
    the provisioning task at once. The order id (a fresh UUID) and the
    Paystack API are parameters. */
module BillingRouter {
  import opened Common
  import opened Models
  import Paystack
  import ProvisioningService
  import ProvisioningTask

  /** `150000` kobo, the amount every checkout is opened for. */
  const AmountKobo := 150000
  const CallbackUrl := "http://localhost:3000/dashboard?payment=success"
  const BtcAddress := "bc1qxy2kgdygjrsqtzq2n0yrf2493p83kkfjhx0wlh"
  const EthAddress := "0x71C7656EC7ab88b098defB751B7401B5f6d8976F"
  const UsdtAddress := "TVc2C1iP9A6d7F3b3b3b3b3b3b3b3b3b3b"
  const InvalidCryptoType := "Invalid Crypto Type"

  /** The request body `PaymentInitiate`; `crypto_type` may be null. */
  datatype PaymentInitiate = PaymentInitiate(plan: string, paymentMethod: string, cryptoType: Option<string>)

  /** The two successful answers of `initiate_payment`. */
  datatype Initiated =
    | PaystackPending(paymentUrl: string, reference: string)
    | CryptoPending(walletAddress: string, amount: real, currency: string, orderId: string)

  /** The answer and the task queued by the call, if any. */
  datatype InitiateResult = InitiateResult(reply: Reply<Initiated>, queued: Option<ProvisioningTask.TaskArgs>)

  /** The operating system guessed from the plan name: Windows when the
      lower-cased plan mentions "server" or "basic", Linux otherwise. */
  function DetectOS(plan: string): (os: string)
    ensures os == "windows" <==> Contains(Lower(plan), "server") || Contains(Lower(plan), "basic")
    ensures os == "windows" || os == "linux"
  {
    var p := Lower(plan);
    if Contains(p, "server") || Contains(p, "basic") then "windows" else "linux"
  }

  /** The guess does not depend on the case of the plan name. */
  lemma DetectOSIgnoresCase(plan: string)
    ensures DetectOS(Lower(plan)) == DetectOS(plan)
  {
    LowerIdempotent(plan);
  }

  /** The guessed value is always one the task accepts, so a task queued
      here never fails on its operating system. */
  lemma DetectedOSParses(plan: string)
    ensures ProvisioningService.ParseOSType(DetectOS(plan)).Ok?
  {
  }

  /** The plan the dashboard deploys, "basic_windows", gets Windows. */
  lemma DashboardPlanGetsWindows()
    ensures DetectOS("basic_windows") == "windows"
  {
    DashboardPlanIsLowerCase();
    DashboardPlanStartsWithBasic();
  }

  lemma DashboardPlanIsLowerCase()
    ensures Lower("basic_windows") == "basic_windows"
  {
    LowerOfNoUpper("basic_windows");
  }

  lemma DashboardPlanStartsWithBasic()
    ensures OccursAt("basic_windows", "basic", 0)
  {
    assert "basic_windows"[0..5] == "basic";
  }

  /** The landing page's "basic" plan gets Windows. */
  lemma BasicPlanGetsWindows()
    ensures DetectOS("basic") == "windows"
  {
    LowerOfNoUpper("basic");
    assert OccursAt("basic", "basic", 0);
  }

  /** A word none of whose letters is the first letter of `sub` does not
      contain `sub`. */
  lemma NotContainsByFirstLetter(s: string, sub: string)
    requires |sub| > 0 && forall k :: 0 <= k < |s| ==> s[k] != sub[0]
    ensures !Contains(s, sub)
  {
    forall i | 0 <= i <= |s| - |sub| ensures !OccursAt(s, sub, i) {
      assert s[i..i + |sub|][0] == s[i];
    }
  }

  /** The landing page's "gpu" plan gets Linux. */
  lemma GpuPlanGetsLinux()
    ensures DetectOS("gpu") == "linux"
  {
    LowerOfNoUpper("gpu");
    NotContainsByFirstLetter("gpu", "server");
    NotContainsByFirstLetter("gpu", "basic");
  }

  /** `mock_addresses.get(crypto_type, "Invalid Crypto Type")`. */
  function DepositAddress(cryptoType: string): (a: string)
    ensures a != InvalidCryptoType <==> cryptoType in {"BTC", "ETH", "USDT"}
    ensures cryptoType == "BTC" ==> a == BtcAddress
    ensures cryptoType == "ETH" ==> a == EthAddress
    ensures cryptoType == "USDT" ==> a == UsdtAddress
  {
    if cryptoType == "BTC" then BtcAddress
    else if cryptoType == "ETH" then EthAddress
    else if cryptoType == "USDT" then UsdtAddress
    else InvalidCryptoType
  }

  /** `initiate_payment`. Paystack: open a checkout for the order and answer
      with its URL; when no Paystack key is configured, also queue the
      provisioning task for the order (development auto-provisioning). A
      checkout answer without `data` makes the route raise. Crypto: a
      crypto type is required, and the deposit address for it (or the
      invalid marker) is returned. Any other method is a 400. */
  function InitiatePayment(payment: PaymentInitiate, user: User, orderId: string, secretKey: Option<string>,
                           api: Paystack.InitRequest -> Paystack.InitResponse): (r: InitiateResult)
    ensures payment.paymentMethod != "paystack" && payment.paymentMethod != "crypto" ==>
              r == InitiateResult(HttpError(400, "Invalid payment method"), None)
    ensures payment.paymentMethod == "crypto" && !Truthy(payment.cryptoType) ==>
              r == InitiateResult(HttpError(400, "Crypto type is required for crypto payments"), None)
    ensures payment.paymentMethod == "crypto" && Truthy(payment.cryptoType) ==>
              var t := payment.cryptoType.value;
              r == InitiateResult(Body(CryptoPending(DepositAddress(t), 0.001, t, orderId)), None)
    ensures payment.paymentMethod == "paystack" ==>
              var response := Paystack.InitializeTransaction(secretKey, user.email, AmountKobo, orderId,
                                                             CallbackUrl, api);
              (r.queued.Some? <==> !Truthy(secretKey))
              && (r.queued.Some? ==>
                    r.queued.value == ProvisioningTask.TaskArgs(user.id, orderId, DetectOS(payment.plan),
                                                                payment.plan, user.email))
              && (response.data.Some? ==>
                    r.reply == Body(PaystackPending(response.data.value.authorizationUrl, orderId)))
              && (response.data.None? ==> r.reply.Unhandled?)
  {
    if payment.paymentMethod == "paystack" then
      var response := Paystack.InitializeTransaction(secretKey, user.email, AmountKobo, orderId, CallbackUrl, api);
      var queued :=
        if !Truthy(secretKey)
        then Some(ProvisioningTask.TaskArgs(user.id, orderId, DetectOS(payment.plan), payment.plan, user.email))
        else None;
      match response.data
      case None => InitiateResult(Unhandled("TypeError: 'NoneType' object is not subscriptable"), queued)
      case Some(data) => InitiateResult(Body(PaystackPending(data.authorizationUrl, orderId)), queued)
    else if payment.paymentMethod == "crypto" then
      if !Truthy(payment.cryptoType) then
        InitiateResult(HttpError(400, "Crypto type is required for crypto payments"), None)
      else
        var t := payment.cryptoType.value;
        InitiateResult(Body(CryptoPending(DepositAddress(t), 0.001, t, orderId)), None)
    else
      InitiateResult(HttpError(400, "Invalid payment method"), None)
  }

  /** Without a Paystack key, a Paystack payment always answers with the
      mock checkout, and the task it queues carries the very reference the
      client is given, for the client's own user and email. */
  lemma DevCheckoutQueuesTheReportedOrder(payment: PaymentInitiate, user: User, orderId: string,
                                          secretKey: Option<string>,
                                          api: Paystack.InitRequest -> Paystack.InitResponse)
    requires payment.paymentMethod == "paystack" && !Truthy(secretKey)
    ensures var r := InitiatePayment(payment, user, orderId, secretKey, api);
            r.reply.Body? && r.reply.value.PaystackPending? && r.queued.Some?
            && r.reply.value.paymentUrl == Paystack.MockAuthorizationUrl
            && r.queued.value.orderId == r.reply.value.reference
            && r.queued.value.userId == user.id && r.queued.value.userEmail == user.email
  {
  }

  /** `paystack_webhook` of this router: a stub that acknowledges every
      request. */
  function BillingWebhook(body: seq<byte>): (r: Reply<string>)
    ensures r == Body("received")
  {
    Body("received")
  }
}
