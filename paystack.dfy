/** `PaystackService`. With no secret key every call answers with a
    development stand-in; with a key, calls go to the Paystack API, which is
    a parameter here (`api`), and webhook signatures are checked with
    HMAC-SHA512 (RFC 2104), a parameter `hmacHex` giving the lowercase hex
    digest of a payload under the UTF-8 bytes of a key. */
module Paystack {
  import opened Common

  /** The arguments `Transaction.initialize` receives. */
  datatype InitRequest = InitRequest(reference: string, email: string, amount: int, callbackUrl: string)

  datatype InitData = InitData(authorizationUrl: string, accessCode: string, reference: string)

  /** The answer of `initialize_transaction`; `data` is null on an API
      failure. */
  datatype InitResponse = InitResponse(status: bool, message: string, data: Option<InitData>)

  datatype VerifyData = VerifyData(status: string, reference: string, amount: int)

  datatype VerifyResponse = VerifyResponse(status: bool, data: Option<VerifyData>)

  const MockAuthorizationUrl := "https://checkout.paystack.com/mock-transaction"

  /** `initialize_transaction`: without a key, an authorization URL for a
      mock checkout that echoes the reference; with a key, the API's answer
      to the same four arguments. */
  function InitializeTransaction(secretKey: Option<string>, email: string, amountKobo: int, reference: string,
                                 callbackUrl: string, api: InitRequest -> InitResponse): (r: InitResponse)
    ensures !Truthy(secretKey) ==>
              r.status && r.data.Some? && r.data.value.reference == reference
              && r.data.value.authorizationUrl == MockAuthorizationUrl
    ensures Truthy(secretKey) ==> r == api(InitRequest(reference, email, amountKobo, callbackUrl))
  {
    if !Truthy(secretKey) then
      InitResponse(true, "Authorization URL created",
                   Some(InitData(MockAuthorizationUrl, "mock-access-code", reference)))
    else
      api(InitRequest(reference, email, amountKobo, callbackUrl))
  }

  /** `verify_transaction`: without a key, a successful payment of the
      reference; with a key, the API's answer. */
  function VerifyTransaction(secretKey: Option<string>, reference: string, api: string -> VerifyResponse)
    : (r: VerifyResponse)
    ensures !Truthy(secretKey) ==>
              r.status && r.data.Some? && r.data.value.status == "success" && r.data.value.reference == reference
    ensures Truthy(secretKey) ==> r == api(reference)
  {
    if !Truthy(secretKey) then VerifyResponse(true, Some(VerifyData("success", reference, 100000)))
    else api(reference)
  }

  /** `verify_webhook_signature`: every signature passes without a key;
      with one, the signature must equal the hex digest of the payload. */
  function VerifyWebhookSignature(secretKey: Option<string>, signature: string, payload: seq<byte>,
                                  hmacHex: (string, seq<byte>) -> string): (ok: bool)
    ensures !Truthy(secretKey) ==> ok
    ensures Truthy(secretKey) ==> (ok <==> signature == hmacHex(secretKey.value, payload))
  {
    if !Truthy(secretKey) then true
    else hmacHex(secretKey.value, payload) == signature
  }

  /** With a key, a signature that passes for a payload is that payload's
      digest, so two different digests cannot both pass for one payload. */
  lemma SignatureIsUnique(key: string, s1: string, s2: string, payload: seq<byte>,
                          hmacHex: (string, seq<byte>) -> string)
    requires key != ""
    requires VerifyWebhookSignature(Some(key), s1, payload, hmacHex)
    requires VerifyWebhookSignature(Some(key), s2, payload, hmacHex)
    ensures s1 == s2
  {
  }
}
