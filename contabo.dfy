/** The Contabo client that creates, reboots and deletes Linux servers. It
    caches an OAuth2 access token (the client-credentials grant of section
    4.4 of RFC 6749), obtained with an HTTP Basic credential (section 2 of
    RFC 7617). Every HTTP answer is a parameter; `tokenReply` is what the
    token endpoint would answer if asked. */
module Contabo {
  import opened Common
  import Base64

  const MockIp := "10.0.0.5"
  const MockPassword := "MockPassword123!"
  const LinuxUser := "ubuntu"
  const TokenError := "Failed to get Contabo access token"

  /** Python's `f"{value}"` for a setting that may be `None`. */
  function PyStr(v: Option<string>): string
  {
    if v.Some? then v.value else "None"
  }

  /** The `Authorization` header of the token request: "Basic " and the
      base64 of the ASCII bytes of "client_id:client_secret". `None` when
      the string is not ASCII (Python raises before any request). */
  function BasicAuthorization(clientId: string, clientSecret: string): (r: Option<string>)
    ensures r.Some? <==> Base64.AsciiEncode(clientId + ":" + clientSecret).Some?
    ensures r.Some? ==> (|r.value| >= 6 && r.value[..6] == "Basic " &&
                         Base64.Decode(r.value[6..]) == Base64.AsciiEncode(clientId + ":" + clientSecret))
  {
    match Base64.AsciiEncode(clientId + ":" + clientSecret)
    case None => None
    case Some(bytes) =>
      Base64.RoundTrip(bytes);
      var h := "Basic " + Base64.Encode(bytes);
      assert h[6..] == Base64.Encode(bytes);
      Some(h)
  }

  /** The receiving side of section 2 of RFC 7617: the user-id is the text
      before the first colon of the decoded credential. For a client id
      without a colon, that is the client id. */
  lemma BasicCredentialCarriesClientId(clientId: string, clientSecret: string)
    requires ':' !in clientId
    requires BasicAuthorization(clientId, clientSecret).Some?
    ensures var decoded := Base64.Decode(BasicAuthorization(clientId, clientSecret).value[6..]);
            decoded.Some? && |decoded.value| > |clientId| &&
            (forall k :: 0 <= k < |decoded.value| ==> decoded.value[k] < 128) &&
            var text := Base64.AsciiDecode(decoded.value);
            text[..|clientId|] == clientId && text[|clientId|] == ':' && text[|clientId| + 1..] == clientSecret
  {
    var s := clientId + ":" + clientSecret;
    Base64.AsciiRoundTrip(s);
    assert s[..|clientId|] == clientId && s[|clientId| + 1..] == clientSecret;
  }

  /** The form body of the token request. */
  datatype TokenRequest = TokenRequest(authorization: string, grantType: string)

  /** The answer of the token endpoint: status and `access_token`. */
  datatype TokenReply = TokenReply(status: int, accessToken: string)

  /** What `_wait_for_linux_ready` returns for a created server: Contabo
      assigns the address later, so the record stays "provisioning". */
  function PendingServer(instanceId: string): (r: ServerDetails)
    ensures r.providerId == instanceId && r.ipAddress == "Pending"
    ensures r.status == "provisioning" && r.username == LinuxUser
  {
    ServerDetails(instanceId, "Pending", LinuxUser, "CheckEmailOrReset", "provisioning")
  }

  /** The development stand-in returned when a credential is missing. */
  function MockServer(orderId: string): (r: ServerDetails)
    ensures r.providerId == "mock-contabo-" + orderId
    ensures r.username == LinuxUser && r.status == "active"
  {
    ServerDetails("mock-contabo-" + orderId, MockIp, LinuxUser, MockPassword, "active")
  }

  class ContaboProvider {
    const clientId: Option<string>
    const clientSecret: Option<string>
    var token: Option<string>

    constructor (clientId: Option<string>, clientSecret: Option<string>)
      ensures this.clientId == clientId && this.clientSecret == clientSecret
      ensures token == None
    {
      this.clientId := clientId;
      this.clientSecret := clientSecret;
      token := None;
    }

    /** `get_access_token`: sends the Basic credential with the
        client-credentials grant; a 200 answer caches and returns the token,
        any other status raises. `sent` is the request issued, if any. */
    method GetAccessToken(reply: TokenReply) returns (r: Result<string>, sent: Option<TokenRequest>)
      modifies this
      ensures var auth := BasicAuthorization(PyStr(clientId), PyStr(clientSecret));
              sent == (if auth.Some? then Some(TokenRequest(auth.value, "client_credentials")) else None)
      ensures sent.Some? && reply.status == 200 ==>
                r == Ok(reply.accessToken) && token == Some(reply.accessToken)
      ensures sent.Some? && reply.status != 200 ==> r == Err(TokenError) && token == old(token)
      ensures sent.None? ==> r == Err("UnicodeEncodeError") && token == old(token)
    {
      var auth := BasicAuthorization(PyStr(clientId), PyStr(clientSecret));
      if auth.None? {
        return Err("UnicodeEncodeError"), None;
      }
      sent := Some(TokenRequest(auth.value, "client_credentials"));
      if reply.status == 200 {
        token := Some(reply.accessToken);
        r := Ok(reply.accessToken);
      } else {
        r := Err(TokenError);
      }
    }

    /** Whether the token endpoint grants a token: the credential string
        is ASCII and the endpoint answers 200. */
    predicate TokenGranted(reply: TokenReply)
    {
      BasicAuthorization(PyStr(clientId), PyStr(clientSecret)).Some? && reply.status == 200
    }

    /** The exception a refused token request raises: the credential
        string is not ASCII, or the endpoint answered another status. */
    function TokenFailure(): (e: string)
      ensures e == "UnicodeEncodeError" <==> BasicAuthorization(PyStr(clientId), PyStr(clientSecret)).None?
      ensures e == TokenError <==> BasicAuthorization(PyStr(clientId), PyStr(clientSecret)).Some?
    {
      if BasicAuthorization(PyStr(clientId), PyStr(clientSecret)).None? then "UnicodeEncodeError" else TokenError
    }

    /** The cache after an operation that needs a token: a cached (truthy)
        token is kept, an empty cache takes the granted token, and a refused
        request leaves it as it was. */
    function TokenAfter(cached: Option<string>, reply: TokenReply): (t: Option<string>)
      ensures Truthy(cached) ==> t == cached
      ensures !Truthy(cached) ==> t == (if TokenGranted(reply) then Some(reply.accessToken) else cached)
    {
      if Truthy(cached) || !TokenGranted(reply) then cached else Some(reply.accessToken)
    }

    /** Two operations in a row ask for at most one token: once a non-empty
        token has been granted, the next operation finds it cached and keeps
        it whatever the endpoint would answer. An empty `access_token` is
        falsy, so it would be requested again. */
    lemma AtMostOneTokenRequest(cached: Option<string>, first: TokenReply, second: TokenReply)
      requires !Truthy(cached) ==> TokenGranted(first) && first.accessToken != ""
      ensures Truthy(TokenAfter(cached, first))
      ensures TokenAfter(TokenAfter(cached, first), second) == TokenAfter(cached, first)
    {
    }

    /** `if not self.token: await self.get_access_token()`. */
    method EnsureToken(reply: TokenReply) returns (r: Result<string>, requested: bool)
      modifies this
      ensures requested <==> !Truthy(old(token))
      ensures !requested ==> token == old(token) && Truthy(token) && r == Ok(token.value)
      ensures r.Ok? <==> !requested || TokenGranted(reply)
      ensures r.Ok? ==> token == Some(r.value)
      ensures r.Err? ==> token == old(token) && r == Err(TokenFailure())
      ensures requested && r.Ok? ==> r.value == reply.accessToken
      ensures token == TokenAfter(old(token), reply)
    {
      requested := !Truthy(token);
      if requested {
        var sent;
        r, sent := GetAccessToken(reply);
      } else {
        r := Ok(token.value);
      }
    }

    /** `create_linux_instance`: the mock when either credential is missing;
        otherwise a token if none is cached, then the create POST, which
        must answer 201. */
    method CreateLinuxInstance(orderId: string, tokenReply: TokenReply, createStatus: int,
                               createdId: string, errorText: string)
      returns (r: Result<ServerDetails>, tokenRequested: bool)
      modifies this
      ensures !Truthy(clientId) || !Truthy(clientSecret) ==>
                r == Ok(MockServer(orderId)) && !tokenRequested && token == old(token)
      ensures Truthy(clientId) && Truthy(clientSecret) ==> (tokenRequested <==> !Truthy(old(token)))
      ensures Truthy(clientId) && Truthy(clientSecret) && tokenRequested && !TokenGranted(tokenReply) ==>
                r == Err(TokenFailure())
      ensures Truthy(clientId) && Truthy(clientSecret) ==> token == TokenAfter(old(token), tokenReply)
      ensures Truthy(clientId) && Truthy(clientSecret) && tokenRequested && TokenGranted(tokenReply) ==>
                token == Some(tokenReply.accessToken)
      ensures Truthy(clientId) && Truthy(clientSecret) && !tokenRequested ==> token == old(token)
      ensures Truthy(clientId) && Truthy(clientSecret) && (!tokenRequested || TokenGranted(tokenReply)) ==>
                r == (if createStatus == 201 then Ok(PendingServer(createdId))
                      else Err("Contabo API error: " + errorText))
    {
      if !Truthy(clientId) || !Truthy(clientSecret) {
        return Ok(MockServer(orderId)), false;
      }
      var t;
      t, tokenRequested := EnsureToken(tokenReply);
      if t.Err? {
        return Err(t.error), tokenRequested;
      }
      if createStatus == 201 {
        r := Ok(PendingServer(createdId));
      } else {
        r := Err("Contabo API error: " + errorText);
      }
    }

    /** `reboot_instance`: true when no client id is set; otherwise a token
        if none is cached, then whether the restart POST answered 201. */
    method RebootInstance(tokenReply: TokenReply, status: int) returns (r: Result<bool>, tokenRequested: bool)
      modifies this
      ensures !Truthy(clientId) ==> r == Ok(true) && !tokenRequested && token == old(token)
      ensures Truthy(clientId) ==> (tokenRequested <==> !Truthy(old(token)))
      ensures Truthy(clientId) && tokenRequested && !TokenGranted(tokenReply) ==> r == Err(TokenFailure())
      ensures Truthy(clientId) ==> token == TokenAfter(old(token), tokenReply)
      ensures Truthy(clientId) && tokenRequested && TokenGranted(tokenReply) ==> token == Some(tokenReply.accessToken)
      ensures Truthy(clientId) && !tokenRequested ==> token == old(token)
      ensures Truthy(clientId) && (!tokenRequested || TokenGranted(tokenReply)) ==> r == Ok(status == 201)
    {
      if !Truthy(clientId) {
        return Ok(true), false;
      }
      var t;
      t, tokenRequested := EnsureToken(tokenReply);
      if t.Err? {
        return Err(t.error), tokenRequested;
      }
      r := Ok(status == 201);
    }

    /** `delete_instance`: true when no client id is set; otherwise a token
        if none is cached, then whether the DELETE answered 204. */
    method DeleteInstance(tokenReply: TokenReply, status: int) returns (r: Result<bool>, tokenRequested: bool)
      modifies this
      ensures !Truthy(clientId) ==> r == Ok(true) && !tokenRequested && token == old(token)
      ensures Truthy(clientId) ==> (tokenRequested <==> !Truthy(old(token)))
      ensures Truthy(clientId) && tokenRequested && !TokenGranted(tokenReply) ==> r == Err(TokenFailure())
      ensures Truthy(clientId) ==> token == TokenAfter(old(token), tokenReply)
      ensures Truthy(clientId) && tokenRequested && TokenGranted(tokenReply) ==> token == Some(tokenReply.accessToken)
      ensures Truthy(clientId) && !tokenRequested ==> token == old(token)
      ensures Truthy(clientId) && (!tokenRequested || TokenGranted(tokenReply)) ==> r == Ok(status == 204)
    {
      if !Truthy(clientId) {
        return Ok(true), false;
      }
      var t;
      t, tokenRequested := EnsureToken(tokenReply);
      if t.Err? {
        return Err(t.error), tokenRequested;
      }
      r := Ok(status == 204);
    }
  }
}
