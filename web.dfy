/** What the browser pages share: the requests they send, how a `fetch`
    settles, and the browser itself — the stored token (`localStorage`),
    the navigation history (`router.push`), the alerts shown, and the
    requests issued, in order. A request's answer arrives as a separate
    event that the page handles. */
module Web {
  import opened Common

  /** `process.env.NEXT_PUBLIC_API_URL || 'http://localhost:8000'`. */
  const DefaultApiUrl := "http://localhost:8000"

  function ApiUrl(env: Option<string>): (url: string)
    ensures Truthy(env) ==> url == env.value
    ensures !Truthy(env) ==> url == DefaultApiUrl
  {
    OrElse(env, DefaultApiUrl)
  }

  datatype HttpMethod = Get | Post | Delete

  /** A request body: none, a JSON object, or an
      `application/x-www-form-urlencoded` form, as key/value pairs in order. */
  datatype Payload = NoBody | Json(fields: seq<(string, string)>) | Form(fields: seq<(string, string)>)

  /** A request as `fetch` sends it; `authorization` is the header, if set. */
  datatype Request = Request(verb: HttpMethod, url: string, authorization: Option<string>, body: Payload)

  /** `Bearer ${token}`: a missing token is written as "null". */
  function Bearer(token: Option<string>): (h: string)
    ensures token.Some? ==> h == "Bearer " + token.value
    ensures token.None? ==> h == "Bearer null"
  {
    "Bearer " + (if token.Some? then token.value else "null")
  }

  /** `response.ok`. */
  predicate IsOk(status: int)
  {
    200 <= status <= 299
  }

  /** How a request whose body the page does not read settles: with a
      status, or with a thrown value (a network failure). */
  datatype Outcome = Status(status: int) | Failed

  /** How a request whose JSON body the page reads settles: with a status
      and the result of `response.json()` (which may raise), or with a
      thrown value. `isError` says whether the thrown value is an `Error`,
      and `message` is its message. */
  datatype Settled<T> = Response(status: int, body: Result<T>) | Thrown(isError: bool, message: string)

  class Browser {
    var token: Option<string>
    var history: seq<string>
    var alerts: seq<string>
    var sent: seq<Request>

    constructor (token: Option<string>)
      ensures this.token == token && history == [] && alerts == [] && sent == []
    {
      this.token := token;
      history, alerts, sent := [], [], [];
    }
  }

  /** The character of a decimal digit. */
  function DigitChar(d: nat): char
    requires d < 10
  {
    (48 + d) as char
  }

  predicate IsDigit(c: char)
  {
    '0' <= c <= '9'
  }

  /** The decimal digits of a natural number, most significant first. */
  function NatText(n: nat): (s: string)
    ensures |s| >= 1 && forall k :: 0 <= k < |s| ==> IsDigit(s[k])
  {
    if n < 10 then [DigitChar(n)] else NatText(n / 10) + [DigitChar(n % 10)]
  }

  /** A number rendered in a template literal (`${n}`): its decimal digits,
      after a minus sign when it is negative. */
  function DecimalText(i: int): string
  {
    if i < 0 then "-" + NatText(-i) else NatText(i)
  }

  /** The value of a string of decimal digits. */
  function NatValue(s: string): nat
    requires forall k :: 0 <= k < |s| ==> IsDigit(s[k])
  {
    if s == [] then 0
    else
      assert IsDigit(s[|s| - 1]);
      10 * NatValue(s[..|s| - 1]) + (s[|s| - 1] as int - 48)
  }

  /** An integer path parameter as the server reads it: an optional minus
      sign, then digits. */
  predicate IsDecimal(s: string)
  {
    if |s| > 0 && s[0] == '-' then forall k :: 1 <= k < |s| ==> IsDigit(s[k])
    else forall k :: 0 <= k < |s| ==> IsDigit(s[k])
  }

  function IntValue(s: string): int
    requires IsDecimal(s)
  {
    if |s| > 0 && s[0] == '-' then 0 - NatValue(s[1..]) as int else NatValue(s)
  }

  lemma {:induction false} NatTextRoundTrip(n: nat)
    ensures NatValue(NatText(n)) == n
  {
    if n >= 10 {
      var s := NatText(n);
      assert s[..|s| - 1] == NatText(n / 10);
      NatTextRoundTrip(n / 10);
    }
  }

  /** The server reads back the number the page rendered, so distinct ids
      give distinct URLs. */
  lemma DecimalRoundTrip(i: int)
    ensures IsDecimal(DecimalText(i)) && IntValue(DecimalText(i)) == i
  {
    NatTextRoundTrip(if i < 0 then -i else i);
    if i < 0 {
      assert DecimalText(i)[1..] == NatText(-i);
    }
  }
}
