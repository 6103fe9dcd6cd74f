/** The login and registration form. `handleSubmit` is split at its
    `await`s: `BeginSubmit` up to the request, `EndSubmit` for how the
    request and the parsing of its JSON body settle. */
module AuthForm {
  import opened Common
  import opened Web

  datatype Mode = Login | Register

  /** A string field of a parsed JSON object: absent, `null`, or a string. */
  datatype StringField = Absent | Null | Text(text: string)

  /** The fields of the JSON answer the form reads. `detail` is the
      server's error text (absent and `null` are both falsy); `accessToken`
      is absent from an error answer. */
  datatype AuthBody = AuthBody(detail: Option<string>, accessToken: StringField)

  const DashboardPath := "/dashboard"
  const DefaultFailure := "Authentication failed"
  const UnknownFailure := "An error occurred"
  /** What `localStorage.setItem` stores for an absent `access_token`. */
  const Undefined := "undefined"
  /** What it stores for a `null` one. */
  const NullText := "null"

  /** What `localStorage.setItem('token', …)` stores: the value converted
      to a string, so the text given (even an empty one), "undefined" for
      an absent field and "null" for `null`. */
  function StoredToken(accessToken: StringField): (t: string)
    ensures accessToken.Text? ==> t == accessToken.text
    ensures accessToken.Absent? ==> t == Undefined
    ensures accessToken.Null? ==> t == NullText
  {
    match accessToken
    case Absent => Undefined
    case Null => NullText
    case Text(text) => text
  }

  /** Whatever a successful answer carries, the stored token is empty only
      when the server sent an empty string: a missing or `null` token is
      stored as a non-empty text, which the pages' `if (!token)` checks
      take for a login. */
  lemma StoredTokenEmptyOnlyForEmptyText(accessToken: StringField)
    ensures StoredToken(accessToken) == "" <==> accessToken == Text("")
  {
  }

  /** The request for each mode: login posts an urlencoded form whose
      `username` is the email, registration posts a JSON object. */
  function AuthRequest(apiUrl: string, mode: Mode, email: string, password: string): (r: Request)
    ensures r.verb == Post && r.authorization.None?
    ensures mode == Login ==>
              r.url == apiUrl + "/auth/login" && r.body == Form([("username", email), ("password", password)])
    ensures mode == Register ==>
              r.url == apiUrl + "/auth/register" && r.body == Json([("email", email), ("password", password)])
  {
    match mode
    case Login => Request(Post, apiUrl + "/auth/login", None, Form([("username", email), ("password", password)]))
    case Register => Request(Post, apiUrl + "/auth/register", None, Json([("email", email), ("password", password)]))
  }

  /** The error a settled submission leaves on the form, or `None` when it
      succeeds: a non-OK answer gives its `detail` (or the default text
      when that is missing or empty), a thrown `Error` its message (a body
      that does not parse throws one), and any other thrown value the
      generic text. */
  function SubmitError(o: Settled<AuthBody>): (e: Option<string>)
    ensures e.None? <==> o.Response? && IsOk(o.status) && o.body.Ok?
    ensures o.Response? && !IsOk(o.status) && o.body.Ok? ==>
              e == Some(OrElse(o.body.value.detail, DefaultFailure))
    ensures o.Response? && o.body.Err? ==> e == Some(o.body.error)
    ensures o.Thrown? ==> e == Some(if o.isError then o.message else UnknownFailure)
  {
    match o
    case Thrown(isError, message) => Some(if isError then message else UnknownFailure)
    case Response(status, body) =>
      if body.Err? then Some(body.error)
      else if !IsOk(status) then Some(OrElse(body.value.detail, DefaultFailure))
      else None
  }

  /** A refused login or registration always shows a non-empty message:
      an empty `detail` falls back to the default text. */
  lemma RefusalShowsMessage(o: Settled<AuthBody>)
    requires o.Response? && !IsOk(o.status) && o.body.Ok?
    ensures SubmitError(o).Some? && SubmitError(o).value != ""
    ensures Truthy(o.body.value.detail) ==> SubmitError(o).value == o.body.value.detail.value
  {
  }

  class AuthForm {
    const browser: Browser
    const apiUrl: string
    const mode: Mode
    var email: string
    var password: string
    var loading: bool
    var error: string

    constructor (browser: Browser, apiEnv: Option<string>, mode: Mode)
      ensures this.browser == browser && apiUrl == ApiUrl(apiEnv) && this.mode == mode
      ensures email == "" && password == "" && !loading && error == ""
    {
      this.browser := browser;
      apiUrl := ApiUrl(apiEnv);
      this.mode := mode;
      email, password, loading, error := "", "", false, "";
    }

    /** The email input's `onChange`; a disabled input takes no typing. */
    method SetEmail(value: string)
      requires InputsEnabled()
      modifies this
      ensures email == value && password == old(password)
      ensures loading == old(loading) && error == old(error)
    {
      email := value;
    }

    /** The password input's `onChange`. */
    method SetPassword(value: string)
      requires InputsEnabled()
      modifies this
      ensures password == value && email == old(email)
      ensures loading == old(loading) && error == old(error)
    {
      password := value;
    }

    /** The form is submitted: loading is raised and the error cleared
        before the request for the mode is sent. */
    method BeginSubmit()
      modifies this, browser
      ensures loading && error == ""
      ensures browser.sent == old(browser.sent) + [AuthRequest(apiUrl, mode, email, password)]
      ensures email == old(email) && password == old(password)
      ensures browser.token == old(browser.token) && browser.history == old(browser.history)
      ensures browser.alerts == old(browser.alerts)
    {
      loading, error := true, "";
      browser.sent := browser.sent + [AuthRequest(apiUrl, mode, email, password)];
    }

    /** The submission settles. On success the token is stored (the text
        "undefined" when the answer carries none) and the browser goes to
        the dashboard; otherwise the error is set and neither the token nor
        the history changes. Loading ends in every case. */
    method EndSubmit(o: Settled<AuthBody>)
      modifies this, browser
      ensures !loading
      ensures SubmitError(o).Some? ==>
                error == SubmitError(o).value
                && browser.token == old(browser.token) && browser.history == old(browser.history)
      ensures SubmitError(o).None? ==>
                error == old(error)
                && browser.token == Some(StoredToken(o.body.value.accessToken))
                && browser.history == old(browser.history) + [DashboardPath]
      ensures browser.sent == old(browser.sent) && browser.alerts == old(browser.alerts)
      ensures email == old(email) && password == old(password)
    {
      var failure := SubmitError(o);
      if failure.Some? {
        error := failure.value;
      } else {
        browser.token := Some(StoredToken(o.body.value.accessToken));
        browser.history := browser.history + [DashboardPath];
      }
      loading := false;
    }

    /** The inputs and the submit button are disabled exactly while a
        submission is in flight. */
    predicate InputsEnabled()
      reads this
    {
      !loading
    }
  }
}
