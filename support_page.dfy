/** The support page: the caller's tickets, and a form that opens a new
    one. As on the dashboard, `handleSubmit` is split at its `await`. */
module SupportPage {
  import opened Common
  import opened Web

  /** An element of the `/support/tickets` answer, as the page reads it. */
  datatype TicketView = TicketView(id: int, subject: string, message: string, status: string, createdAt: string)

  const LoginPath := "/auth/login"
  const TicketCreated := "Ticket Created!"
  const TicketFailed := "Failed to create ticket"

  /** GET `/support/tickets` with the token stored when it is sent. */
  function TicketsRequest(apiUrl: string, token: Option<string>): (r: Request)
    ensures r.verb == Get && r.url == apiUrl + "/support/tickets" && r.body == NoBody
  {
    Request(Get, apiUrl + "/support/tickets", Some(Bearer(token)), NoBody)
  }

  /** POST `/support/tickets` with a JSON body of exactly the two fields. */
  function CreateRequest(apiUrl: string, token: Option<string>, subject: string, message: string): (r: Request)
    ensures r.verb == Post && r.url == apiUrl + "/support/tickets"
    ensures r.body.Json? && |r.body.fields| == 2
    ensures r.body.fields[0] == ("subject", subject) && r.body.fields[1] == ("message", message)
  {
    Request(Post, apiUrl + "/support/tickets", Some(Bearer(token)), Json([("subject", subject), ("message", message)]))
  }

  datatype BadgeColour = Blue | Green | Gray

  /** The colour of a ticket's status badge. */
  function Badge(status: string): (c: BadgeColour)
    ensures c == Blue <==> status == "open"
    ensures c == Green <==> status == "answered"
    ensures c == Gray <==> status != "open" && status != "answered"
  {
    if status == "open" then Blue
    else if status == "answered" then Green
    else Gray
  }

  class SupportPage {
    const browser: Browser
    const apiUrl: string
    var loading: bool
    var tickets: seq<TicketView>
    var showNewTicket: bool
    var subject: string
    var message: string
    var submitting: bool

    constructor (browser: Browser, apiEnv: Option<string>)
      ensures this.browser == browser && apiUrl == ApiUrl(apiEnv)
      ensures loading && tickets == [] && !showNewTicket && subject == "" && message == "" && !submitting
    {
      this.browser := browser;
      apiUrl := ApiUrl(apiEnv);
      loading, tickets, showNewTicket := true, [], false;
      subject, message, submitting := "", "", false;
    }

    /** `fetchTickets` up to its request. */
    method FetchTickets()
      modifies browser
      ensures browser.sent == old(browser.sent) + [TicketsRequest(apiUrl, old(browser.token))]
      ensures browser.token == old(browser.token) && browser.history == old(browser.history)
      ensures browser.alerts == old(browser.alerts)
    {
      browser.sent := browser.sent + [TicketsRequest(apiUrl, browser.token)];
    }

    /** The mount effect: without a stored token, go to the login page and
        fetch nothing; otherwise fetch the tickets once. */
    method Mount()
      modifies browser
      ensures browser.token == old(browser.token) && browser.alerts == old(browser.alerts)
      ensures !Truthy(old(browser.token)) ==>
                browser.history == old(browser.history) + [LoginPath] && browser.sent == old(browser.sent)
      ensures Truthy(old(browser.token)) ==>
                browser.history == old(browser.history)
                && browser.sent == old(browser.sent) + [TicketsRequest(apiUrl, old(browser.token))]
    {
      if !Truthy(browser.token) {
        browser.history := browser.history + [LoginPath];
        return;
      }
      FetchTickets();
    }

    /** A fetch of the tickets settles: an OK answer replaces the list, a
        401 goes to the login page, and nothing else changes the list; in
        every case the page stops loading. */
    method OnTicketsSettled(outcome: Settled<seq<TicketView>>)
      modifies this, browser
      ensures !loading
      ensures outcome.Response? && IsOk(outcome.status) && outcome.body.Ok? ==> tickets == outcome.body.value
      ensures !(outcome.Response? && IsOk(outcome.status) && outcome.body.Ok?) ==> tickets == old(tickets)
      ensures outcome.Response? && !IsOk(outcome.status) && outcome.status == 401 ==>
                browser.history == old(browser.history) + [LoginPath]
      ensures !(outcome.Response? && !IsOk(outcome.status) && outcome.status == 401) ==>
                browser.history == old(browser.history)
      ensures browser.token == old(browser.token) && browser.sent == old(browser.sent)
      ensures browser.alerts == old(browser.alerts)
      ensures showNewTicket == old(showNewTicket) && subject == old(subject) && message == old(message)
      ensures submitting == old(submitting)
    {
      if outcome.Response? {
        if IsOk(outcome.status) {
          if outcome.body.Ok? {
            tickets := outcome.body.value;
          }
        } else if outcome.status == 401 {
          browser.history := browser.history + [LoginPath];
        }
      }
      loading := false;
    }

    /** The "Open New Ticket" / "Cancel" button. */
    method Toggle()
      modifies this
      ensures showNewTicket == !old(showNewTicket)
      ensures loading == old(loading) && tickets == old(tickets) && subject == old(subject)
      ensures message == old(message) && submitting == old(submitting)
    {
      showNewTicket := !showNewTicket;
    }

    /** The subject input's `onChange`. */
    method SetSubject(value: string)
      modifies this
      ensures subject == value && message == old(message)
      ensures loading == old(loading) && tickets == old(tickets) && showNewTicket == old(showNewTicket)
      ensures submitting == old(submitting)
    {
      subject := value;
    }

    /** The message textarea's `onChange`. */
    method SetMessage(value: string)
      modifies this
      ensures message == value && subject == old(subject)
      ensures loading == old(loading) && tickets == old(tickets) && showNewTicket == old(showNewTicket)
      ensures submitting == old(submitting)
    {
      message := value;
    }

    /** The form is submitted: the flag is raised and the two fields are
        sent with the token stored now. Both fields are `required`, so the
        browser submits the form only when neither is empty. */
    method BeginSubmit()
      requires subject != "" && message != ""
      modifies this, browser
      ensures submitting
      ensures browser.sent == old(browser.sent) + [CreateRequest(apiUrl, old(browser.token), subject, message)]
      ensures browser.token == old(browser.token) && browser.history == old(browser.history)
      ensures browser.alerts == old(browser.alerts)
      ensures loading == old(loading) && tickets == old(tickets) && showNewTicket == old(showNewTicket)
      ensures subject == old(subject) && message == old(message)
    {
      submitting := true;
      browser.sent := browser.sent + [CreateRequest(apiUrl, browser.token, subject, message)];
    }

    /** The creation settles. On an OK answer: an alert, the form hidden
        and emptied, and the list fetched again. On another status: an
        alert and nothing else. On a network failure: nothing. The flag is
        lowered in every case. */
    method EndSubmit(outcome: Outcome)
      modifies this, browser
      ensures !submitting
      ensures outcome.Status? && IsOk(outcome.status) ==>
                browser.alerts == old(browser.alerts) + [TicketCreated]
                && !showNewTicket && subject == "" && message == ""
                && browser.sent == old(browser.sent) + [TicketsRequest(apiUrl, old(browser.token))]
      ensures !(outcome.Status? && IsOk(outcome.status)) ==>
                showNewTicket == old(showNewTicket) && subject == old(subject) && message == old(message)
                && browser.sent == old(browser.sent)
      ensures outcome.Status? && !IsOk(outcome.status) ==> browser.alerts == old(browser.alerts) + [TicketFailed]
      ensures outcome.Failed? ==> browser.alerts == old(browser.alerts)
      ensures browser.token == old(browser.token) && browser.history == old(browser.history)
      ensures loading == old(loading) && tickets == old(tickets)
    {
      if outcome.Status? {
        if IsOk(outcome.status) {
          browser.alerts := browser.alerts + [TicketCreated];
          showNewTicket, subject, message := false, "", "";
          FetchTickets();
        } else {
          browser.alerts := browser.alerts + [TicketFailed];
        }
      }
      submitting := false;
    }

    /** The submit button is enabled while no creation is in flight. */
    predicate SubmitEnabled()
      reads this
    {
      !submitting
    }

    /** "You have no support tickets." is shown iff the list is empty and
        the form is hidden (once loaded). */
    predicate ShowsEmptyState()
      reads this
    {
      !loading && |tickets| == 0 && !showNewTicket
    }
  }
}
