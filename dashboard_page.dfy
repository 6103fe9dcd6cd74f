/** The dashboard page: it lists the user's instances, refreshing them
    every five seconds, deploys a new instance, and reboots or terminates
    one. Each handler is split at its `await`: a `Begin…` event up to the
    request and an `End…`/`On…` event for its settlement. */
module DashboardPage {
  import opened Common
  import opened Web

  /** An element of the `/instances/` answer, as the page reads it. */
  datatype InstanceView = InstanceView(id: int, providerId: string, ipAddress: Option<string>,
                                       username: Option<string>, osType: string, plan: string,
                                       status: string, createdAt: string)

  datatype Action = Reboot | Terminate

  /** The word the alerts use for an action. */
  function ActionName(a: Action): (s: string)
    ensures s == "reboot" <==> a == Reboot
  {
    match a
    case Reboot => "reboot"
    case Terminate => "terminate"
  }

  const LoginPath := "/auth/login"
  const DeployPlan := "basic_windows"
  const DeployStarted := "Provisioning Started! Check your email or refresh in a few minutes."
  const DeployFailed := "Failed to initiate provisioning"

  function InstancesRequest(apiUrl: string, token: Option<string>): Request
  {
    Request(Get, apiUrl + "/instances/", Some(Bearer(token)), NoBody)
  }

  function DeployRequest(apiUrl: string, token: Option<string>): (r: Request)
    ensures r.verb == Post && r.url == apiUrl + "/billing/initiate"
    ensures r.body == Json([("plan", DeployPlan), ("payment_method", "paystack")])
  {
    Request(Post, apiUrl + "/billing/initiate", Some(Bearer(token)),
            Json([("plan", DeployPlan), ("payment_method", "paystack")]))
  }

  /** POST `/instances/{id}/reboot` or DELETE `/instances/{id}`. */
  function ActionRequest(apiUrl: string, id: string, a: Action, token: Option<string>): (r: Request)
    ensures a == Reboot ==> r.verb == Post && r.url == apiUrl + "/instances/" + id + "/reboot"
    ensures a == Terminate ==> r.verb == Delete && r.url == apiUrl + "/instances/" + id
    ensures r.authorization == Some(Bearer(token)) && r.body == NoBody
  {
    match a
    case Reboot => Request(Post, apiUrl + "/instances/" + id + "/reboot", Some(Bearer(token)), NoBody)
    case Terminate => Request(Delete, apiUrl + "/instances/" + id, Some(Bearer(token)), NoBody)
  }

  /** The Reboot button is enabled only for an active instance with no
      action of its own in flight. */
  predicate RebootEnabled(status: string, actionLoading: Option<int>, id: int)
  {
    !(status != "active" || actionLoading == Some(id))
  }

  /** The Terminate button is enabled unless the instance is terminated or
      has an action in flight. */
  predicate TerminateEnabled(status: string, actionLoading: Option<int>, id: int)
  {
    !(status == "terminated" || actionLoading == Some(id))
  }

  /** While an action on an instance is in flight, neither of its buttons
      can be pressed. */
  lemma InFlightDisablesBoth(status: string, id: int)
    ensures !RebootEnabled(status, Some(id), id) && !TerminateEnabled(status, Some(id), id)
  {
  }

  /** Whenever Reboot can be pressed, so can Terminate; and an action on one
      instance does not disable another's. */
  lemma RebootEnabledImpliesTerminateEnabled(status: string, actionLoading: Option<int>, id: int, other: int)
    ensures RebootEnabled(status, actionLoading, id) ==> TerminateEnabled(status, actionLoading, id)
    ensures other != id ==>
              (RebootEnabled(status, Some(other), id) <==> status == "active")
              && (TerminateEnabled(status, Some(other), id) <==> status != "terminated")
  {
  }

  datatype BadgeColour = Green | Yellow | Red | Gray

  /** The colour of the status badge. */
  function Badge(status: string): (c: BadgeColour)
    ensures c == Green <==> status == "active"
    ensures c == Yellow <==> status == "provisioning"
    ensures c == Red <==> status == "terminated"
    ensures c == Gray <==> status !in {"active", "provisioning", "terminated"}
  {
    if status == "active" then Green
    else if status == "provisioning" then Yellow
    else if status == "terminated" then Red
    else Gray
  }

  /** The IP column: the address, or "Pending" while it is null or empty. */
  function IpCell(ip: Option<string>): (s: string)
    ensures Truthy(ip) ==> s == ip.value
    ensures !Truthy(ip) ==> s == "Pending"
  {
    OrElse(ip, "Pending")
  }

  /** The credentials column shows the user and a password cell only for
      an active instance. */
  predicate CredentialsShown(status: string)
  {
    status == "active"
  }

  /** The password cell: whether or not the serialized instance mentions a
      password, it shows the same mask, so no password ever reaches the
      page. */
  function PasswordCell(serialized: string): (s: string)
    ensures s == "******"
  {
    if Contains(serialized, "password") then "******" else "******"
  }

  class DashboardPage {
    const browser: Browser
    const apiUrl: string
    var loading: bool
    var instances: seq<InstanceView>
    var provisioning: bool
    var actionLoading: Option<int>
    /** Whether the five-second interval is running. */
    var polling: bool
    /** The token read when the page mounted, which every poll uses. */
    var pollToken: Option<string>

    constructor (browser: Browser, apiEnv: Option<string>)
      ensures this.browser == browser && apiUrl == ApiUrl(apiEnv)
      ensures loading && instances == [] && !provisioning && actionLoading.None? && !polling
    {
      this.browser := browser;
      apiUrl := ApiUrl(apiEnv);
      loading, instances, provisioning, actionLoading := true, [], false, None;
      polling, pollToken := false, None;
    }

    /** The mount effect: without a stored token, go to the login page and
        do nothing else; otherwise fetch the instances at once and start
        the interval. */
    method Mount()
      modifies this, browser
      ensures browser.token == old(browser.token) && browser.alerts == old(browser.alerts)
      ensures loading == old(loading) && instances == old(instances)
      ensures provisioning == old(provisioning) && actionLoading == old(actionLoading)
      ensures !Truthy(old(browser.token)) ==>
                browser.history == old(browser.history) + [LoginPath] && browser.sent == old(browser.sent)
                && polling == old(polling) && pollToken == old(pollToken)
      ensures Truthy(old(browser.token)) ==>
                browser.history == old(browser.history)
                && browser.sent == old(browser.sent) + [InstancesRequest(apiUrl, old(browser.token))]
                && polling && pollToken == old(browser.token)
    {
      var token := browser.token;
      if !Truthy(token) {
        browser.history := browser.history + [LoginPath];
        return;
      }
      browser.sent := browser.sent + [InstancesRequest(apiUrl, token)];
      polling, pollToken := true, token;
    }

    /** One tick of the interval: another fetch with the mount-time token. */
    method Tick()
      requires polling
      modifies browser
      ensures browser.sent == old(browser.sent) + [InstancesRequest(apiUrl, pollToken)]
      ensures browser.token == old(browser.token) && browser.history == old(browser.history)
      ensures browser.alerts == old(browser.alerts)
    {
      browser.sent := browser.sent + [InstancesRequest(apiUrl, pollToken)];
    }

    /** The effect's cleanup: the interval is cleared. */
    method Unmount()
      modifies this
      ensures !polling && pollToken == old(pollToken)
      ensures loading == old(loading) && instances == old(instances)
      ensures provisioning == old(provisioning) && actionLoading == old(actionLoading)
    {
      polling := false;
    }

    /** A fetch of the instances settles: an OK answer replaces the list
        with its body, a 401 goes to the login page, and nothing else
        changes the list; in every case the page stops loading. */
    method OnInstancesSettled(outcome: Settled<seq<InstanceView>>)
      modifies this, browser
      ensures !loading
      ensures outcome.Response? && IsOk(outcome.status) && outcome.body.Ok? ==> instances == outcome.body.value
      ensures !(outcome.Response? && IsOk(outcome.status) && outcome.body.Ok?) ==> instances == old(instances)
      ensures outcome.Response? && IsOk(outcome.status) && outcome.body.Ok? ==>
                (ShowsEmptyMessage() <==> outcome.body.value == [])
      ensures outcome.Response? && !IsOk(outcome.status) && outcome.status == 401 ==>
                browser.history == old(browser.history) + [LoginPath]
      ensures !(outcome.Response? && !IsOk(outcome.status) && outcome.status == 401) ==>
                browser.history == old(browser.history)
      ensures browser.token == old(browser.token) && browser.sent == old(browser.sent)
      ensures browser.alerts == old(browser.alerts)
      ensures provisioning == old(provisioning) && actionLoading == old(actionLoading)
      ensures polling == old(polling) && pollToken == old(pollToken)
    {
      if outcome.Response? {
        if IsOk(outcome.status) {
          if outcome.body.Ok? {
            instances := outcome.body.value;
          }
        } else if outcome.status == 401 {
          browser.history := browser.history + [LoginPath];
        }
      }
      loading := false;
    }

    /** The Deploy button is pressed: the flag is raised and the order for
        the fixed plan is sent with the token stored now. */
    method BeginDeploy()
      modifies this, browser
      ensures provisioning
      ensures browser.sent == old(browser.sent) + [DeployRequest(apiUrl, old(browser.token))]
      ensures browser.token == old(browser.token) && browser.history == old(browser.history)
      ensures browser.alerts == old(browser.alerts)
      ensures loading == old(loading) && instances == old(instances) && actionLoading == old(actionLoading)
      ensures polling == old(polling) && pollToken == old(pollToken)
    {
      provisioning := true;
      browser.sent := browser.sent + [DeployRequest(apiUrl, browser.token)];
    }

    /** The order settles: an alert for an answer (started or failed), none
        for a network failure, and the flag is lowered in every case. */
    method EndDeploy(outcome: Outcome)
      modifies this, browser
      ensures !provisioning
      ensures outcome.Status? ==>
                browser.alerts == old(browser.alerts) + [if IsOk(outcome.status) then DeployStarted else DeployFailed]
      ensures outcome.Failed? ==> browser.alerts == old(browser.alerts)
      ensures browser.token == old(browser.token) && browser.history == old(browser.history)
      ensures browser.sent == old(browser.sent)
      ensures loading == old(loading) && instances == old(instances) && actionLoading == old(actionLoading)
      ensures polling == old(polling) && pollToken == old(pollToken)
    {
      if outcome.Status? {
        browser.alerts := browser.alerts + [if IsOk(outcome.status) then DeployStarted else DeployFailed];
      }
      provisioning := false;
    }

    /** Reboot or Terminate is pressed. A declined confirmation changes
        nothing; otherwise the instance is marked busy and its request is
        sent, its URL naming the instance by its id in decimal. */
    method BeginAction(id: int, a: Action, confirmed: bool)
      modifies this, browser
      ensures !confirmed ==>
                actionLoading == old(actionLoading) && browser.sent == old(browser.sent)
      ensures confirmed ==>
                actionLoading == Some(id)
                && browser.sent == old(browser.sent) + [ActionRequest(apiUrl, DecimalText(id), a, old(browser.token))]
      ensures browser.token == old(browser.token) && browser.history == old(browser.history)
      ensures browser.alerts == old(browser.alerts)
      ensures loading == old(loading) && instances == old(instances) && provisioning == old(provisioning)
      ensures polling == old(polling) && pollToken == old(pollToken)
    {
      if !confirmed {
        return;
      }
      actionLoading := Some(id);
      browser.sent := browser.sent + [ActionRequest(apiUrl, DecimalText(id), a, browser.token)];
    }

    /** The action's request settles: an alert for an answer, none for a
        network failure; the busy marker is cleared in every case and the
        list is never touched. */
    method EndAction(a: Action, outcome: Outcome)
      modifies this, browser
      ensures actionLoading.None?
      ensures outcome.Status? && IsOk(outcome.status) ==>
                browser.alerts == old(browser.alerts) + ["Instance " + ActionName(a) + " initiated successfully"]
      ensures outcome.Status? && !IsOk(outcome.status) ==>
                browser.alerts == old(browser.alerts) + ["Failed to " + ActionName(a) + " instance"]
      ensures outcome.Failed? ==> browser.alerts == old(browser.alerts)
      ensures browser.token == old(browser.token) && browser.history == old(browser.history)
      ensures browser.sent == old(browser.sent)
      ensures loading == old(loading) && instances == old(instances) && provisioning == old(provisioning)
      ensures polling == old(polling) && pollToken == old(pollToken)
    {
      if outcome.Status? {
        var text := if IsOk(outcome.status) then "Instance " + ActionName(a) + " initiated successfully"
                    else "Failed to " + ActionName(a) + " instance";
        browser.alerts := browser.alerts + [text];
      }
      actionLoading := None;
    }

    /** The Deploy button is enabled while no order is in flight. */
    predicate DeployEnabled()
      reads this
    {
      !provisioning
    }

    /** "Loading..." is shown until the first fetch settles. */
    predicate ShowsLoading()
      reads this
    {
      loading
    }

    /** The empty-list message is shown once loaded with no instances. */
    predicate ShowsEmptyMessage()
      reads this
    {
      !loading && |instances| == 0
    }
  }
}
