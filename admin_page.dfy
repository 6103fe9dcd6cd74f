/** The admin page: on mount it fetches the statistics and then the user
    list, and renders a loading screen, "Access Denied", or the panel.
    `fetchData` is one method here, given how each of its two requests
    settles; the second is used only when the page gets as far as sending
    it. */
module AdminPage {
  import opened Common
  import opened Web

  datatype StatsView = StatsView(totalUsers: int, activeInstances: int, totalInstances: int,
                                 openTickets: int, revenue: int)

  datatype UserView = UserView(id: int, email: string, isActive: bool, createdAt: string)

  const LoginPath := "/auth/login"
  const DashboardPath := "/dashboard"

  function StatsRequest(apiUrl: string, token: Option<string>): (r: Request)
    ensures r.verb == Get && r.url == apiUrl + "/admin/stats" && r.authorization == Some(Bearer(token))
  {
    Request(Get, apiUrl + "/admin/stats", Some(Bearer(token)), NoBody)
  }

  function UsersRequest(apiUrl: string, token: Option<string>): (r: Request)
    ensures r.verb == Get && r.url == apiUrl + "/admin/users" && r.authorization == Some(Bearer(token))
  {
    Request(Get, apiUrl + "/admin/users", Some(Bearer(token)), NoBody)
  }

  /** What `fetchData` does once the statistics request settles. */
  datatype StatsStep = FetchUsers | ToDashboard | Stop

  /** An OK answer whose body parses, or a non-OK status other than 401
      and 403, goes on to the users; 401 and 403 leave for the dashboard;
      a thrown value (a network failure, or a body that does not parse)
      ends the fetch. */
  function AfterStats(s: Settled<StatsView>): (step: StatsStep)
    ensures step == ToDashboard <==> s.Response? && (s.status == 401 || s.status == 403)
    ensures step == Stop <==> s.Thrown? || (IsOk(s.status) && s.body.Err?)
    ensures s.Response? && !IsOk(s.status) && s.status != 401 && s.status != 403 ==> step == FetchUsers
  {
    match s
    case Thrown(_, _) => Stop
    case Response(status, body) =>
      if IsOk(status) then (if body.Ok? then FetchUsers else Stop)
      else if status == 403 || status == 401 then ToDashboard
      else FetchUsers
  }

  /** What the page renders. */
  datatype Screen = LoadingPanel | AccessDenied | Panel(stats: StatsView, users: seq<UserView>)

  class AdminPage {
    const browser: Browser
    const apiUrl: string
    var loading: bool
    var stats: Option<StatsView>
    var users: seq<UserView>

    constructor (browser: Browser, apiEnv: Option<string>)
      ensures this.browser == browser && apiUrl == ApiUrl(apiEnv)
      ensures loading && stats.None? && users == []
    {
      this.browser := browser;
      apiUrl := ApiUrl(apiEnv);
      loading, stats, users := true, None, [];
    }

    /** The mount effect with `fetchData`. */
    method Mount(statsOutcome: Settled<StatsView>, usersOutcome: Settled<seq<UserView>>)
      modifies this, browser
      ensures browser.token == old(browser.token) && browser.alerts == old(browser.alerts)
      ensures !Truthy(old(browser.token)) ==>
                browser.history == old(browser.history) + [LoginPath] && browser.sent == old(browser.sent)
                && loading == old(loading) && stats == old(stats) && users == old(users)
      ensures Truthy(old(browser.token)) ==> !loading
      ensures Truthy(old(browser.token)) && AfterStats(statsOutcome) == ToDashboard ==>
                browser.history == old(browser.history) + [DashboardPath]
                && browser.sent == old(browser.sent) + [StatsRequest(apiUrl, old(browser.token))]
      ensures Truthy(old(browser.token)) && AfterStats(statsOutcome) != ToDashboard ==>
                browser.history == old(browser.history)
      ensures Truthy(old(browser.token)) && AfterStats(statsOutcome) == Stop ==>
                browser.sent == old(browser.sent) + [StatsRequest(apiUrl, old(browser.token))]
      ensures Truthy(old(browser.token)) && AfterStats(statsOutcome) == FetchUsers ==>
                browser.sent == old(browser.sent) + [StatsRequest(apiUrl, old(browser.token)),
                                                     UsersRequest(apiUrl, old(browser.token))]
      ensures Truthy(old(browser.token)) ==>
                stats == if statsOutcome.Response? && IsOk(statsOutcome.status) && statsOutcome.body.Ok?
                         then Some(statsOutcome.body.value) else old(stats)
      ensures Truthy(old(browser.token)) ==>
                users == if AfterStats(statsOutcome) == FetchUsers && usersOutcome.Response?
                            && IsOk(usersOutcome.status) && usersOutcome.body.Ok?
                         then usersOutcome.body.value else old(users)
      ensures Truthy(old(browser.token)) && AfterStats(statsOutcome) == ToDashboard && old(stats).None? ==>
                View() == AccessDenied
    {
      var token := browser.token;
      if !Truthy(token) {
        browser.history := browser.history + [LoginPath];
        return;
      }
      browser.sent := browser.sent + [StatsRequest(apiUrl, token)];
      match statsOutcome {
        case Thrown(_, _) =>
          loading := false;
          return;
        case Response(status, body) =>
          if IsOk(status) {
            if body.Err? {
              loading := false;
              return;
            }
            stats := Some(body.value);
          } else if status == 403 || status == 401 {
            browser.history := browser.history + [DashboardPath];
            loading := false;
            return;
          }
      }
      browser.sent := browser.sent + [UsersRequest(apiUrl, token)];
      if usersOutcome.Response? && IsOk(usersOutcome.status) && usersOutcome.body.Ok? {
        users := usersOutcome.body.value;
      }
      loading := false;
    }

    /** The render gate. */
    function View(): (v: Screen)
      reads this
      ensures v == LoadingPanel <==> loading
      ensures v == AccessDenied <==> !loading && stats.None?
      ensures v.Panel? ==> Some(v.stats) == stats && v.users == users
    {
      if loading then LoadingPanel
      else if stats.None? then AccessDenied
      else Panel(stats.value, users)
    }
  }

  /** A 401 or 403 for the statistics leaves for the dashboard without the
      users request, and is not an answer the statistics are taken from
      (with `Mount`'s contract, a fresh page then shows "Access Denied"). */
  lemma RefusedStatsNeverFetchUsers(s: Settled<StatsView>)
    requires s.Response? && (s.status == 401 || s.status == 403)
    ensures AfterStats(s) == ToDashboard && AfterStats(s) != FetchUsers
    ensures !(IsOk(s.status) && s.body.Ok?)
  {
  }
}
