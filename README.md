# NemoRDP in Dafny

NemoRDP sells remote-desktop servers. A user pays for a plan through
Paystack (or asks for a crypto deposit address). A Celery task then creates
the server: Windows at Vultr, Linux at Contabo. The task records the server
in the `rdp_instances` table and emails its credentials. The user can list,
reboot and terminate their servers and open support tickets. A periodic
task terminates servers whose time has run out. An admin page shows counts
and the user list.

This project models that core, module by module:

- **Backend values.** The three SQLAlchemy tables (`Models`) are
  datatypes. The database session (`Database.Db`) is a class whose
  sequences of rows the routes and tasks update in place.
- **Providers and services.** The Vultr and Contabo clients (`Vultr`,
  `Contabo.ContaboProvider`, the latter caching its OAuth2 token in a
  field) are modelled, and so are the provisioning service, the Paystack
  service and the email service.
- **Backend routes and tasks.** The routes (`InstancesRouter`,
  `BillingRouter`, `WebhooksRouter`, `SupportRouter`, `AdminRouter`), the
  provisioning task (`ProvisioningTask`) and the expiry task
  (`ExpiryTask`) are modelled.
- **Frontend.** Four React components are classes over a shared `Browser`
  (`Web`): the dashboard, the support page, the admin page and the
  login/registration form. The `Browser` holds the stored token, the
  navigation history, the alerts and the requests sent.

Everything outside the program is a parameter. That covers:

- HTTP answers and the Paystack API;
- the HMAC-SHA512 digest;
- whether SMTP raises;
- the clock;
- the order id (a UUID);
- what each provider call returns or raises.

An exception is a `Result.Err` or a `Reply.Unhandled`. An `HTTPException`
is a `Reply.HttpError(status, detail)`. An asynchronous frontend handler is
split at its `await` into a `Begin…` method and an `End…`/`On…` method
that takes how the request settled.

Where the code does something other than what its comments or the design
describe, the model follows the code. Two such places are defects, and
"## Findings" lists them. A few more are noted under "## Left out".

## Model

| member | source | states |
|---|---|---|
| Models.NewRDPInstance | backend/models/rdp_instance.py:8-19 | a new instance row has status "provisioning" and the insertion time, keeps the given required columns, and leaves every nullable column null |
| Models.NewTicket | backend/models/ticket.py:9-14 | a new ticket keeps the given user, subject and message, has status "open" and the insertion time |
| Models.NewUser | backend/models/user.py:9-15 | a new user is active, has the insertion time and no Paystack or wallet id |
| Models.InsertUser | backend/models/user.py:11 | inserting a user fails with an integrity error exactly when the email is already in the table, and otherwise appends the row |
| Models.InsertUserKeepsEmailsUnique | backend/models/user.py:11 | every successful insertion keeps emails unique |
| Database.Db.AddInstance | backend/tasks/provisioning.py:29-31 | the new row gets the next primary key, distinct from every existing one, and is appended; the other tables are unchanged and the key invariant holds |
| Database.Db.AddTicket | backend/routers/support.py:38-40 | the same for a ticket row |
| Database.Db.SetInstanceStatus | backend/routers/instances.py:70-72 | only the status of the one row changes |
| Database.Db.UpdateInstance | backend/tasks/provisioning.py:42-47 | only the one row is replaced, its primary key kept |
| Base64.Encode | backend/providers/contabo.py:18 | the encoding of n bytes is 4·⌈n/3⌉ characters (section 4 of RFC 4648) |
| Base64.RoundTrip | backend/providers/contabo.py:18 | decoding the encoding of any byte sequence gives it back |
| Base64.AsciiEncode | backend/providers/contabo.py:17 | `encode('ascii')` succeeds exactly when every character is below 128, giving one byte per character |
| Base64.AsciiRoundTrip | backend/providers/contabo.py:17-18 | reading the ASCII bytes back gives the string |
| Contabo.BasicAuthorization | backend/providers/contabo.py:16-21 | the header is "Basic " followed by text that decodes to the ASCII bytes of "client_id:client_secret"; a non-ASCII credential raises |
| Contabo.BasicCredentialCarriesClientId | backend/providers/contabo.py:16-21 | for a client id without a colon, the decoded header splits at its first colon into exactly the client id and the secret |
| Contabo.PendingServer | backend/providers/contabo.py:86-97 | a created Linux server has the created id, address "Pending", user "ubuntu", status "provisioning" |
| Contabo.MockServer | backend/providers/contabo.py:42-52 | the stand-in id is "mock-contabo-" and the order id; it is active |
| Contabo.ContaboProvider.GetAccessToken | backend/providers/contabo.py:14-38 | the request carries the Basic header and the client-credentials grant; a 200 caches and returns the token, another status raises and keeps the cache |
| Contabo.ContaboProvider.TokenFailure | backend/providers/contabo.py:16-38 | a refused token request raises `UnicodeEncodeError` exactly for non-ASCII credentials, and "Failed to get Contabo access token" exactly otherwise |
| Contabo.ContaboProvider.AtMostOneTokenRequest | backend/providers/contabo.py:54-55 | once a non-empty token has been granted, the next operation finds it cached and keeps it, so two operations in a row request at most one token |
| Contabo.ContaboProvider.EnsureToken | backend/providers/contabo.py:54-55 | a token is requested exactly when none is cached; afterwards the cache is `TokenAfter` of the old one (kept, the granted token, or unchanged after a refusal), and a refusal raises `TokenFailure` |
| Contabo.ContaboProvider.CreateLinuxInstance | backend/providers/contabo.py:40-84 | the mock when either credential is missing, the cache untouched; otherwise a token is requested exactly when none is cached, the cache becomes the granted token or is kept, a refused request raises `TokenFailure`, and then a pending server on 201 or "Contabo API error: …" |
| Contabo.ContaboProvider.RebootInstance | backend/providers/contabo.py:123-142 | true without a client id, the cache untouched; otherwise a token is requested exactly when none is cached, the cache becomes the granted token or is kept, a refused request raises `TokenFailure`, and then whether the restart answered 201 |
| Contabo.ContaboProvider.DeleteInstance | backend/providers/contabo.py:144-162 | true without a client id, the cache untouched; otherwise a token is requested exactly when none is cached, the cache becomes the granted token or is kept, a refused request raises `TokenFailure`, and then whether the delete answered 204 |
| Vultr.MockServer | backend/providers/vultr.py:17-27 | the stand-in id is "mock-vultr-" and the order id; user "Administrator", active |
| Vultr.ReadyServer | backend/providers/vultr.py:73-79 | the ready server carries the polled id and address, user "Administrator", the default password or "" when absent |
| Vultr.IsReady | backend/providers/vultr.py:69-71 | a poll is ready when it answered 200 with `server_status` "ok" and an address that is neither empty nor "0.0.0.0" |
| Vultr.FirstReady | backend/providers/vultr.py:59-71 | the first of the 30 polls showing status 200, server_status "ok" and a real address; none exactly when no poll is ready |
| Vultr.WaitForInstanceReady | backend/providers/vultr.py:54-84 | the loop returns the first ready poll's server after that many requests, or raises the timeout after 30 |
| Vultr.CreateWindowsInstance | backend/providers/vultr.py:15-52 | the mock without a key; "Vultr API error: …" unless the create answers 202; otherwise success exactly when a poll is ready |
| Vultr.DeleteInstance | backend/providers/vultr.py:86-96 | true exactly when there is no key or the delete answered 204 |
| Vultr.RebootInstance | backend/providers/vultr.py:98-108 | true exactly when there is no key or the reboot answered 204 |
| ProvisioningService.OSValue | backend/services/provisioning.py:7-9 | the enum values are "windows" and "linux" |
| ProvisioningService.ParseOSType | backend/services/provisioning.py:7-9 | `OSType(s)` succeeds exactly for the two values |
| ProvisioningService.OSTypeRoundTrip | backend/services/provisioning.py:7-9 | parsing a member's value gives the member, and a parsed value is the string given |
| ProvisioningService.ProvisionRdp | backend/services/provisioning.py:16-25 | Windows uses Vultr's answer and everything else Contabo's; a provider error is re-raised prefixed "Provisioning failed: " |
| ProvisioningService.TerminateRdp | backend/services/provisioning.py:27-34 | "vultr" and "contabo" give their client's delete answer; any other name raises |
| ProvisioningService.RebootRdp | backend/services/provisioning.py:36-43 | the same routing for reboot |
| ProvisioningService.UnknownProviderAlwaysRaises | backend/services/provisioning.py:33-34 | a record with an unknown provider can never be terminated or rebooted |
| Paystack.InitializeTransaction | backend/services/paystack.py:13-38 | without a key, a mock checkout echoing the reference; with one, the API's answer to exactly the four arguments |
| Paystack.VerifyTransaction | backend/services/paystack.py:40-52 | without a key, a successful payment of the reference; with one, the API's answer |
| Paystack.VerifyWebhookSignature | backend/services/paystack.py:54-65 | everything passes without a key; with one, a signature passes exactly when it equals the payload's HMAC-SHA512 hex digest |
| Paystack.SignatureIsUnique | backend/services/paystack.py:62-65 | with a key, at most one signature passes for a payload |
| EmailService.NewConfig | backend/services/email.py:8-13 | each setting is the environment value or its default (SendGrid, 587, noreply@nemordp.com); username and password have none |
| EmailService.OsLabel | backend/services/email.py:22-26 | the label has no dot, is no longer than the input, and is already title-cased |
| EmailService.LabelOfDotted | backend/services/email.py:22 | an enum's `str` ("OSType.WINDOWS") labels as its member name title-cased |
| EmailService.WindowsLabel | backend/services/email.py:22 | "windows" is labelled "Windows" |
| EmailService.LinuxLabel | backend/services/email.py:22 | "linux" is labelled "Linux" |
| EmailService.SendRdpCredentials | backend/services/email.py:15-119 | nothing is sent exactly when no SMTP username is set; otherwise the message goes to the user from the configured sender with the server's address, user, password and port 3389, and an SMTP failure is swallowed |
| InstancesRouter.MyInstances | backend/routers/instances.py:27-34 | every listed row is the caller's and from the table, and every row of the caller's is listed |
| InstancesRouter.MyInstancesCount | backend/routers/instances.py:27-34 | each row appears as many times as in the table when it is the caller's, and not at all otherwise |
| InstancesRouter.MyInstancesAppend | backend/routers/instances.py:27-34 | the list keeps table order: a row added to the table comes last, exactly when it is the caller's |
| InstancesRouter.FindOwned | backend/routers/instances.py:45 | the first row with that id owned by the caller, or none exactly when there is no such row |
| InstancesRouter.FoundIsListed | backend/routers/instances.py:45-63 | an instance a route acts on is one the caller's list shows |
| InstancesRouter.RebootInstance | backend/routers/instances.py:39-55 | 404 unless the caller owns the id; a provider exception escapes; false is a 500; true answers "rebooting" |
| InstancesRouter.RebootOfOthersInstanceIs404 | backend/routers/instances.py:45-47 | an id the caller does not own is a 404 whatever the providers would do |
| InstancesRouter.TerminateInstance | backend/routers/instances.py:57-75 | 404 unless owned; on a true answer only that row becomes "terminated"; on false or an exception the table is unchanged |
| ExpiryTask.ExpireRow | backend/tasks/expiry.py:16-38 | a row changes exactly when it is active, past its expiry, and its provider confirms; the change is to "terminated" |
| ExpiryTask.Sweep | backend/tasks/expiry.py:23-38 | a pass treats each row by itself and keeps the table's length |
| ExpiryTask.CheckExpiredInstances | backend/tasks/expiry.py:8-42 | the loop leaves the table equal to one pass over the old table and touches no other table |
| ExpiryTask.SweepOnlyTerminatesActive | backend/tasks/expiry.py:17-32 | a pass changes only statuses, only from "active" to "terminated" |
| ExpiryTask.SweepLeavesOnlyUnconfirmed | backend/tasks/expiry.py:23-38 | after a pass every row still selected is one whose provider would not confirm |
| ExpiryTask.SweepIdempotent | backend/tasks/expiry.py:14-40 | a second pass with the same clock and provider answers changes nothing |
| ExpiryTask.SweepKeepsUnexpired | backend/tasks/expiry.py:16-19 | a row that is not active or not past its expiry is never touched |
| ProvisioningTask.RetryCountdown | backend/tasks/provisioning.py:67 | the countdown is at least 60 seconds |
| ProvisioningTask.CountdownDoubles | backend/tasks/provisioning.py:67 | the first retry waits 60 seconds and each next one twice as long |
| ProvisioningTask.OnFailure | backend/tasks/provisioning.py:9-71 | the intended handler: a retry with the countdown exactly while fewer than 3 retries have happened, otherwise the provider's own error |
| ProvisioningTask.FailuresStopAfterMaxRetries | backend/tasks/provisioning.py:9-71 | runs 0-2 retry and run 3 gives up with its error |
| ProvisioningTask.OnFailureAsWritten | backend/tasks/provisioning.py:65-71 | as written: the same retry is scheduled, and the run always ends with `NameError` |
| ProvisioningTask.AsWrittenLosesProviderError | backend/tasks/provisioning.py:68-70 | on the last run, the handler as written raises something other than the provider's error |
| ProvisioningTask.ProviderFor | backend/tasks/provisioning.py:23 | the record names "vultr" exactly for Windows and "contabo" exactly for Linux |
| ProvisioningTask.RecordRoutesToCreatingProvider | backend/tasks/provisioning.py:23 | a record later terminated or rebooted reaches the provider that created its server |
| ProvisioningTask.WithDetails | backend/tasks/provisioning.py:42-46 | the five keys of the provider's answer are copied in and every other column is kept |
| ProvisioningTask.ProvisionRdpTask | backend/tasks/provisioning.py:9-73 | a bad OS string fails before any row is written; otherwise one row is appended and earlier rows are kept; on success it carries the server and the email is sent; on failure the row is "failed", no email is sent, and the run ends as written |
| BillingRouter.DetectOS | backend/routers/billing.py:30 | "windows" exactly when the lower-cased plan mentions "server" or "basic", otherwise "linux" |
| BillingRouter.DetectOSIgnoresCase | backend/routers/billing.py:30 | the guess does not depend on the plan's case |
| BillingRouter.DetectedOSParses | backend/routers/billing.py:30-49 | the guessed OS is always one the task accepts |
| BillingRouter.DashboardPlanGetsWindows | backend/routers/billing.py:30 | the dashboard's "basic_windows" gets Windows |
| BillingRouter.BasicPlanGetsWindows | backend/routers/billing.py:30 | "basic" gets Windows |
| BillingRouter.GpuPlanGetsLinux | backend/routers/billing.py:30 | "gpu" gets Linux |
| BillingRouter.DepositAddress | backend/routers/billing.py:64-72 | BTC, ETH and USDT each get their own fixed address, and any other type gets "Invalid Crypto Type" |
| BillingRouter.InitiatePayment | backend/routers/billing.py:20-78 | Paystack: a checkout for 150000 kobo whose URL is returned, and the task is queued exactly when there is no key; crypto: the type is required and its address is returned; any other method is a 400 |
| BillingRouter.DevCheckoutQueuesTheReportedOrder | backend/routers/billing.py:45-58 | without a key, the queued task carries the reference the client is given, for the caller's id and email |
| BillingRouter.BillingWebhook | backend/routers/billing.py:80-83 | the billing webhook acknowledges everything |
| WebhooksRouter.TaskFor | backend/routers/webhooks.py:55-61 | the queued task carries the reference, the metadata's user and plan, the customer email, and "linux" when no OS is given |
| WebhooksRouter.PaystackWebhook | backend/routers/webhooks.py:12-63 | 400 without a header when a key is set, 400 for a bad signature; a successful charge whose metadata is not an object raises (a 500); a task is queued exactly for a valid, provisionable event whose reference no instance carries |
| WebhooksRouter.UnreadableMetadataFails | backend/routers/webhooks.py:41-42 | a successful charge with `null` or non-object metadata is never acknowledged and queues nothing |
| WebhooksRouter.QueuedOnlyWithValidSignature | backend/routers/webhooks.py:18-26 | with a key, nothing is queued without the body's digest as the header |
| WebhooksRouter.NoMetadataQueuesNothing | backend/routers/webhooks.py:41-46 | an event lacking the user id or the plan queues nothing |
| WebhooksRouter.RedeliveryProvisionsTwice | backend/routers/webhooks.py:50-52 | as written: after a delivery has been provisioned, the same event queues a second task |
| WebhooksRouter.PaystackWebhookOnce | backend/routers/webhooks.py:49-61 | the intended test: a task is queued exactly for a valid, provisionable event whose reference has not been queued before, and the reference is then recorded |
| WebhooksRouter.RedeliveryQueuesOnce | backend/routers/webhooks.py:49-52 | with the intended test, a second delivery queues nothing and answers "already_processed" |
| SupportRouter.CreateTicket | backend/routers/support.py:27-41 | the caller's new "open" ticket is stored with the next id and returned as stored |
| SupportRouter.OwnTickets | backend/routers/support.py:48 | every ticket kept is the caller's and from the table, and every ticket of the caller's is kept |
| SupportRouter.OwnTicketsCount | backend/routers/support.py:48 | each ticket appears as many times as in the table when it is the caller's, and not at all otherwise |
| SupportRouter.OwnTicketsAppend | backend/routers/support.py:48 | the filter keeps table order: a ticket added to the table comes last, exactly when it is the caller's |
| SupportRouter.InsertByCreated | backend/routers/support.py:48 | an insertion adds exactly the one ticket |
| SupportRouter.InsertKeepsNewestFirst | backend/routers/support.py:48 | inserting keeps the newest-first order |
| SupportRouter.SortNewestFirst | backend/routers/support.py:48 | the result is newest first and a permutation of the input |
| SupportRouter.GetTickets | backend/routers/support.py:43-48 | newest first, and a permutation of the caller's tickets |
| SupportRouter.GetTicketsMembers | backend/routers/support.py:48 | a ticket is listed exactly when it is the caller's |
| SupportRouter.NewTicketListedFirst | backend/routers/support.py:27-48 | a ticket just opened, newer than all others, heads the caller's list |
| AdminRouter.GetAdminUser | backend/routers/admin.py:12-25 | every caller is let through unchanged |
| AdminRouter.CountStatus | backend/routers/admin.py:33 | the count is at most the table's size and is zero exactly when no row has that status |
| AdminRouter.CountOpenTickets | backend/routers/admin.py:35 | at most the number of tickets; zero exactly when no ticket is open, and all of them exactly when every ticket is open |
| AdminRouter.CountOpenTicketsAppend | backend/routers/admin.py:35 | a ticket added to the table raises the count by one exactly when it is open |
| AdminRouter.NewTicketCountsAsOpen | backend/routers/admin.py:35 | every ticket the support route creates raises the open count by one |
| AdminRouter.GetAdminStats | backend/routers/admin.py:27-46 | totals are the table sizes; active and open counts are bounded by them; revenue is $15.00 per active instance |
| AdminRouter.CountStatusAppend | backend/routers/admin.py:33 | counting distributes over concatenation |
| AdminRouter.NewRecordDoesNotCountAsActive | backend/routers/admin.py:33-38 | recording a new instance changes neither the active count nor the revenue |
| AdminRouter.SweepNeverAddsActive | backend/routers/admin.py:33 | the expiry sweep never raises the active count |
| AdminRouter.GetAllUsers | backend/routers/admin.py:48-54 | the first min(n, 50) users, in table order |
| Web.ApiUrl | frontend/app/dashboard/page.tsx:36 | the configured API URL, or http://localhost:8000 when it is unset or empty |
| Web.Bearer | frontend/app/dashboard/page.tsx:39 | "Bearer " and the token, "null" when there is none |
| Web.NatText | frontend/app/dashboard/page.tsx:106 | a number in a template literal renders as a non-empty string of decimal digits |
| Web.NatTextRoundTrip | frontend/app/dashboard/page.tsx:106 | reading the digits back gives the number |
| Web.DecimalRoundTrip | frontend/app/dashboard/page.tsx:106-111 | the rendered id, minus sign included, is read back by the server as the same id, so distinct ids give distinct URLs |
| DashboardPage.ActionRequest | frontend/app/dashboard/page.tsx:104-115 | reboot is POST …/instances/{id}/reboot and terminate is DELETE …/instances/{id}, both with the bearer token and no body |
| DashboardPage.DeployRequest | frontend/app/dashboard/page.tsx:71-81 | POST …/billing/initiate with plan "basic_windows" and payment method "paystack" |
| DashboardPage.InFlightDisablesBoth | frontend/app/dashboard/page.tsx:191-199 | while an action on an instance is in flight, both its buttons are disabled |
| DashboardPage.RebootEnabled | frontend/app/dashboard/page.tsx:191 | Reboot is disabled when the instance is not active or has its own action in flight |
| DashboardPage.TerminateEnabled | frontend/app/dashboard/page.tsx:199 | Terminate is disabled when the instance is terminated or has its own action in flight |
| DashboardPage.CredentialsShown | frontend/app/dashboard/page.tsx:179 | the credentials column is filled only for an active instance |
| DashboardPage.RebootEnabledImpliesTerminateEnabled | frontend/app/dashboard/page.tsx:191-199 | Reboot enabled implies Terminate enabled; with another instance busy, Reboot is enabled exactly when active and Terminate exactly when not terminated |
| DashboardPage.Badge | frontend/app/dashboard/page.tsx:170-173 | green exactly for active, yellow for provisioning, red for terminated, gray for anything else |
| DashboardPage.IpCell | frontend/app/dashboard/page.tsx:168 | the address, or "Pending" when it is null or empty |
| DashboardPage.PasswordCell | frontend/app/dashboard/page.tsx:182 | the password cell is always the mask, so no password reaches the page |
| DashboardPage.DashboardPage.Mount | frontend/app/dashboard/page.tsx:27-61 | without a token: a redirect to login, no request, no interval; with one: one fetch and the interval started with that token |
| DashboardPage.DashboardPage.Tick | frontend/app/dashboard/page.tsx:57-59 | each tick fetches again with the mount-time token |
| DashboardPage.DashboardPage.Unmount | frontend/app/dashboard/page.tsx:61 | the interval is cleared |
| DashboardPage.DashboardPage.OnInstancesSettled | frontend/app/dashboard/page.tsx:42-52 | an OK answer replaces the whole list; a 401 only redirects; nothing else changes the list or the token; loading ends always; the empty message shows exactly for an empty answer |
| DashboardPage.DashboardPage.BeginDeploy | frontend/app/dashboard/page.tsx:65-81 | the flag is raised and the order is sent |
| DashboardPage.DashboardPage.EndDeploy | frontend/app/dashboard/page.tsx:83-93 | the started or failed alert for an answer, none for a network failure; the flag is lowered always |
| DashboardPage.DashboardPage.BeginAction | frontend/app/dashboard/page.tsx:96-115 | a declined confirmation changes nothing and sends nothing; otherwise that instance is marked busy and the request sent is the action's URL built from the same id in decimal |
| DashboardPage.DashboardPage.EndAction | frontend/app/dashboard/page.tsx:117-126 | the success or failure alert, the marker cleared always, the list untouched |
| DashboardPage.DashboardPage.DeployEnabled | frontend/app/dashboard/page.tsx:139 | the Deploy button is disabled while an order is in flight |
| DashboardPage.DashboardPage.ShowsEmptyMessage | frontend/app/dashboard/page.tsx:148 | the empty-list message shows once loaded with no instances |
| SupportPage.TicketsRequest | frontend/app/dashboard/support/page.tsx:30-34 | GET …/support/tickets with no body |
| SupportPage.CreateRequest | frontend/app/dashboard/support/page.tsx:64-71 | POST …/support/tickets whose JSON body is exactly the subject and the message |
| SupportPage.Badge | frontend/app/dashboard/support/page.tsx:152-154 | blue exactly for open, green for answered, gray otherwise |
| SupportPage.SupportPage.FetchTickets | frontend/app/dashboard/support/page.tsx:26-34 | one fetch with the token stored now |
| SupportPage.SupportPage.Mount | frontend/app/dashboard/support/page.tsx:48-55 | without a token: a redirect to login and no fetch; with one: one fetch |
| SupportPage.SupportPage.OnTicketsSettled | frontend/app/dashboard/support/page.tsx:35-45 | an OK answer replaces the whole list; a 401 only redirects; loading ends always |
| SupportPage.SupportPage.Toggle | frontend/app/dashboard/support/page.tsx:99 | the form's visibility is negated |
| SupportPage.SupportPage.SetSubject | frontend/app/dashboard/support/page.tsx:114 | the subject becomes the typed value; nothing else changes |
| SupportPage.SupportPage.SetMessage | frontend/app/dashboard/support/page.tsx:124 | the message becomes the typed value; nothing else changes |
| SupportPage.SupportPage.BeginSubmit | frontend/app/dashboard/support/page.tsx:57-71 | with both `required` fields non-empty, the flag is raised and the two fields are sent |
| SupportPage.SupportPage.EndSubmit | frontend/app/dashboard/support/page.tsx:73-86 | on success: alert, form hidden and emptied, list refetched; on failure: an alert, fields and form kept; the flag lowered always |
| SupportPage.SupportPage.SubmitEnabled | frontend/app/dashboard/support/page.tsx:130 | the submit button is disabled while a creation is in flight |
| SupportPage.SupportPage.ShowsEmptyState | frontend/app/dashboard/support/page.tsx:138 | "You have no support tickets." shows once loaded, with no tickets and the form hidden |
| AdminPage.StatsRequest | frontend/app/admin/page.tsx:41-43 | GET …/admin/stats with the bearer token |
| AdminPage.UsersRequest | frontend/app/admin/page.tsx:53-55 | GET …/admin/users with the bearer token |
| AdminPage.AfterStats | frontend/app/admin/page.tsx:44-50 | 401 and 403 leave for the dashboard; a thrown value or unparsable OK body stops; any other status goes on to the users |
| AdminPage.AdminPage.Mount | frontend/app/admin/page.tsx:29-68 | without a token: redirect to login, nothing fetched; otherwise stats set only from an OK answer, the users requested exactly when the stats step goes on, users set only from an OK answer, loading ended in every path; a fresh page refused with 401 or 403 shows "Access Denied" |
| AdminPage.AdminPage.View | frontend/app/admin/page.tsx:70-74 | loading screen exactly while loading, then "Access Denied" exactly when there are no stats |
| AdminPage.RefusedStatsNeverFetchUsers | frontend/app/admin/page.tsx:44-50 | a 401 or 403 for the statistics leaves for the dashboard, sends no users request and sets no statistics |
| AuthForm.StoredToken | frontend/components/AuthForm.tsx:56 | the access token as given, "undefined" when absent, "null" when it is `null` |
| AuthForm.StoredTokenEmptyOnlyForEmptyText | frontend/components/AuthForm.tsx:56 | the stored token is empty only when the server sent an empty string, so a missing or `null` token passes the pages' token checks |
| AuthForm.AuthRequest | frontend/components/AuthForm.tsx:29-47 | login posts a form with username = email and the password to /auth/login; register posts JSON email and password to /auth/register |
| AuthForm.SubmitError | frontend/components/AuthForm.tsx:49-61 | no error exactly for an OK answer that parses; a refusal gives its detail or "Authentication failed"; a thrown Error its message; anything else "An error occurred" |
| AuthForm.RefusalShowsMessage | frontend/components/AuthForm.tsx:51-53 | a refusal always leaves a non-empty error, the server's detail when it has one |
| AuthForm.AuthForm.BeginSubmit | frontend/components/AuthForm.tsx:18-47 | loading raised and the error cleared before the request for the mode is sent |
| AuthForm.AuthForm.SetEmail | frontend/components/AuthForm.tsx:97 | while the inputs are enabled, the email becomes the typed value; nothing else changes |
| AuthForm.AuthForm.SetPassword | frontend/components/AuthForm.tsx:111 | while the inputs are enabled, the password becomes the typed value; nothing else changes |
| AuthForm.AuthForm.EndSubmit | frontend/components/AuthForm.tsx:49-64 | on success the token is stored and the browser goes to /dashboard; otherwise the error is set and token and history are unchanged; loading ends always |
| AuthForm.AuthForm.InputsEnabled | frontend/components/AuthForm.tsx:94-121 | the inputs and the button are disabled exactly while a submission is in flight |

## Left out

- Python `print` logging, `console.error`, `asyncio.sleep` and the poll's 10-second wait, and `db.close()` are not modelled. They change no state the model tracks.
- Vultr.CreateWindowsInstance, Vultr.WaitForInstanceReady, Vultr.DeleteInstance, Vultr.RebootInstance: an `httpx` exception (connection error, the 30- and 10-second timeouts) and a `response.json()` that fails are not modelled. Each HTTP answer is a status and body that arrived, so these members never raise where the client call or the JSON parse would, and the poll never raises mid-loop.
- Contabo.ContaboProvider.GetAccessToken, Contabo.ContaboProvider.CreateLinuxInstance, Contabo.ContaboProvider.RebootInstance, Contabo.ContaboProvider.DeleteInstance: the same. An `httpx` exception and a failing `response.json()` (including a 200 token answer without `access_token`) are not modelled.
- Common.Lower, Common.Title, Common.TitleFrom: they follow Python's `str.lower` and `str.title` on ASCII letters only. Other letters are kept as they are, where Python maps them by Unicode case rules.
- Database commits are not modelled separately: a change made through `Database.Db` is the committed state. Sessions, transactions and concurrent writers are left out.
- Celery delivery, the beat schedule and the timing of retries are left out. A queued task is a `TaskArgs` value, and a run is one call of `ProvisionRdpTask`.
- Concurrency between frontend events (two overlapping actions, a poll that settles after unmount) is left out: each event is one method call in the order given.
- The HTML of the credentials email and the cloud-init script are left out. Only the values rendered into the email are modelled.
- EmailService.NewConfig: `SMTP_PORT` is taken as an integer already read; the `ValueError` of `int()` on a non-numeric value is not modelled.
- EmailService.Subject: no contract of its own; its label part is `EmailService.OsLabel`.
- BillingRouter.InitiatePayment: the crypto amount 0.001 is a constant `real`, and the order id is a parameter rather than a fresh UUID.
- AdminRouter.GetAdminStats: the revenue is a whole number of cents (`active × 1500`) where the source computes the float `active × 15.00`.
- WebhooksRouter.PaystackWebhook: a body that is not JSON, or an event missing `data`, `reference` or `customer.email`, would raise; the model takes the event already decoded with those fields present. The metadata user id is taken as an integer. Metadata that is not an object is modelled as one case that raises; what it is (`null`, a string, a list) is not distinguished.
- AuthForm.StoredToken: a non-string `access_token` other than `null` (a number, an object) would be stored as its string conversion; the model has absent, `null` and strings only.
- AuthForm.AuthForm.BeginSubmit: the browser's `type="email"` check, which blocks a submission whose non-empty email is malformed, is not modelled; the form is submitted with any field values.
- InstancesRouter.MyInstances, AdminRouter.GetAllUsers: neither query has an `ORDER BY`, so the database may return the rows, and pick the 50 users, in any order. The model takes table order, which is one of the allowed outcomes. InstancesRouter.MyInstancesAppend states that order and holds only under that choice.
- ProvisioningService.ParseOSType, ProvisioningService.TerminateRdp, ProvisioningService.RebootRdp, Contabo.ContaboProvider.TokenFailure: the error texts begin with the exception's type name ("ValueError: …", "UnicodeEncodeError"), where Python's `str(e)` (wrapped by `ProvisioningService.ProvisionRdp` into "Provisioning failed: …") is the message alone ("'x' is not a valid OSType", "'ascii' codec can't encode character …"). The codec's message names the character and its position, and the model does not reproduce it.
- AuthForm.SubmitError: `detail` is taken as a string; a non-string `detail` (FastAPI's validation errors are a list) would become "[object Object]" and is not modelled.
- AuthForm: the `endpoint` variable (frontend/components/AuthForm.tsx:24) is computed and never used, so it is not modelled.
- SupportPage: the `str` type of the `Ticket` interface (frontend/app/dashboard/support/page.tsx:11-14) is a typing slip with no effect at run time; the fields are strings.
- The frontend's rendering beyond the modelled gates, badges and cells (layout, dates, the fixed "$0.00" balance) is left out.
- Vultr and Contabo request payloads (region, plan and image ids) are constants sent to the provider. They are not modelled because nothing in the program reads them back.
- Paystack.VerifyWebhookSignature: HMAC-SHA512 itself is a parameter (`hmacHex`), not computed.

## Findings

| source | as written | input that shows it | evidently intended | confidence | as-written member | corrected member |
|---|---|---|---|---|---|---|
| backend/tasks/provisioning.py:66-71 | `except MaxRetriesExceededError:` names a class that is never imported, so matching the exception raised by `self.retry` raises `NameError` | any failed run, e.g. run 3 failing with "Provisioning failed: Vultr API error: quota exceeded" | the retry is scheduled while fewer than 3 retries have happened; after that the task fails with the provider's error | high, not executed | ProvisioningTask.OnFailureAsWritten, ProvisioningTask.AsWrittenLosesProviderError | ProvisioningTask.OnFailure, ProvisioningTask.FailuresStopAfterMaxRetries |
| backend/routers/webhooks.py:49-52 | the idempotency check looks for an instance whose `provider_id` is the payment reference, but the task stores `provider_id` as "pending" and then the provider's server id (backend/tasks/provisioning.py:24,42) | a `charge.success` for reference "ref-1", delivered again after its server was created by Contabo's stand-in | a second delivery of a reference already queued answers "already_processed" and queues nothing | high, not executed | WebhooksRouter.PaystackWebhook, WebhooksRouter.RedeliveryProvisionsTwice | WebhooksRouter.PaystackWebhookOnce, WebhooksRouter.RedeliveryQueuesOnce |
