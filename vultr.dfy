/** The Vultr client that creates, reboots and deletes Windows servers.
    HTTP is abstracted: each call's response status (and the fields of its
    JSON body the code reads) is a parameter, and the readiness poll's
    answers are a function from the attempt number to the response. Without
    an API key every operation short-cuts to its development stand-in. */
module Vultr {
  import opened Common

  /** The poll gives up after this many attempts (10 seconds apart). */
  const MaxAttempts := 30

  const MockIp := "192.168.1.100"
  const MockPassword := "MockPassword123!"
  const WindowsUser := "Administrator"

  /** The fields of `response.json()["instance"]` a readiness poll reads;
      `default_password` may be absent. */
  datatype PolledInstance = PolledInstance(serverStatus: string, mainIp: string, defaultPassword: Option<string>)

  /** The answer to one `GET /instances/{id}`. */
  datatype PollResponse = PollResponse(status: int, instance: PolledInstance)

  /** A poll shows the server ready when it answered 200, its
      `server_status` is "ok" and it has a real address (non-empty and not
      "0.0.0.0"). */
  predicate IsReady(p: PollResponse)
  {
    p.status == 200 && p.instance.serverStatus == "ok"
    && p.instance.mainIp != "" && p.instance.mainIp != "0.0.0.0"
  }

  /** The development stand-in returned when no API key is configured. */
  function MockServer(orderId: string): (r: ServerDetails)
    ensures r.providerId == "mock-vultr-" + orderId
    ensures r.username == WindowsUser && r.status == "active"
  {
    ServerDetails("mock-vultr-" + orderId, MockIp, WindowsUser, MockPassword, "active")
  }

  /** The result built from the first ready poll. */
  function ReadyServer(instanceId: string, inst: PolledInstance): (r: ServerDetails)
    ensures r.providerId == instanceId && r.ipAddress == inst.mainIp
    ensures r.username == WindowsUser && r.status == "active"
    ensures r.password == OrElseAbsent(inst.defaultPassword, "")
  {
    ServerDetails(instanceId, inst.mainIp, WindowsUser, OrElseAbsent(inst.defaultPassword, ""), "active")
  }

  /** `dict.get(key, default)`: the default only when the key is absent (an
      empty string is returned as it is). */
  function OrElseAbsent(v: Option<string>, default: string): string
  {
    if v.Some? then v.value else default
  }

  /** The first attempt at or after `from` whose poll shows the server
      ready, if any attempt before the limit does. */
  function FirstReady(poll: nat -> PollResponse, from: nat): (r: Option<nat>)
    requires from <= MaxAttempts
    decreases MaxAttempts - from
    ensures r.Some? ==> from <= r.value < MaxAttempts && IsReady(poll(r.value))
    ensures r.Some? ==> forall k :: from <= k < r.value ==> !IsReady(poll(k))
    ensures r.None? <==> forall k :: from <= k < MaxAttempts ==> !IsReady(poll(k))
  {
    if from == MaxAttempts then None
    else if IsReady(poll(from)) then Some(from)
    else FirstReady(poll, from + 1)
  }

  /** `_wait_for_instance_ready`: polls until a ready answer or the attempt
      limit. `polls` is the number of GET requests issued. */
  method WaitForInstanceReady(instanceId: string, poll: nat -> PollResponse)
    returns (r: Result<ServerDetails>, polls: nat)
    ensures polls <= MaxAttempts
    ensures FirstReady(poll, 0).Some? ==>
              var k := FirstReady(poll, 0).value;
              r == Ok(ReadyServer(instanceId, poll(k).instance)) && polls == k + 1
    ensures FirstReady(poll, 0).None? ==>
              r == Err("Timeout waiting for instance to be ready") && polls == MaxAttempts
  {
    var attempt := 0;
    while attempt < MaxAttempts
      invariant 0 <= attempt <= MaxAttempts
      invariant FirstReady(poll, 0) == FirstReady(poll, attempt)
    {
      var response := poll(attempt);
      if IsReady(response) {
        return Ok(ReadyServer(instanceId, response.instance)), attempt + 1;
      }
      attempt := attempt + 1;
    }
    return Err("Timeout waiting for instance to be ready"), MaxAttempts;
  }

  /** `create_windows_instance`. `createStatus` and `createdId` are the
      status and the `instance.id` of the POST's answer, `errorText` its
      body text. */
  method CreateWindowsInstance(apiKey: Option<string>, orderId: string, createStatus: int,
                               createdId: string, errorText: string, poll: nat -> PollResponse)
    returns (r: Result<ServerDetails>, polls: nat)
    ensures !Truthy(apiKey) ==> r == Ok(MockServer(orderId)) && polls == 0
    ensures Truthy(apiKey) && createStatus != 202 ==>
              r == Err("Vultr API error: " + errorText) && polls == 0
    ensures Truthy(apiKey) && createStatus == 202 ==>
              (r.Ok? <==> FirstReady(poll, 0).Some?) && 1 <= polls <= MaxAttempts
    ensures Truthy(apiKey) && createStatus == 202 && r.Ok? ==>
              r.value == ReadyServer(createdId, poll(FirstReady(poll, 0).value).instance)
  {
    if !Truthy(apiKey) {
      return Ok(MockServer(orderId)), 0;
    }
    if createStatus == 202 {
      r, polls := WaitForInstanceReady(createdId, poll);
    } else {
      return Err("Vultr API error: " + errorText), 0;
    }
  }

  /** `delete_instance`: true without a key, else whether the DELETE
      answered 204. */
  function DeleteInstance(apiKey: Option<string>, status: int): (ok: bool)
    ensures ok <==> !Truthy(apiKey) || status == 204
  {
    if !Truthy(apiKey) then true else status == 204
  }

  /** `reboot_instance`: true without a key, else whether the reboot POST
      answered 204. */
  function RebootInstance(apiKey: Option<string>, status: int): (ok: bool)
    ensures ok <==> !Truthy(apiKey) || status == 204
  {
    if !Truthy(apiKey) then true else status == 204
  }
}
