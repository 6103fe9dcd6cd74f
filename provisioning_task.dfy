/** The Celery task `provision_rdp_task` (declared with `max_retries=3`):
    it records a "provisioning" instance, asks the provider for a server,
    writes the server's credentials into the record and emails them. On
    failure the record is marked "failed" and a retry is scheduled with an
    exponential countdown. What the providers return or raise, the email
    settings and whether SMTP raises are parameters; `retries` is
    `self.request.retries`, the number of earlier runs of this task. */
module ProvisioningTask {
  import opened Common
  import opened Models
  import opened Database
  import opened ProvisioningService
  import EmailService

  const MaxRetries := 3

  function Pow2(n: nat): (r: nat)
    ensures r >= 1
  {
    if n == 0 then 1 else 2 * Pow2(n - 1)
  }

  /** `countdown=60 * (2 ** self.request.retries)`, in seconds. */
  function RetryCountdown(retries: nat): (r: nat)
    ensures r >= 60
  {
    60 * Pow2(retries)
  }

  /** Each retry waits twice as long as the one before. */
  lemma CountdownDoubles(retries: nat)
    ensures RetryCountdown(retries + 1) == 2 * RetryCountdown(retries)
    ensures RetryCountdown(0) == 60
  {
  }

  /** What happens after a failed run. Celery's `retry` schedules a new run
      while fewer than `max_retries` retries have happened, and raises
      `Retry` to end this run; past the limit it schedules nothing and the
      task fails with the original exception. */
  datatype RetryStep = Retry(countdown: nat) | GiveUp(error: string)

  function OnFailure(retries: nat, error: string): (r: RetryStep)
    ensures r.Retry? <==> retries < MaxRetries
    ensures r.Retry? ==> r.countdown == RetryCountdown(retries)
    ensures r.GiveUp? ==> r.error == error
  {
    if retries < MaxRetries then Retry(RetryCountdown(retries)) else GiveUp(error)
  }

  /** A task that keeps failing runs at most `MaxRetries + 1` times: the
      run numbered `MaxRetries` gives up with its own error. */
  lemma FailuresStopAfterMaxRetries(error: string)
    ensures OnFailure(MaxRetries, error) == GiveUp(error)
    ensures forall n: nat :: n < MaxRetries ==> OnFailure(n, error).Retry?
  {
  }

  const NameErrorMessage := "NameError: name 'MaxRetriesExceededError' is not defined"

  /** The failure handler as written: the retry is scheduled as Celery
      does, but the `except MaxRetriesExceededError` clause names a class
      that is never imported. Whichever exception `self.retry` raises,
      matching it against that clause raises `NameError`, so the task
      always ends with it. */
  datatype FailureAsWritten = FailureAsWritten(scheduledCountdown: Option<nat>, raised: string)

  function OnFailureAsWritten(retries: nat, error: string): (r: FailureAsWritten)
    ensures r.scheduledCountdown.Some? <==> OnFailure(retries, error).Retry?
    ensures r.scheduledCountdown.Some? ==> r.scheduledCountdown.value == RetryCountdown(retries)
    ensures r.raised == NameErrorMessage
  {
    FailureAsWritten(if retries < MaxRetries then Some(RetryCountdown(retries)) else None, NameErrorMessage)
  }

  /** The discrepancy: on the last allowed run, the handler as written
      raises `NameError` where the provider's own error was meant to
      surface, so the reason the provisioning failed is lost. */
  lemma AsWrittenLosesProviderError()
    ensures var e := "Provisioning failed: Vultr API error: quota exceeded";
            OnFailure(MaxRetries, e) == GiveUp(e) && OnFailureAsWritten(MaxRetries, e).raised != e
  {
  }

  /** The arguments the task is queued with. */
  datatype TaskArgs = TaskArgs(userId: int, orderId: string, osTypeStr: string, plan: string, userEmail: string)

  /** What a run ends with: `{"status": "success", "instance_id": …}` or,
      as written, a failure with the retry it scheduled and the `NameError`
      it raises. */
  datatype TaskOutcome = Succeeded(instanceId: int) | Failed(failure: FailureAsWritten)

  /** Windows servers are created at Vultr, every other system at Contabo. */
  function ProviderFor(os: OSType): (r: string)
    ensures r == "vultr" <==> os.Windows?
    ensures r == "contabo" <==> os.Linux?
  {
    match os
    case Windows => "vultr"
    case Linux => assert "contabo"[0] != "vultr"[0]; "contabo"
  }

  /** A record created by this task names the provider that created its
      server, so terminating or rebooting it later reaches that same
      provider. */
  lemma RecordRoutesToCreatingProvider(os: OSType, vultr: Result<bool>, contabo: Result<bool>)
    ensures RouteByProvider(ProviderFor(os), vultr, contabo) == (if os.Windows? then vultr else contabo)
  {
  }

  /** The record after step 3: the five keys of the provider's dict copied
      into it. */
  function WithDetails(row: RDPInstance, d: ServerDetails): (r: RDPInstance)
    ensures r.id == row.id && r.userId == row.userId && r.provider == row.provider
    ensures r.osType == row.osType && r.plan == row.plan && r.createdAt == row.createdAt
    ensures r.expiresAt == row.expiresAt
    ensures r.providerId == d.providerId && r.status == d.status
    ensures r.ipAddress == Some(d.ipAddress) && r.username == Some(d.username) && r.password == Some(d.password)
  {
    row.(providerId := d.providerId, ipAddress := Some(d.ipAddress), username := Some(d.username),
         password := Some(d.password), status := d.status)
  }

  /** One run of `provision_rdp_task`. `vultr` and `contabo` are what each
      provider's create call returns or raises; `mail` is what the email
      step did, if it was reached. */
  method ProvisionRdpTask(db: Db, args: TaskArgs, retries: nat, now: int,
                          vultr: Result<ServerDetails>, contabo: Result<ServerDetails>,
                          email: EmailService.Config, smtpRaises: bool)
    returns (outcome: TaskOutcome, mail: Option<EmailService.Effect>)
    requires db.Valid()
    modifies db
    ensures db.Valid()
    ensures db.users == old(db.users) && db.tickets == old(db.tickets)
    ensures ParseOSType(args.osTypeStr).Err? ==>
              db.instances == old(db.instances) && mail.None?
              && outcome == Failed(OnFailureAsWritten(retries, ParseOSType(args.osTypeStr).error))
    ensures ParseOSType(args.osTypeStr).Ok? ==>
              var os := ParseOSType(args.osTypeStr).value;
              var created := NewRDPInstance(old(db.nextInstanceId), Some(args.userId), ProviderFor(os), "pending",
                                            args.osTypeStr, args.plan, now);
              var result := ProvisionRdp(os, vultr, contabo);
              |db.instances| == |old(db.instances)| + 1
              && db.instances[..|old(db.instances)|] == old(db.instances)
              && (result.Ok? ==>
                    db.instances[|old(db.instances)|] == WithDetails(created, result.value)
                    && outcome == Succeeded(created.id)
                    && mail == Some(EmailService.SendRdpCredentials(email, args.userEmail, result.value,
                                                                   args.osTypeStr, smtpRaises)))
              && (result.Err? ==>
                    db.instances[|old(db.instances)|] == created.(status := StatusFailed)
                    && outcome == Failed(OnFailureAsWritten(retries, result.error)) && mail.None?)
  {
    var parsed := ParseOSType(args.osTypeStr);
    if parsed.Err? {
      return Failed(OnFailureAsWritten(retries, parsed.error)), None;
    }
    var os := parsed.value;
    var row := NewRDPInstance(0, Some(args.userId), ProviderFor(os), "pending", args.osTypeStr, args.plan, now);
    var added := db.AddInstance(row);
    var k := |db.instances| - 1;
    var result := ProvisionRdp(os, vultr, contabo);
    if result.Err? {
      db.SetInstanceStatus(k, StatusFailed);
      return Failed(OnFailureAsWritten(retries, result.error)), None;
    }
    db.UpdateInstance(k, WithDetails(added, result.value));
    mail := Some(EmailService.SendRdpCredentials(email, args.userEmail, result.value, args.osTypeStr, smtpRaises));
    outcome := Succeeded(added.id);
  }
}
