/** The three tables of the backend (`rdp_instances`, `tickets`, `users`).
    A column declared `nullable=False` is a plain value, a nullable column
    is an `Option`, and a column default is what the `New…` function puts
    in a fresh row. Timestamps are whole seconds since the epoch. */
module Models {
  import opened Common

  // Instance status values written by the backend.
  const StatusProvisioning := "provisioning"
  const StatusActive := "active"
  const StatusTerminated := "terminated"
  const StatusFailed := "failed"

  // Ticket status values documented on the column.
  const TicketOpen := "open"
  const TicketAnswered := "answered"
  const TicketClosed := "closed"

  /** A row of `rdp_instances`. `user_id` is a foreign key declared without
      `nullable=False`, so it may be null; `status` has a default and the
      code never writes null into it. */
  datatype RDPInstance = RDPInstance(
    id: int,
    userId: Option<int>,
    provider: string,
    providerId: string,
    ipAddress: Option<string>,
    username: Option<string>,
    password: Option<string>,
    osType: string,
    plan: string,
    status: string,
    createdAt: int,
    expiresAt: Option<int>)

  /** A fresh `RDPInstance` given only its required columns: `status` takes
      its default, `created_at` the insertion time, and every nullable
      column stays null. */
  function NewRDPInstance(id: int, userId: Option<int>, provider: string, providerId: string,
                          osType: string, plan: string, now: int): (r: RDPInstance)
    ensures r.status == StatusProvisioning && r.createdAt == now
    ensures r.ipAddress.None? && r.username.None? && r.password.None? && r.expiresAt.None?
    ensures r.id == id && r.userId == userId && r.provider == provider && r.providerId == providerId
    ensures r.osType == osType && r.plan == plan
  {
    RDPInstance(id, userId, provider, providerId, None, None, None, osType, plan,
                StatusProvisioning, now, None)
  }

  /** A row of `tickets`; `subject` and `message` are required. */
  datatype Ticket = Ticket(
    id: int,
    userId: Option<int>,
    subject: string,
    message: string,
    status: string,
    createdAt: int)

  /** A fresh `Ticket`: `status` takes its default "open". */
  function NewTicket(id: int, userId: Option<int>, subject: string, message: string, now: int): (r: Ticket)
    ensures r.status == TicketOpen && r.createdAt == now
    ensures r.id == id && r.userId == userId && r.subject == subject && r.message == message
  {
    Ticket(id, userId, subject, message, TicketOpen, now)
  }

  /** The ticket status values the column documents. */
  predicate DocumentedTicketStatus(s: string)
  {
    s == TicketOpen || s == TicketAnswered || s == TicketClosed
  }

  /** A row of `users`; `email` and `hashed_password` are required. */
  datatype User = User(
    id: int,
    email: string,
    hashedPassword: string,
    paystackCustomerId: Option<string>,
    cryptoWalletAddress: Option<string>,
    isActive: bool,
    createdAt: int)

  /** A fresh `User`: `is_active` takes its default true and the optional
      payment columns stay null. */
  function NewUser(id: int, email: string, hashedPassword: string, now: int): (r: User)
    ensures r.isActive && r.createdAt == now
    ensures r.paystackCustomerId.None? && r.cryptoWalletAddress.None?
    ensures r.id == id && r.email == email && r.hashedPassword == hashedPassword
  {
    User(id, email, hashedPassword, None, None, true, now)
  }

  // Primary keys: no two rows of a table share an id.

  ghost predicate UniqueInstanceIds(rows: seq<RDPInstance>)
  {
    forall i, j :: 0 <= i < j < |rows| ==> rows[i].id != rows[j].id
  }

  ghost predicate UniqueTicketIds(rows: seq<Ticket>)
  {
    forall i, j :: 0 <= i < j < |rows| ==> rows[i].id != rows[j].id
  }

  ghost predicate UniqueUserIds(users: seq<User>)
  {
    forall i, j :: 0 <= i < j < |users| ==> users[i].id != users[j].id
  }

  /** The `unique=True` constraint on `users.email`. */
  ghost predicate UniqueEmails(users: seq<User>)
  {
    forall i, j :: 0 <= i < j < |users| ==> users[i].email != users[j].email
  }

  predicate EmailTaken(users: seq<User>, email: string)
  {
    exists k :: 0 <= k < |users| && users[k].email == email
  }

  /** Inserting a user row: the database refuses a second row with an email
      already in the table (an integrity error) and otherwise appends it. */
  function InsertUser(users: seq<User>, u: User): (r: Result<seq<User>>)
    ensures r.Ok? <==> !EmailTaken(users, u.email)
    ensures r.Ok? ==> r.value == users + [u]
    ensures r.Err? ==> r.error == "IntegrityError"
  {
    if EmailTaken(users, u.email) then Err("IntegrityError") else Ok(users + [u])
  }

  /** Every successful insertion keeps emails unique. */
  lemma InsertUserKeepsEmailsUnique(users: seq<User>, u: User)
    requires UniqueEmails(users)
    requires InsertUser(users, u).Ok?
    ensures UniqueEmails(InsertUser(users, u).value)
  {
    var r := InsertUser(users, u).value;
    forall i, j | 0 <= i < j < |r| ensures r[i].email != r[j].email {
      if j == |users| {
        assert r[i] == users[i];
      }
    }
  }
}
