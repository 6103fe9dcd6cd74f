/** The `/admin` routes: platform statistics and the user list. The
    tables are passed as the sequences of their rows. */
module AdminRouter {
  import opened Common
  import opened Models
  import ExpiryTask

  /** At most this many users are listed. */
  const UserListLimit := 50
  /** The mock price of an active instance, $15.00, in cents. */
  const InstancePriceCents := 1500

  /** `get_admin_user`: the `"admin" in email` test and the fallback both
      return the caller, so every authenticated user is let through. */
  function GetAdminUser(current: User): (admin: User)
    ensures admin == current
  {
    if Contains(current.email, "admin") then current else current
  }

  /** The number of instance rows whose status is `status`. */
  function CountStatus(rows: seq<RDPInstance>, status: string): (n: nat)
    ensures n <= |rows|
    ensures n == 0 <==> forall k :: 0 <= k < |rows| ==> rows[k].status != status
  {
    if rows == [] then 0
    else
      assert forall k :: 1 <= k < |rows| ==> rows[k] == rows[1..][k - 1];
      (if rows[0].status == status then 1 else 0) + CountStatus(rows[1..], status)
  }

  /** The number of tickets whose status is "open". */
  function CountOpenTickets(tickets: seq<Ticket>): (n: nat)
    ensures n <= |tickets|
    ensures n == 0 <==> forall k :: 0 <= k < |tickets| ==> tickets[k].status != TicketOpen
    ensures n == |tickets| <==> forall k :: 0 <= k < |tickets| ==> tickets[k].status == TicketOpen
  {
    if tickets == [] then 0
    else
      assert forall k :: 1 <= k < |tickets| ==> tickets[k] == tickets[1..][k - 1];
      (if tickets[0].status == TicketOpen then 1 else 0) + CountOpenTickets(tickets[1..])
  }

  /** A ticket added to the table raises the open count by one exactly
      when it is open. */
  lemma {:induction false} CountOpenTicketsAppend(tickets: seq<Ticket>, t: Ticket)
    ensures CountOpenTickets(tickets + [t]) == CountOpenTickets(tickets) + (if t.status == TicketOpen then 1 else 0)
  {
    if tickets == [] {
      assert [t][1..] == [];
    } else {
      assert (tickets + [t])[1..] == tickets[1..] + [t];
      CountOpenTicketsAppend(tickets[1..], t);
    }
  }

  /** Every ticket opened through the support route counts: the statistic
      rises by one with each one created. */
  lemma NewTicketCountsAsOpen(tickets: seq<Ticket>, id: int, userId: int, subject: string, message: string,
                              now: int)
    ensures CountOpenTickets(tickets + [NewTicket(id, Some(userId), subject, message, now)])
            == CountOpenTickets(tickets) + 1
  {
    CountOpenTicketsAppend(tickets, NewTicket(id, Some(userId), subject, message, now));
  }

  datatype AdminStats = AdminStats(totalUsers: nat, activeInstances: nat, totalInstances: nat,
                                   openTickets: nat, revenueCents: nat)

  /** `get_admin_stats`. */
  function GetAdminStats(users: seq<User>, instances: seq<RDPInstance>, tickets: seq<Ticket>): (s: AdminStats)
    ensures s.totalUsers == |users| && s.totalInstances == |instances|
    ensures s.activeInstances <= s.totalInstances && s.openTickets <= |tickets|
    ensures s.activeInstances == CountStatus(instances, StatusActive)
    ensures s.openTickets == CountOpenTickets(tickets)
    ensures s.revenueCents == s.activeInstances * InstancePriceCents
  {
    var active := CountStatus(instances, StatusActive);
    AdminStats(|users|, active, |instances|, CountOpenTickets(tickets), active * InstancePriceCents)
  }

  /** Counting distributes over the concatenation of two tables. */
  lemma {:induction false} CountStatusAppend(a: seq<RDPInstance>, b: seq<RDPInstance>, status: string)
    ensures CountStatus(a + b, status) == CountStatus(a, status) + CountStatus(b, status)
  {
    if a != [] {
      assert (a + b)[1..] == a[1..] + b;
      CountStatusAppend(a[1..], b, status);
    } else {
      assert a + b == b;
    }
  }

  /** Recording a new "provisioning" instance leaves the active count, and
      so the revenue, as it was. */
  lemma NewRecordDoesNotCountAsActive(rows: seq<RDPInstance>, row: RDPInstance)
    requires row.status == StatusProvisioning
    ensures CountStatus(rows + [row], StatusActive) == CountStatus(rows, StatusActive)
  {
    CountStatusAppend(rows, [row], StatusActive);
    assert [row][1..] == [];
  }

  /** The expiry sweep never raises the number of active instances. */
  lemma {:induction false} SweepNeverAddsActive(rows: seq<RDPInstance>, now: int,
                                                terminate: (string, string) -> Result<bool>)
    ensures CountStatus(ExpiryTask.Sweep(rows, now, terminate), StatusActive) <= CountStatus(rows, StatusActive)
  {
    if rows != [] {
      var swept := ExpiryTask.Sweep(rows, now, terminate);
      assert swept[1..] == ExpiryTask.Sweep(rows[1..], now, terminate);
      SweepNeverAddsActive(rows[1..], now, terminate);
    }
  }

  /** `get_all_users`: the first 50 rows of the table (the table's own
      order; the query sets none). */
  function GetAllUsers(users: seq<User>): (r: seq<User>)
    ensures |r| == if |users| < UserListLimit then |users| else UserListLimit
    ensures r == users[..|r|]
  {
    if |users| <= UserListLimit then users else users[..UserListLimit]
  }
}
