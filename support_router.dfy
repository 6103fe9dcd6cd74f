/** The `/support` routes: open a ticket, and list the caller's tickets
    newest first. */
module SupportRouter {
  import opened Common
  import opened Models
  import opened Database

  /** The request body `TicketCreate`. */
  datatype TicketCreate = TicketCreate(subject: string, message: string)

  /** `create_ticket`: a new "open" ticket of the caller, stored with the
      next id and the insertion time, and returned as stored. */
  method CreateTicket(db: Db, ticket: TicketCreate, userId: int, now: int) returns (r: Ticket)
    requires db.Valid()
    modifies db
    ensures db.Valid()
    ensures r == NewTicket(old(db.nextTicketId), Some(userId), ticket.subject, ticket.message, now)
    ensures db.tickets == old(db.tickets) + [r]
    ensures db.users == old(db.users) && db.instances == old(db.instances)
  {
    r := db.AddTicket(NewTicket(0, Some(userId), ticket.subject, ticket.message, now));
  }

  /** Newest first: creation times never increase along the sequence. */
  predicate NewestFirst(s: seq<Ticket>)
  {
    forall i, j :: 0 <= i < j < |s| ==> s[i].createdAt >= s[j].createdAt
  }

  /** The caller's tickets in table order (`filter(user_id == caller)`). */
  function OwnTickets(rows: seq<Ticket>, userId: int): (r: seq<Ticket>)
    ensures |r| <= |rows|
    ensures forall k :: 0 <= k < |r| ==> r[k].userId == Some(userId) && r[k] in rows
    ensures forall k :: 0 <= k < |rows| && rows[k].userId == Some(userId) ==> rows[k] in r
  {
    if rows == [] then []
    else
      var rest := OwnTickets(rows[1..], userId);
      assert forall k :: 1 <= k < |rows| ==> rows[k] == rows[1..][k - 1];
      if rows[0].userId == Some(userId) then [rows[0]] + rest else rest
  }

  /** Each row is listed as many times as the table holds it when it is
      the caller's, and not at all otherwise. */
  lemma {:induction false} OwnTicketsCount(rows: seq<Ticket>, x: Ticket, userId: int)
    ensures multiset(OwnTickets(rows, userId))[x] == (if x.userId == Some(userId) then multiset(rows)[x] else 0)
  {
    if rows != [] {
      assert rows == [rows[0]] + rows[1..];
      OwnTicketsCount(rows[1..], x, userId);
    }
  }

  /** The filter keeps table order: a ticket added to the table comes after
      the caller's earlier tickets, exactly when it is the caller's. */
  lemma {:induction false} OwnTicketsAppend(rows: seq<Ticket>, x: Ticket, userId: int)
    ensures OwnTickets(rows + [x], userId) == OwnTickets(rows, userId) + (if x.userId == Some(userId) then [x] else [])
  {
    if rows == [] {
      assert [x][1..] == [];
    } else {
      assert (rows + [x])[1..] == rows[1..] + [x];
      OwnTicketsAppend(rows[1..], x, userId);
    }
  }

  /** Every ticket of `s` was created at or before `bound`. */
  predicate CreatedNoLaterThan(s: seq<Ticket>, bound: int)
  {
    forall k :: 0 <= k < |s| ==> s[k].createdAt <= bound
  }

  /** Places a ticket in a newest-first sequence after every newer ticket. */
  function InsertByCreated(t: Ticket, s: seq<Ticket>): (r: seq<Ticket>)
    ensures |r| == |s| + 1
    ensures multiset(r) == multiset(s) + multiset{t}
  {
    if s == [] then [t]
    else if s[0].createdAt <= t.createdAt then [t] + s
    else
      assert s == [s[0]] + s[1..];
      [s[0]] + InsertByCreated(t, s[1..])
  }

  /** Inserting keeps a bound that the ticket and the sequence both meet. */
  lemma {:induction false} InsertKeepsBound(t: Ticket, s: seq<Ticket>, bound: int)
    requires CreatedNoLaterThan(s, bound) && t.createdAt <= bound
    ensures CreatedNoLaterThan(InsertByCreated(t, s), bound)
  {
    if s != [] && s[0].createdAt > t.createdAt {
      InsertKeepsBound(t, s[1..], bound);
    }
  }

  /** Inserting into a newest-first sequence keeps it newest first. */
  lemma {:induction false} InsertKeepsNewestFirst(t: Ticket, s: seq<Ticket>)
    requires NewestFirst(s)
    ensures NewestFirst(InsertByCreated(t, s))
  {
    if s != [] && s[0].createdAt > t.createdAt {
      var rest := InsertByCreated(t, s[1..]);
      InsertKeepsNewestFirst(t, s[1..]);
      InsertKeepsBound(t, s[1..], s[0].createdAt);
      var r := [s[0]] + rest;
      forall i, j | 0 <= i < j < |r| ensures r[i].createdAt >= r[j].createdAt {
        if i > 0 {
          assert r[i] == rest[i - 1] && r[j] == rest[j - 1];
        }
      }
    }
  }

  /** `order_by(created_at.desc())`: a newest-first arrangement of the
      rows. Rows created at the same time may come in any order from the
      database; this picks one. */
  function SortNewestFirst(s: seq<Ticket>): (r: seq<Ticket>)
    ensures NewestFirst(r)
    ensures multiset(r) == multiset(s)
  {
    if s == [] then []
    else
      assert s == [s[0]] + s[1..];
      var sorted := SortNewestFirst(s[1..]);
      InsertKeepsNewestFirst(s[0], sorted);
      InsertByCreated(s[0], sorted)
  }

  /** `get_tickets`: the caller's tickets, newest first. */
  function GetTickets(rows: seq<Ticket>, userId: int): (r: seq<Ticket>)
    ensures NewestFirst(r)
    ensures multiset(r) == multiset(OwnTickets(rows, userId))
  {
    SortNewestFirst(OwnTickets(rows, userId))
  }

  /** The list holds exactly the caller's tickets. */
  lemma GetTicketsMembers(rows: seq<Ticket>, userId: int, t: Ticket)
    ensures t in GetTickets(rows, userId) <==> t in rows && t.userId == Some(userId)
  {
    var own := OwnTickets(rows, userId);
    var r := GetTickets(rows, userId);
    assert t in r <==> t in multiset(r);
    assert t in own <==> t in multiset(own);
    if t in rows && t.userId == Some(userId) {
      var k :| 0 <= k < |rows| && rows[k] == t;
      assert t in own;
    }
    if t in own {
      var k :| 0 <= k < |own| && own[k] == t;
    }
  }

  /** A ticket just opened by the caller, stamped later than every other
      ticket, heads the caller's list. */
  lemma NewTicketListedFirst(rows: seq<Ticket>, t: Ticket, userId: int)
    requires t.userId == Some(userId)
    requires forall k :: 0 <= k < |rows| ==> rows[k].createdAt < t.createdAt
    ensures var r := GetTickets(rows + [t], userId);
            |r| > 0 && r[0] == t
  {
    var all := rows + [t];
    assert all[|rows|] == t;
    var r := GetTickets(all, userId);
    GetTicketsMembers(all, userId, t);
    assert t in r;
    var i :| 0 <= i < |r| && r[i] == t;
    GetTicketsMembers(all, userId, r[0]);
    assert r[0].createdAt >= t.createdAt;
    var k :| 0 <= k < |all| && all[k] == r[0];
    assert k == |rows|;
  }
}
