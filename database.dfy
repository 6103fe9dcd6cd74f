/** The database session the backend routes and tasks share: the three
    tables as sequences of rows, and the next value of each autoincrement
    primary key. Committing is not modelled: a change made through `Db` is
    the committed state. */
module Database {
  import opened Common
  import opened Models

  class Db {
    var users: seq<User>
    var instances: seq<RDPInstance>
    var tickets: seq<Ticket>
    var nextInstanceId: int
    var nextTicketId: int

    /** Primary keys are unique and every existing key is below the next
        autoincrement value; emails are unique. */
    ghost predicate Valid()
      reads this
    {
      && (forall k :: 0 <= k < |instances| ==> instances[k].id < nextInstanceId)
      && (forall k :: 0 <= k < |tickets| ==> tickets[k].id < nextTicketId)
      && UniqueInstanceIds(instances)
      && UniqueTicketIds(tickets)
      && UniqueEmails(users)
    }

    constructor ()
      ensures Valid()
      ensures users == [] && instances == [] && tickets == []
    {
      users, instances, tickets := [], [], [];
      nextInstanceId, nextTicketId := 1, 1;
    }

    /** `db.add(row); db.commit(); db.refresh(row)` for an instance row: the
        row gets the next primary key and is appended. */
    method AddInstance(row: RDPInstance) returns (added: RDPInstance)
      requires Valid()
      modifies this
      ensures Valid()
      ensures added == row.(id := old(nextInstanceId))
      ensures instances == old(instances) + [added]
      ensures users == old(users) && tickets == old(tickets) && nextTicketId == old(nextTicketId)
      ensures forall k :: 0 <= k < |old(instances)| ==> old(instances)[k].id != added.id
    {
      added := row.(id := nextInstanceId);
      instances := instances + [added];
      nextInstanceId := nextInstanceId + 1;
    }

    /** `db.add(row); db.commit(); db.refresh(row)` for a ticket row. */
    method AddTicket(row: Ticket) returns (added: Ticket)
      requires Valid()
      modifies this
      ensures Valid()
      ensures added == row.(id := old(nextTicketId))
      ensures tickets == old(tickets) + [added]
      ensures users == old(users) && instances == old(instances) && nextInstanceId == old(nextInstanceId)
      ensures forall k :: 0 <= k < |old(tickets)| ==> old(tickets)[k].id != added.id
    {
      added := row.(id := nextTicketId);
      tickets := tickets + [added];
      nextTicketId := nextTicketId + 1;
    }

    /** An assignment `instance.status = s` to the row at index `k`
        followed by a commit. */
    method SetInstanceStatus(k: nat, s: string)
      requires Valid() && k < |instances|
      modifies this
      ensures Valid()
      ensures instances == old(instances)[k := old(instances)[k].(status := s)]
      ensures users == old(users) && tickets == old(tickets)
      ensures nextInstanceId == old(nextInstanceId) && nextTicketId == old(nextTicketId)
    {
      instances := instances[k := instances[k].(status := s)];
    }

    /** Assignments to several columns of the row at index `k` followed by
        a commit; the primary key is not among them. */
    method UpdateInstance(k: nat, row: RDPInstance)
      requires Valid() && k < |instances| && row.id == instances[k].id
      modifies this
      ensures Valid()
      ensures instances == old(instances)[k := row]
      ensures users == old(users) && tickets == old(tickets)
      ensures nextInstanceId == old(nextInstanceId) && nextTicketId == old(nextTicketId)
    {
      instances := instances[k := row];
    }
  }
}
