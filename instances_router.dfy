/** The `/instances` routes: list the caller's instances, reboot one, or
    terminate one. The caller is the authenticated user's id; the provider
    call of a route is a parameter from the row's `(provider, provider_id)`
    to what `ProvisioningService` returns or raises for it. */
module InstancesRouter {
  import opened Common
  import opened Models
  import opened Database

  predicate OwnedBy(row: RDPInstance, userId: int)
  {
    row.userId == Some(userId)
  }

  /** `get_my_instances`: the rows whose `user_id` is the caller's, in table
      order. */
  function MyInstances(rows: seq<RDPInstance>, userId: int): (r: seq<RDPInstance>)
    ensures |r| <= |rows|
    ensures forall k :: 0 <= k < |r| ==> OwnedBy(r[k], userId) && r[k] in rows
    ensures forall k :: 0 <= k < |rows| && OwnedBy(rows[k], userId) ==> rows[k] in r
  {
    if rows == [] then []
    else
      var rest := MyInstances(rows[1..], userId);
      assert forall k :: 1 <= k < |rows| ==> rows[k] == rows[1..][k - 1];
      if OwnedBy(rows[0], userId) then [rows[0]] + rest else rest
  }

  /** Each row is listed as many times as the table holds it when it is
      the caller's, and not at all otherwise. */
  lemma {:induction false} MyInstancesCount(rows: seq<RDPInstance>, x: RDPInstance, userId: int)
    ensures multiset(MyInstances(rows, userId))[x] == (if OwnedBy(x, userId) then multiset(rows)[x] else 0)
  {
    if rows != [] {
      assert rows == [rows[0]] + rows[1..];
      MyInstancesCount(rows[1..], x, userId);
    }
  }

  /** The filter keeps table order: a row added to the table is listed
      after the caller's earlier rows, exactly when the caller owns it. */
  lemma {:induction false} MyInstancesAppend(rows: seq<RDPInstance>, x: RDPInstance, userId: int)
    ensures MyInstances(rows + [x], userId) == MyInstances(rows, userId) + (if OwnedBy(x, userId) then [x] else [])
  {
    if rows == [] {
      assert [x][1..] == [];
    } else {
      assert (rows + [x])[1..] == rows[1..] + [x];
      MyInstancesAppend(rows[1..], x, userId);
    }
  }

  /** The query `filter(id == instance_id, user_id == caller).first()`: the
      index of the first row with that id owned by the caller. */
  function FindOwned(rows: seq<RDPInstance>, instanceId: int, userId: int): (r: Option<nat>)
    ensures r.Some? ==> r.value < |rows| && rows[r.value].id == instanceId && OwnedBy(rows[r.value], userId)
    ensures r.Some? ==> forall j :: 0 <= j < r.value ==> !(rows[j].id == instanceId && OwnedBy(rows[j], userId))
    ensures r.None? <==> forall j :: 0 <= j < |rows| ==> !(rows[j].id == instanceId && OwnedBy(rows[j], userId))
  {
    if rows == [] then None
    else if rows[0].id == instanceId && OwnedBy(rows[0], userId) then Some(0)
    else
      match FindOwned(rows[1..], instanceId, userId)
      case None => None
      case Some(k) => Some(k + 1)
  }

  /** The instance a route acts on is one the caller can list. */
  lemma FoundIsListed(rows: seq<RDPInstance>, instanceId: int, userId: int)
    requires FindOwned(rows, instanceId, userId).Some?
    ensures rows[FindOwned(rows, instanceId, userId).value] in MyInstances(rows, userId)
  {
  }

  /** `reboot_instance`: 404 unless the caller owns an instance with that
      id; a provider exception escapes the route; a false answer is a 500;
      otherwise `{"status": "rebooting"}`. */
  function RebootInstance(rows: seq<RDPInstance>, instanceId: int, userId: int,
                          reboot: (string, string) -> Result<bool>): (r: Reply<string>)
    ensures FindOwned(rows, instanceId, userId).None? ==> r == HttpError(404, "Instance not found")
    ensures FindOwned(rows, instanceId, userId).Some? ==>
              var row := rows[FindOwned(rows, instanceId, userId).value];
              var answer := reboot(row.provider, row.providerId);
              (answer.Err? ==> r == Unhandled(answer.error))
              && (answer == Ok(false) ==> r == HttpError(500, "Failed to reboot instance"))
              && (answer == Ok(true) ==> r == Body("rebooting"))
  {
    match FindOwned(rows, instanceId, userId)
    case None => HttpError(404, "Instance not found")
    case Some(k) =>
      match reboot(rows[k].provider, rows[k].providerId)
      case Err(e) => Unhandled(e)
      case Ok(success) => if success then Body("rebooting") else HttpError(500, "Failed to reboot instance")
  }

  /** Ownership is checked before the provider is asked: an id the caller
      does not own gets the same 404, whatever the providers would do. */
  lemma RebootOfOthersInstanceIs404(rows: seq<RDPInstance>, instanceId: int, userId: int,
                                    f: (string, string) -> Result<bool>, g: (string, string) -> Result<bool>)
    requires forall j :: 0 <= j < |rows| && rows[j].id == instanceId ==> !OwnedBy(rows[j], userId)
    ensures RebootInstance(rows, instanceId, userId, f) == RebootInstance(rows, instanceId, userId, g)
    ensures RebootInstance(rows, instanceId, userId, f) == HttpError(404, "Instance not found")
  {
  }

  /** `terminate_instance`: 404 unless the caller owns the instance; when
      the provider answers true the row's status becomes "terminated" and
      the reply is `{"status": "terminated"}`; a false answer is a 500 that
      leaves the row alone, and a provider exception escapes the route. */
  method TerminateInstance(db: Db, instanceId: int, userId: int, terminate: (string, string) -> Result<bool>)
    returns (r: Reply<string>)
    requires db.Valid()
    modifies db
    ensures db.Valid()
    ensures db.users == old(db.users) && db.tickets == old(db.tickets)
    ensures FindOwned(old(db.instances), instanceId, userId).None? ==>
              r == HttpError(404, "Instance not found") && db.instances == old(db.instances)
    ensures FindOwned(old(db.instances), instanceId, userId).Some? ==>
              var k := FindOwned(old(db.instances), instanceId, userId).value;
              var row := old(db.instances)[k];
              var answer := terminate(row.provider, row.providerId);
              (answer.Err? ==> r == Unhandled(answer.error) && db.instances == old(db.instances))
              && (answer == Ok(false) ==>
                    r == HttpError(500, "Failed to terminate instance") && db.instances == old(db.instances))
              && (answer == Ok(true) ==>
                    r == Body(StatusTerminated)
                    && db.instances == old(db.instances)[k := row.(status := StatusTerminated)])
  {
    var found := FindOwned(db.instances, instanceId, userId);
    if found.None? {
      return HttpError(404, "Instance not found");
    }
    var k := found.value;
    var answer := terminate(db.instances[k].provider, db.instances[k].providerId);
    if answer.Err? {
      return Unhandled(answer.error);
    }
    if answer.value {
      db.SetInstanceStatus(k, StatusTerminated);
      return Body(StatusTerminated);
    }
    r := HttpError(500, "Failed to terminate instance");
  }
}
