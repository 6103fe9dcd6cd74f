/** The periodic `check_expired_instances` task: every active instance
    whose expiry time has passed is terminated at its provider, and marked
    "terminated" when the provider confirms. `now` is the task's clock
    reading; `terminate` is what `ProvisioningService.terminate_rdp` returns
    or raises for a row's `(provider, provider_id)`. */
module ExpiryTask {
  import opened Common
  import opened Models
  import opened Database

  /** The query's filter: `expires_at < now` (a null expiry never matches)
      and `status == "active"`. */
  predicate Selected(row: RDPInstance, now: int)
  {
    row.expiresAt.Some? && row.expiresAt.value < now && row.status == StatusActive
  }

  /** What one pass does to one row: a selected row whose termination
      returns true becomes "terminated"; a false answer or an exception
      (caught and logged) leaves it as it was. */
  function ExpireRow(row: RDPInstance, now: int, terminate: (string, string) -> Result<bool>): (r: RDPInstance)
    ensures r == row || r == row.(status := StatusTerminated)
    ensures r != row <==> Selected(row, now) && terminate(row.provider, row.providerId) == Ok(true)
  {
    if Selected(row, now) && terminate(row.provider, row.providerId) == Ok(true)
    then row.(status := StatusTerminated)
    else row
  }

  /** The table after one pass. */
  function Sweep(rows: seq<RDPInstance>, now: int, terminate: (string, string) -> Result<bool>)
    : (r: seq<RDPInstance>)
    ensures |r| == |rows|
    ensures forall k :: 0 <= k < |rows| ==> r[k] == ExpireRow(rows[k], now, terminate)
  {
    seq(|rows|, k requires 0 <= k < |rows| => ExpireRow(rows[k], now, terminate))
  }

  /** `check_expired_instances`. The loop visits the table in order and
      applies the filter to each row as it reaches it; since the loop only
      ever changes the row it is at, this is the same as selecting first. */
  method CheckExpiredInstances(db: Db, now: int, terminate: (string, string) -> Result<bool>)
    requires db.Valid()
    modifies db
    ensures db.Valid()
    ensures db.instances == Sweep(old(db.instances), now, terminate)
    ensures db.users == old(db.users) && db.tickets == old(db.tickets)
  {
    var k := 0;
    while k < |db.instances|
      invariant db.Valid()
      invariant 0 <= k <= |db.instances| == |old(db.instances)|
      invariant forall j :: 0 <= j < k ==> db.instances[j] == ExpireRow(old(db.instances)[j], now, terminate)
      invariant forall j :: k <= j < |db.instances| ==> db.instances[j] == old(db.instances)[j]
      invariant db.users == old(db.users) && db.tickets == old(db.tickets)
    {
      var row := db.instances[k];
      if Selected(row, now) {
        var answer := terminate(row.provider, row.providerId);
        if answer == Ok(true) {
          db.SetInstanceStatus(k, StatusTerminated);
        }
      }
      k := k + 1;
    }
  }

  /** A pass changes nothing but statuses, and only from "active" to
      "terminated". */
  lemma SweepOnlyTerminatesActive(rows: seq<RDPInstance>, now: int, terminate: (string, string) -> Result<bool>,
                                  k: nat)
    requires k < |rows|
    ensures var r := Sweep(rows, now, terminate)[k];
            r.(status := rows[k].status) == rows[k]
            && (r.status != rows[k].status ==> rows[k].status == StatusActive && r.status == StatusTerminated)
  {
  }

  /** After a pass, every row still selected is one whose provider would
      not confirm the termination. */
  lemma SweepLeavesOnlyUnconfirmed(rows: seq<RDPInstance>, now: int, terminate: (string, string) -> Result<bool>)
    ensures var r := Sweep(rows, now, terminate);
            forall k :: 0 <= k < |r| && Selected(r[k], now) ==> terminate(r[k].provider, r[k].providerId) != Ok(true)
  {
    var r := Sweep(rows, now, terminate);
    forall k | 0 <= k < |r| && Selected(r[k], now)
      ensures terminate(r[k].provider, r[k].providerId) != Ok(true)
    {
      assert r[k] == rows[k];
    }
  }

  /** A second pass at the same time with the same provider answers
      changes nothing. */
  lemma SweepIdempotent(rows: seq<RDPInstance>, now: int, terminate: (string, string) -> Result<bool>)
    ensures Sweep(Sweep(rows, now, terminate), now, terminate) == Sweep(rows, now, terminate)
  {
    var r := Sweep(rows, now, terminate);
    SweepLeavesOnlyUnconfirmed(rows, now, terminate);
    forall k | 0 <= k < |r| ensures ExpireRow(r[k], now, terminate) == r[k] {
    }
  }

  /** A row that has not expired, or is not active, is never touched. */
  lemma SweepKeepsUnexpired(rows: seq<RDPInstance>, now: int, terminate: (string, string) -> Result<bool>, k: nat)
    requires k < |rows| && !Selected(rows[k], now)
    ensures Sweep(rows, now, terminate)[k] == rows[k]
  {
  }
}
