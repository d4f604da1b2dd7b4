/**
  The CrossPoint delivery queue as rows of a durable table.

  `DeliveryRows` holds the row type and the effect of every SQL statement the service sends to the
  queue table.  Each effect is a function on the whole table, so that the imperative store below and
  the interleaving model in `DeliveryProtocol` share one definition.
 */
module DeliveryRows {

  import opened Common

  datatype Status = Queued | Preparing | Transferring | Completed | Failed | Cancelled

  predicate Terminal(s: Status) { s.Completed? || s.Failed? || s.Cancelled? }

  predicate InFlight(s: Status) { s.Preparing? || s.Transferring? }

  type RowId = nat
  type DeviceId = nat
  type Time = int

  /** The columns written once, at insertion. */
  datatype Snapshot = Snapshot(device: DeviceId, key: string, maxAttempts: nat)

  datatype Row = Row(
    snap: Snapshot,
    status: Status,
    attempts: nat,
    nextAt: Option<Time>,
    startedAt: Option<Time>,
    completedAt: Option<Time>)

  type Table = map<RowId, Row>

  predicate Due(r: Row, now: Time) {
    r.status.Queued? && (r.nextAt.None? || r.nextAt.value <= now)
  }

  /** A table never holds one idempotency key twice (unique index). */
  ghost predicate UniqueKeys(t: Table) {
    forall a, b :: a in t && b in t && t[a].snap.key == t[b].snap.key ==> a == b
  }

  predicate HasKey(t: Table, key: string) {
    exists id :: id in t && t[id].snap.key == key
  }

  /** INSERT .. ON CONFLICT (idempotency_key) DO NOTHING. */
  function Inserted(t: Table, id: RowId, snap: Snapshot): Table {
    if HasKey(t, snap.key) || id in t then t
    else t[id := Row(snap, Queued, 0, None, None, None)]
  }

  predicate Claimable(t: Table, id: RowId, now: Time) { id in t && Due(t[id], now) }

  function Claimed(t: Table, id: RowId, now: Time): Table {
    if Claimable(t, id, now)
    then t[id := t[id].(status := Preparing, attempts := t[id].attempts + 1, startedAt := Some(now))]
    else t
  }

  /** `update_queue_status`: filters on the id only. */
  function WithStatus(t: Table, id: RowId, status: Status): Table {
    if id in t then t[id := t[id].(status := status)] else t
  }

  /** `update_queue`: filters on the id only; every caller passes no start time. */
  function Settled(t: Table, id: RowId, status: Status, nextAt: Option<Time>, completedAt: Option<Time>): Table {
    if id in t
    then t[id := t[id].(status := status, nextAt := nextAt, completedAt := completedAt, startedAt := None)]
    else t
  }

  predicate Retryable(t: Table, id: RowId) { id in t && t[id].status.Failed? }

  function Retried(t: Table, id: RowId): Table {
    if Retryable(t, id)
    then t[id := t[id].(status := Queued, nextAt := None, completedAt := None, startedAt := None)]
    else t
  }

  predicate Cancellable(t: Table, id: RowId) { id in t && t[id].status.Queued? }

  function CancelledRow(t: Table, id: RowId, now: Time): Table {
    if Cancellable(t, id)
    then t[id := t[id].(status := Cancelled, nextAt := None, completedAt := Some(now))]
    else t
  }

  /** A row as recovery leaves it, decided on the attempts `seen` when the row was read. */
  function RestartedRow(r: Row, seen: nat, now: Time): Row {
    if seen >= r.snap.maxAttempts
    then r.(status := Failed, nextAt := None, completedAt := Some(now), startedAt := None)
    else r.(status := Queued, nextAt := Some(now), completedAt := None, startedAt := None)
  }

  function Recovered(t: Table, id: RowId, seen: nat, now: Time): Table {
    if id in t then t[id := RestartedRow(t[id], seen, now)] else t
  }

  /** What a reader of one row may rely on, whatever happened before. */
  predicate RowShape(r: Row) {
    && (r.completedAt.Some? <==> Terminal(r.status))
    && (r.startedAt.Some? <==> InFlight(r.status))
    && (Terminal(r.status) ==> r.nextAt.None?)
  }

  /** The statements of the service against the table, run one at a time. */
  class Store {
    var rows: Table

    ghost predicate Valid() reads this {
      UniqueKeys(rows) && forall id :: id in rows ==> RowShape(rows[id])
    }

    constructor ()
      ensures Valid() && rows == map[]
    {
      rows := map[];
    }

    /** `enqueue_for_media` after its checks: insert or keep, then read back by key.
        The one row carrying the key is returned in whatever state it is in. */
    method Enqueue(id: RowId, snap: Snapshot) returns (found: RowId)
      requires Valid() && id !in rows
      modifies this
      ensures Valid()
      ensures rows == Inserted(old(rows), id, snap)
      ensures found in rows && rows[found].snap.key == snap.key
      ensures forall other :: other in rows && rows[other].snap.key == snap.key ==> other == found
      ensures found in old(rows) ==> rows == old(rows)
      ensures found !in old(rows) ==> found == id && rows[id] == Row(snap, Queued, 0, None, None, None)
    {
      var isNew := !HasKey(rows, snap.key);
      rows := Inserted(rows, id, snap);
      if isNew {
        found := id;
      } else {
        found :| found in rows && rows[found].snap.key == snap.key;
      }
    }

    method Claim(id: RowId, now: Time) returns (claimed: bool)
      requires Valid()
      modifies this
      ensures Valid()
      ensures rows == Claimed(old(rows), id, now)
      ensures claimed <==> id in old(rows) && old(rows)[id].status.Queued?
                           && (old(rows)[id].nextAt.None? || old(rows)[id].nextAt.value <= now)
      ensures claimed ==> id in rows && rows[id].status.Preparing? && rows[id].attempts == old(rows)[id].attempts + 1
      ensures !claimed ==> rows == old(rows)
    {
      claimed := Claimable(rows, id, now);
      rows := Claimed(rows, id, now);
    }

    method Retry(id: RowId) returns (retried: bool)
      requires Valid()
      modifies this
      ensures Valid()
      ensures rows == Retried(old(rows), id)
      ensures retried <==> id in old(rows) && old(rows)[id].status.Failed?
      ensures retried ==> id in rows && Due(rows[id], 0) && rows[id].attempts == old(rows)[id].attempts
      ensures !retried ==> rows == old(rows)
    {
      retried := Retryable(rows, id);
      rows := Retried(rows, id);
    }

    method Cancel(id: RowId, now: Time) returns (cancelled: bool)
      requires Valid()
      modifies this
      ensures Valid()
      ensures rows == CancelledRow(old(rows), id, now)
      ensures cancelled <==> id in old(rows) && old(rows)[id].status.Queued?
      ensures cancelled ==> id in rows && rows[id].status.Cancelled?
      ensures !cancelled ==> rows == old(rows)
    {
      cancelled := Cancellable(rows, id);
      rows := CancelledRow(rows, id, now);
    }

    /** `recover_inflight`: one query, then one write per row found. */
    method RecoverInflight(now: Time) returns (recovered: nat)
      requires Valid()
      modifies this
      ensures Valid()
      ensures rows.Keys == old(rows).Keys
      ensures forall id :: id in rows ==> !InFlight(rows[id].status)
      ensures forall id :: id in old(rows) && !InFlight(old(rows)[id].status) ==> rows[id] == old(rows)[id]
      ensures forall id :: id in old(rows) && InFlight(old(rows)[id].status) ==>
                rows[id] == RestartedRow(old(rows)[id], old(rows)[id].attempts, now)
      ensures recovered == |set id | id in old(rows) && InFlight(old(rows)[id].status)|
    {
      hide UniqueKeys, RestartedRow;
      ghost var before := rows;
      var found := set id | id in rows && InFlight(rows[id].status);
      var todo := found;
      recovered := 0;
      while todo != {}
        invariant todo <= found && recovered == |found| - |todo|
        invariant rows.Keys == before.Keys
        invariant forall id :: id in before ==>
                    rows[id] == if id in found - todo then RestartedRow(before[id], before[id].attempts, now) else before[id]
        decreases todo
      {
        var id :| id in todo;
        rows := Recovered(rows, id, rows[id].attempts, now);
        todo := todo - {id};
        recovered := recovered + 1;
      }
      RestartSettles(before, now);
      RestartKeepsKeys(before, rows);
    }
  }

  lemma RestartSettles(t: Table, now: Time)
    ensures forall id :: id in t ==>
              var r := RestartedRow(t[id], t[id].attempts, now); !InFlight(r.status) && r.snap == t[id].snap && RowShape(r)
  {
  }

  lemma RestartKeepsKeys(t: Table, u: Table)
    requires UniqueKeys(t) && t.Keys == u.Keys
    requires forall id :: id in t ==> t[id].snap == u[id].snap
    ensures UniqueKeys(u)
  {
  }
}
