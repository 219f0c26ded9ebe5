/** Delivery of the outbox: two or more dispatchers, one lease, bounded retries
    (engine/application/outbox.py, engine/infrastructure/store.py). */
module Outbox {
  import opened Common

  datatype RowStatus = Pending | Sent | Dead

  /** One row of the outbox table, whose id is its place in the table. */
  datatype Row = Row(toControlPlane: bool, status: RowStatus, attempts: nat, nextAt: int)

  datatype Lease = Lease(owner: nat, expires: int)

  /** Seconds. */
  const LEASE_TTL: int := 60

  /** What came of one delivery. A rejection by the control plane is permanent, anything else is retried. */
  datatype Delivery = Delivered | RejectedForGood | Failed

  function Power2(n: nat): (p: nat)
    ensures p >= 1
  {
    if n == 0 then 1 else 2 * Power2(n - 1)
  }

  function MinInt(a: int, b: int): int {
    if a < b then a else b
  }

  function Delay(attempts: nat): int {
    MinInt(600, Power2(MinInt(attempts, 9)))
  }

  function Held(lease: Option<Lease>, owner: nat, now: int): Option<Lease> {
    if lease.Some? && lease.value.owner != owner && lease.value.expires > now then None
    else Some(Lease(owner, now + LEASE_TTL))
  }

  function MarkedRow(row: Row, delivery: Delivery, now: int, maxAttempts: nat): Row {
    match delivery
    case Delivered => row.(status := Sent)
    case RejectedForGood => row.(attempts := row.attempts + 1, nextAt := now, status := Dead)
    case Failed =>
      var attempts := row.attempts + 1;
      row.(attempts := attempts, nextAt := now + Delay(attempts),
           status := if attempts >= maxAttempts then Dead else Pending)
  }

  predicate Due(rows: seq<Row>, id: nat, now: int) {
    id < |rows| && rows[id].status.Pending? && rows[id].nextAt <= now
  }

  /** Due rows by id, of the first `n` rows of the table. */
  function DueAmong(rows: seq<Row>, n: nat, now: int): (ids: seq<nat>)
    requires n <= |rows|
    ensures forall k | 0 <= k < |ids| :: ids[k] < n && Due(rows, ids[k], now)
    ensures forall j, k | 0 <= j < k < |ids| :: ids[j] < ids[k]
    ensures forall id: nat | id < n && Due(rows, id, now) :: id in ids
  {
    if n == 0 then []
    else DueAmong(rows, n - 1, now) + (if Due(rows, n - 1, now) then [n - 1] else [])
  }

  function PendingBatch(rows: seq<Row>, now: int, limit: nat): seq<nat> {
    var ids := DueAmong(rows, |rows|, now);
    if |ids| <= limit then ids else ids[..limit]
  }

  predicate StopsFlush(row: Row, delivery: Delivery) {
    delivery.Failed? && row.toControlPlane
  }

  // ------------------------------------------------------------------ the tables and one flush, in place

  /** What the clock showed and what happened, row by row of a batch. */
  datatype Turn = Turn(renewedAt: int, delivery: Delivery, markedAt: int)

  predicate InTable(rows: seq<Row>, ids: seq<nat>) {
    forall k | 0 <= k < |ids| :: ids[k] < |rows|
  }

  /** A flush that keeps its lease, as a function of what happens to it. */
  function Flushed(rows: seq<Row>, ids: seq<nat>, turns: seq<Turn>, maxAttempts: nat): (res: (seq<Row>, nat))
    requires |ids| <= |turns| && InTable(rows, ids)
    ensures |res.0| == |rows|
    decreases |ids|
  {
    if ids == [] then (rows, 0)
    else
      var row := rows[ids[0]];
      var rows' := rows[ids[0] := MarkedRow(row, turns[0].delivery, turns[0].markedAt, maxAttempts)];
      if StopsFlush(row, turns[0].delivery) then (rows', 0)
      else
        var (last, sent) := Flushed(rows', ids[1..], turns[1..], maxAttempts);
        (last, sent + if turns[0].delivery.Delivered? then 1 else 0)
  }

  class OutboxStore {
    var rows: seq<Row>
    var lease: Option<Lease>

    constructor ()
      ensures rows == [] && lease.None?
    {
      rows, lease := [], None;
    }

    method AcquireLease(owner: nat, now: int) returns (ok: bool)
      modifies this`lease
      ensures ok <==> Held(old(lease), owner, now).Some?
      ensures lease == if ok then Held(old(lease), owner, now) else old(lease)
    {
      if lease.Some? && lease.value.owner != owner && lease.value.expires > now {
        return false;
      }
      lease := Some(Lease(owner, now + LEASE_TTL));
      return true;
    }

    method MarkSent(id: nat)
      requires id < |rows|
      modifies this`rows
      ensures rows == old(rows)[id := old(rows)[id].(status := Sent)]
    {
      rows := rows[id := rows[id].(status := Sent)];
    }

    method MarkFailed(id: nat, nextAt: int, dead: bool)
      requires id < |rows|
      modifies this`rows
      ensures rows == old(rows)[id := old(rows)[id].(attempts := old(rows)[id].attempts + 1, nextAt := nextAt,
                                                    status := if dead then Dead else Pending)]
    {
      rows := rows[id := rows[id].(attempts := rows[id].attempts + 1, nextAt := nextAt,
                                   status := if dead then Dead else Pending)];
    }
  }

  class OutboxDispatcher {
    const store: OutboxStore
    const owner: nat
    const maxAttempts: nat

    constructor (store: OutboxStore, owner: nat, maxAttempts: nat)
      ensures this.store == store && this.owner == owner && this.maxAttempts == maxAttempts
    {
      this.store, this.owner, this.maxAttempts := store, owner, maxAttempts;
    }

    method Mark(id: nat, delivery: Delivery, now: int)
      requires id < |store.rows|
      modifies store`rows
      ensures store.rows == old(store.rows)[id := MarkedRow(old(store.rows)[id], delivery, now, maxAttempts)]
    {
      match delivery {
        case Delivered => store.MarkSent(id);
        case RejectedForGood => store.MarkFailed(id, now, true);
        case Failed =>
          var attempts := store.rows[id].attempts + 1;
          store.MarkFailed(id, now + Delay(attempts), attempts >= maxAttempts);
      }
    }

    /** Nothing is touched without the lease. With it, and with no other process writing in between, the
        due rows are delivered in order of their ids until the control plane fails. */
    method Flush(start: int, limit: nat, turns: seq<Turn>) returns (sent: nat)
      requires limit <= |turns|
      modifies store
      ensures Held(old(store.lease), owner, start).None? ==>
                sent == 0 && store.rows == old(store.rows) && store.lease == old(store.lease)
      ensures Held(old(store.lease), owner, start).Some? ==>
                && (store.rows, sent) == Flushed(old(store.rows), PendingBatch(old(store.rows), start, limit), turns, maxAttempts)
                && store.lease.Some? && store.lease.value.owner == owner
    {
      var ok := store.AcquireLease(owner, start);
      if !ok {
        return 0;
      }
      sent := DeliverBatch(PendingBatch(store.rows, start, limit), turns);
    }

    method DeliverBatch(batch: seq<nat>, turns: seq<Turn>) returns (sent: nat)
      requires |batch| <= |turns| && InTable(store.rows, batch)
      requires store.lease.Some? && store.lease.value.owner == owner
      modifies store
      ensures (store.rows, sent) == Flushed(old(store.rows), batch, turns, maxAttempts)
      ensures store.lease.Some? && store.lease.value.owner == owner
    {
      sent := 0;
      ghost var before := store.rows;
      assert batch[0..] == batch && turns[0..] == turns;
      var i := 0;
      while i < |batch|
        invariant 0 <= i <= |batch| && store.lease.Some? && store.lease.value.owner == owner
        invariant |store.rows| == |before|
        invariant Flushed(before, batch, turns, maxAttempts) == Continued(sent, store.rows, batch[i..], turns[i..])
      {
        var row, turn := store.rows[batch[i]], turns[i];
        OneTurn(sent, store.rows, batch, turns, i);
        var ok := store.AcquireLease(owner, turn.renewedAt);
        if !ok {
          break;
        }
        Mark(batch[i], turn.delivery, turn.markedAt);
        if StopsFlush(row, turn.delivery) {
          return;
        }
        sent := sent + if turn.delivery.Delivered? then 1 else 0;
        i := i + 1;
      }
    }

    lemma OneTurn(sent: nat, rows: seq<Row>, batch: seq<nat>, turns: seq<Turn>, i: nat)
      requires i < |batch| <= |turns| && InTable(rows, batch)
      ensures var row, delivery := rows[batch[i]], turns[i].delivery;
              var rows' := rows[batch[i] := MarkedRow(row, delivery, turns[i].markedAt, maxAttempts)];
              Continued(sent, rows, batch[i..], turns[i..]) ==
              if StopsFlush(row, delivery) then (rows', sent)
              else Continued(sent + if delivery.Delivered? then 1 else 0, rows', batch[i + 1..], turns[i + 1..])
    {
    }

    function Continued(sent: nat, rows: seq<Row>, ids: seq<nat>, turns: seq<Turn>): (seq<Row>, nat)
      requires |ids| <= |turns| && InTable(rows, ids)
    {
      var (last, more) := Flushed(rows, ids, turns, maxAttempts);
      (last, sent + more)
    }
  }
}
