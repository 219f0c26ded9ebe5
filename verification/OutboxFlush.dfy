/** What one flush does to every row of the outbox, and how long a failed row waits (engine/application/outbox.py). */
module OutboxFlush {
  import opened Common
  import opened Outbox

  // ------------------------------------------------------------------ retries

  /** Waiting doubles with every attempt, from two seconds after the first to 512 after the ninth and later ones. */
  lemma {:induction false} DelayDoubles(attempts: nat)
    ensures Delay(1) == 2 && 2 <= Delay(attempts + 1) <= 512
    ensures Delay(attempts + 1) == if attempts < 9 then 2 * Delay(attempts) else 512
  {
    assert Power2(9) == 512 by {
      assert Power2(3) == 8 && Power2(6) == 64;
    }
    if attempts < 9 {
      PowerGrows(attempts + 1, 9);
      PowerGrows(1, attempts + 1);
    }
  }

  lemma {:induction false} PowerGrows(m: nat, n: nat)
    requires m <= n
    ensures Power2(m) <= Power2(n)
    decreases n
  {
    if m < n {
      PowerGrows(m, n - 1);
    }
  }

  /** A delivered row is SENT as it stands; a rejected one DEAD at once; a failed one counts the attempt and waits, until the
      last attempt that it may have. */
  lemma MarkExactly(row: Row, delivery: Delivery, now: int, maxAttempts: nat)
    ensures var row' := MarkedRow(row, delivery, now, maxAttempts);
            && row'.toControlPlane == row.toControlPlane
            && (row'.status == Sent <==> delivery.Delivered?)
            && (row'.status == Dead <==> delivery.RejectedForGood? || (delivery.Failed? && row.attempts + 1 >= maxAttempts))
            && row'.attempts == row.attempts + (if delivery.Delivered? then 0 else 1)
            && row'.nextAt == (if delivery.Delivered? then row.nextAt
                               else if delivery.RejectedForGood? then now
                               else now + Delay(row.attempts + 1))
  {
  }

  // ------------------------------------------------------------------ the lease

  /** It is taken for a minute unless another owner's has not expired; taking it again renews it. */
  lemma LeaseExactly(lease: Option<Lease>, owner: nat, now: int)
    ensures Held(lease, owner, now).None? <==> lease.Some? && lease.value.owner != owner && now < lease.value.expires
    ensures Held(lease, owner, now).Some? ==> Held(lease, owner, now).value == Lease(owner, now + 60)
  {
  }

  // ------------------------------------------------------------------ the batch

  /** Due rows by id, and all of them if there is room. */
  lemma BatchIsFull(rows: seq<Row>, now: int, limit: nat, id: nat)
    requires id < |rows| && rows[id].status == Pending && rows[id].nextAt <= now
    ensures var batch := PendingBatch(rows, now, limit);
            |batch| <= limit && (|batch| < limit ==> id in batch)
  {
    assert Due(rows, id, now);
  }

  // ------------------------------------------------------------------ one flush

  predicate Distinct(ids: seq<nat>) {
    forall j, k | 0 <= j < k < |ids| :: ids[j] != ids[k]
  }

  /** How many of the first `n` turns delivered. */
  function Deliveries(turns: seq<Turn>, n: nat): nat
    requires n <= |turns|
  {
    if n == 0 then 0 else Deliveries(turns, n - 1) + if turns[n - 1].delivery == Delivered then 1 else 0
  }

  lemma {:induction false} DeliveriesFromFront(turns: seq<Turn>, n: nat)
    requires 0 < n <= |turns|
    ensures Deliveries(turns, n) == (if turns[0].delivery == Delivered then 1 else 0) + Deliveries(turns[1..], n - 1)
  {
    if n > 1 {
      DeliveriesFromFront(turns, n - 1);
      assert turns[1..][n - 2] == turns[n - 1];
    }
  }

  /** The first `n` rows of the batch have had their turn, in their order, each once; the flush ends early exactly at a
      message to the control plane that failed; no other row is touched, and as many are counted as were delivered. */
  ghost predicate FlushedTo(rows: seq<Row>, ids: seq<nat>, turns: seq<Turn>, maxAttempts: nat, n: nat, rows': seq<Row>, sent: nat)
    requires InTable(rows, ids) && |ids| <= |turns|
  {
    && n <= |ids| && |rows'| == |rows| && sent == Deliveries(turns, n)
    && (forall j | 0 <= j < n - 1 :: !(turns[j].delivery == Failed && rows[ids[j]].toControlPlane))
    && (n < |ids| ==> n > 0 && turns[n - 1].delivery == Failed && rows[ids[n - 1]].toControlPlane)
    && (forall j | 0 <= j < n :: rows'[ids[j]] == MarkedRow(rows[ids[j]], turns[j].delivery, turns[j].markedAt, maxAttempts))
    && (forall id: nat | id < |rows| && id !in ids[..n] :: rows'[id] == rows[id])
  }

  lemma {:induction false} FlushExactly(rows: seq<Row>, ids: seq<nat>, turns: seq<Turn>, maxAttempts: nat) returns (n: nat)
    requires InTable(rows, ids) && |ids| <= |turns| && Distinct(ids)
    ensures var (rows', sent) := Flushed(rows, ids, turns, maxAttempts);
            FlushedTo(rows, ids, turns, maxAttempts, n, rows', sent)
    decreases |ids|
  {
    if ids == [] {
      n := 0;
    } else {
      var row := rows[ids[0]];
      var rows1 := rows[ids[0] := MarkedRow(row, turns[0].delivery, turns[0].markedAt, maxAttempts)];
      if StopsFlush(row, turns[0].delivery) {
        n := 1;
      } else {
        var m := FlushExactly(rows1, ids[1..], turns[1..], maxAttempts);
        n := m + 1;
        DeliveriesFromFront(turns, n);
        FrontAndRest(rows, ids, turns, maxAttempts, m);
      }
    }
  }

  lemma FrontAndRest(rows: seq<Row>, ids: seq<nat>, turns: seq<Turn>, maxAttempts: nat, m: nat)
    requires ids != [] && InTable(rows, ids) && |ids| <= |turns| && Distinct(ids)
    requires !StopsFlush(rows[ids[0]], turns[0].delivery) && m < |ids|
    requires var rows1 := rows[ids[0] := MarkedRow(rows[ids[0]], turns[0].delivery, turns[0].markedAt, maxAttempts)];
             var (rows', sent) := Flushed(rows1, ids[1..], turns[1..], maxAttempts);
             FlushedTo(rows1, ids[1..], turns[1..], maxAttempts, m, rows', sent)
    requires Deliveries(turns, m + 1) == (if turns[0].delivery == Delivered then 1 else 0) + Deliveries(turns[1..], m)
    ensures var (rows', sent) := Flushed(rows, ids, turns, maxAttempts);
            FlushedTo(rows, ids, turns, maxAttempts, m + 1, rows', sent)
  {
    hide MarkedRow, Deliveries;
    var rows1 := rows[ids[0] := MarkedRow(rows[ids[0]], turns[0].delivery, turns[0].markedAt, maxAttempts)];
    var rest := ids[1..];
    assert forall j | 0 <= j < |rest| :: rest[j] == ids[j + 1] && rows1[rest[j]] == rows[ids[j + 1]] && turns[1..][j] == turns[j + 1];
    var (rows', sent) := Flushed(rows, ids, turns, maxAttempts);
    assert ids[0] !in rest;
    assert ids[..m + 1] == [ids[0]] + rest[..m];
    forall j | 0 <= j < m + 1
      ensures rows'[ids[j]] == MarkedRow(rows[ids[j]], turns[j].delivery, turns[j].markedAt, maxAttempts)
    {
      if j > 0 {
        assert rest[j - 1] == ids[j];
      }
    }
    forall j | 0 <= j < m
      ensures !(turns[j].delivery == Failed && rows[ids[j]].toControlPlane)
    {
      if j > 0 {
        assert rest[j - 1] == ids[j];
      }
    }
  }

  /** A whole flush that holds the lease, on the batch it fetches. */
  lemma FlushOfBatch(rows: seq<Row>, now: int, limit: nat, turns: seq<Turn>, maxAttempts: nat)
    requires limit <= |turns|
    ensures InTable(rows, PendingBatch(rows, now, limit)) && |PendingBatch(rows, now, limit)| <= |turns|
    ensures var batch := PendingBatch(rows, now, limit);
            var (rows', sent) := Flushed(rows, batch, turns, maxAttempts);
            exists n :: FlushedTo(rows, batch, turns, maxAttempts, n, rows', sent)
  {
    var batch := PendingBatch(rows, now, limit);
    var n := FlushExactly(rows, batch, turns, maxAttempts);
  }
}
