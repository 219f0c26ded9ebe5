/** In which order the control plane's messages are marked as sent: by id, except for the rows a flush goes past, and exactly when one
    of those is overtaken. */
module OutboxOrder {
  import opened Common
  import opened Outbox
  import opened OutboxLaws

  // ------------------------------------------------------------------ one batch

  lemma Increasing(ids: seq<nat>, j: nat, k: nat)
    requires j < |ids| && k < |ids| && forall a, b | 0 <= a < b < |ids| :: ids[a] < ids[b]
    requires ids[j] < ids[k]
    ensures j < k
  {
  }

  /** Of the rows before a row of the batch exactly those are missing that are not pending or not due yet. */
  lemma BatchExactly(rows: seq<Row>, now: int, limit: nat, id: nat, later: nat)
    requires id < later && later in PendingBatch(rows, now, limit)
    ensures later < |rows| && (id in PendingBatch(rows, now, limit) <==> rows[id].status.Pending? && rows[id].nextAt <= now)
  {
    hide DueAmong;
    var ids, batch := DueAmong(rows, |rows|, now), PendingBatch(rows, now, limit);
    var k :| 0 <= k < |batch| && batch[k] == later;
    assert ids[k] == later;
    if Due(rows, id, now) {
      var j :| 0 <= j < |ids| && ids[j] == id;
      Increasing(ids, j, k);
      assert batch[j] == id;
    }
  }

  /** A row that was not delivered is overtaken, by every later row whose turn has come, exactly when it was
      rejected for good, had its last attempt, or still waits for the next one. */
  lemma FailureIsOvertaken(rows: seq<Row>, id: nat, delivery: Delivery, markedAt: int, now: int, limit: nat, maxAttempts: nat,
                           later: nat)
    requires id < later && id < |rows| && !delivery.Delivered?
    requires later in PendingBatch(rows[id := MarkedRow(rows[id], delivery, markedAt, maxAttempts)], now, limit)
    ensures id !in PendingBatch(rows[id := MarkedRow(rows[id], delivery, markedAt, maxAttempts)], now, limit)
       <==> || delivery.RejectedForGood?
            || rows[id].attempts + 1 >= maxAttempts
            || now < markedAt + Delay(rows[id].attempts + 1)
  {
    BatchExactly(rows[id := MarkedRow(rows[id], delivery, markedAt, maxAttempts)], now, limit, id, later);
  }

  // ------------------------------------------------------------------ what a flush has gone past

  /** Nothing for the control plane is marked SENT before everything earlier is. A post whose mark a crash lost counts as
      not sent. */
  ghost predicate InIdOrder(rows: seq<Row>) {
    forall id, later | 0 <= id < later < |rows| && rows[id].toControlPlane && rows[later].toControlPlane && rows[later].status.Sent? ::
      rows[id].status.Sent?
  }

  predicate Unsent(rows: seq<Row>, id: nat) {
    id < |rows| && rows[id].toControlPlane && !rows[id].status.Sent?
  }

  /** Before a row that is still to be delivered, the unsent rows are the ones gone past and the ones ahead of it. */
  ghost predicate Accounted(rows: seq<Row>, ids: seq<nat>, left: set<nat>) {
    && (forall a, b | 0 <= a < b < |ids| :: ids[a] < ids[b])
    && (forall x | x in left :: Unsent(rows, x) && x !in ids)
    && (forall k, x: nat {:trigger ids[k], Unsent(rows, x)} | 0 <= k < |ids| && x < ids[k] && Unsent(rows, x) :: x in left || x in ids)
  }

  ghost predicate FlushFits(w: World, o: nat)
    requires o in w.stages
  {
    match w.stages[o]
    case Flushing(ids, _, left) => Accounted(w.rows, ids, left)
    case Posting(id, rest, _, left) => Accounted(w.rows, [id] + rest, left)
    case _ => true
  }

  ghost predicate Kept(w: World, maxAttempts: nat) {
    Invariant(w, maxAttempts) && forall o {:trigger FlushFits(w, o)} | o in w.stages :: FlushFits(w, o)
  }

  lemma FetchAccounts(rows: seq<Row>, now: int, limit: nat)
    ensures Accounted(rows, PendingBatch(rows, now, limit), LeftBehind(rows, now))
  {
    var ids, left := PendingBatch(rows, now, limit), LeftBehind(rows, now);
    forall k, x: nat | 0 <= k < |ids| && x < ids[k] && Unsent(rows, x)
      ensures x in left || x in ids
    {
      BatchExactly(rows, now, limit, x, ids[k]);
    }
  }

  /** The rows beyond the one at hand stay accounted for, whatever became of it. */
  lemma MarkAccounts(rows: seq<Row>, id: nat, rest: seq<nat>, left: set<nat>, delivery: Delivery, now: int, maxAttempts: nat)
    requires Accounted(rows, [id] + rest, left) && id < |rows| && !StopsFlush(rows[id], delivery)
    ensures Accounted(rows[id := MarkedRow(rows[id], delivery, now, maxAttempts)], rest, left + LeftBy(rows[id], id, delivery))
  {
    var ids := [id] + rest;
    var rows' := rows[id := MarkedRow(rows[id], delivery, now, maxAttempts)];
    assert forall k | 0 <= k < |rest| :: ids[k + 1] == rest[k];
    assert ids[0] == id && id !in rest;
    forall x | x in left
      ensures x != id && x !in rest
    {
      assert id in ids;
      assert forall y | y in rest :: y in ids;
    }
    forall k, x: nat | 0 <= k < |rest| && x < rest[k] && Unsent(rows', x)
      ensures x in left + LeftBy(rows[id], id, delivery) || x in rest
    {
      if x != id {
        assert Unsent(rows, x) && x < ids[k + 1];
        assert x in ids ==> x in rest;
      }
    }
  }

  lemma EnqueueAccounts(rows: seq<Row>, row: Row, ids: seq<nat>, left: set<nat>)
    requires Accounted(rows, ids, left) && forall k | 0 <= k < |ids| :: ids[k] < |rows|
    ensures Accounted(rows + [row], ids, left)
  {
    forall x: nat | x < |rows|
      ensures Unsent(rows + [row], x) == Unsent(rows, x)
    {
    }
  }

  lemma StepKeeps(w: World, a: Act, maxAttempts: nat)
    requires Kept(w, maxAttempts) && Enabled(w, a) && maxAttempts > 0
    ensures Kept(Next(w, a, maxAttempts), maxAttempts)
  {
    OutboxLaws.StepKeeps(w, a, maxAttempts);
    var w' := Next(w, a, maxAttempts);
    forall o | o in w'.stages
      ensures FlushFits(w', o)
    {
      FlushKeeps(w, a, maxAttempts, o);
    }
  }

  lemma FlushKeeps(w: World, a: Act, maxAttempts: nat, o: nat)
    requires Kept(w, maxAttempts) && Enabled(w, a) && o in Next(w, a, maxAttempts).stages
    ensures FlushFits(Next(w, a, maxAttempts), o)
  {
    assert o in w.stages ==> FlushFits(w, o) && Batch(w, o);
    match a {
      case Enqueues(cp) =>
        match StageOf(w, o) {
          case Flushing(ids, _, left) => EnqueueAccounts(w.rows, Row(cp, Pending, 0, w.now), ids, left);
          case Posting(id, rest, _, left) => EnqueueAccounts(w.rows, Row(cp, Pending, 0, w.now), [id] + rest, left);
          case _ =>
        }
      case Fetches(_, limit) => FetchAccounts(w.rows, w.now, limit);
      case Renews(p) =>
        if p == o {
          assert [w.stages[o].ids[0]] + w.stages[o].ids[1..] == w.stages[o].ids;
        }
      case Marks(p, delivery) =>
        if p != o {
          assert StageOf(w, o).Idle? by {
            if !StageOf(w, o).Idle? {
              OneHolder(w, maxAttempts, o, p);
            }
          }
        } else if !StopsFlush(w.rows[StageOf(w, o).id], delivery) {
          MarkAccounts(w.rows, StageOf(w, o).id, StageOf(w, o).rest, StageOf(w, o).left, delivery, w.now, maxAttempts);
        }
      case _ =>
    }
  }

  // ------------------------------------------------------------------ when the order is kept

  /** A delivery beyond a row that its flush went past: one that was dead or waiting when the batch was fetched,
      or one that was rejected for good since. */
  predicate Overtakes(w: World, a: Act) {
    && a.Marks? && a.delivery.Delivered? && StageOf(w, a.owner).Posting?
    && var s := StageOf(w, a.owner);
       s.id < |w.rows| && w.rows[s.id].toControlPlane && exists x | x in s.left :: x < s.id
  }

  /** A step breaks the order exactly when it overtakes. */
  lemma StepKeepsOrderExactly(w: World, a: Act, maxAttempts: nat)
    requires Kept(w, maxAttempts) && Enabled(w, a) && InIdOrder(w.rows)
    ensures InIdOrder(Next(w, a, maxAttempts).rows) <==> !Overtakes(w, a)
  {
    if a.Marks? {
      var s := StageOf(w, a.owner);
      assert FlushFits(w, a.owner) && Batch(w, a.owner);
      assert ([s.id] + s.rest)[0] == s.id;
      MarkOrderExactly(w.rows, s.id, s.rest, s.left, a.delivery, w.now, maxAttempts);
    }
  }

  lemma EarlierIsLeft(rows: seq<Row>, id: nat, rest: seq<nat>, left: set<nat>, x: nat)
    requires Accounted(rows, [id] + rest, left) && x < id && Unsent(rows, x)
    ensures x in left
  {
    var ids := [id] + rest;
    assert ids[0] == id && forall k | 0 <= k < |ids| :: ids[k] >= id;
  }

  lemma MarkOrderExactly(rows: seq<Row>, id: nat, rest: seq<nat>, left: set<nat>, delivery: Delivery, now: int, maxAttempts: nat)
    requires Accounted(rows, [id] + rest, left) && id < |rows| && rows[id].status.Pending? && InIdOrder(rows)
    ensures InIdOrder(rows[id := MarkedRow(rows[id], delivery, now, maxAttempts)])
       <==> !(delivery.Delivered? && rows[id].toControlPlane && exists x | x in left :: x < id)
  {
    var ids := [id] + rest;
    var rows' := rows[id := MarkedRow(rows[id], delivery, now, maxAttempts)];
    assert ids[0] == id && forall k | 0 <= k < |rest| :: ids[k + 1] == rest[k];
    if delivery.Delivered? && rows[id].toControlPlane {
      if x :| x in left && x < id {
        assert Unsent(rows, x) && rows'[x] == rows[x];
        assert rows'[x].toControlPlane && rows'[id].status.Sent? && !rows'[x].status.Sent?;
      } else {
        forall x: nat | x < id && Unsent(rows, x)
          ensures x in left
        {
          EarlierIsLeft(rows, id, rest, left, x);
        }
        forall x, later | 0 <= x < later < |rows'| && rows'[x].toControlPlane && rows'[later].toControlPlane && rows'[later].status.Sent?
          ensures rows'[x].status.Sent?
        {
          assert later == id ==> !Unsent(rows, x);
        }
      }
    }
  }

  ghost predicate AlwaysInOrder(w: World, acts: seq<Act>, maxAttempts: nat)
    decreases |acts|
  {
    InIdOrder(w.rows) && (acts != [] ==> Enabled(w, acts[0]) && AlwaysInOrder(Next(w, acts[0], maxAttempts), acts[1..], maxAttempts))
  }

  ghost predicate NeverOvertakes(w: World, acts: seq<Act>, maxAttempts: nat)
    decreases |acts|
  {
    acts != [] ==> Enabled(w, acts[0]) && !Overtakes(w, acts[0]) && NeverOvertakes(Next(w, acts[0], maxAttempts), acts[1..], maxAttempts)
  }

  lemma {:induction false} OrderKeptFrom(w: World, acts: seq<Act>, w': World, maxAttempts: nat)
    requires Kept(w, maxAttempts) && InIdOrder(w.rows) && Reaches(w, acts, w', maxAttempts) && maxAttempts > 0
    ensures AlwaysInOrder(w, acts, maxAttempts) <==> NeverOvertakes(w, acts, maxAttempts)
    decreases |acts|
  {
    if acts != [] {
      StepKeeps(w, acts[0], maxAttempts);
      StepKeepsOrderExactly(w, acts[0], maxAttempts);
      if !Overtakes(w, acts[0]) {
        OrderKeptFrom(Next(w, acts[0], maxAttempts), acts[1..], w', maxAttempts);
      }
    }
  }

  /** In every run, of any dispatchers under any clock, the control plane's messages are marked sent in the order of the ids exactly
      when no flush delivers beyond a row it has gone past: one that was dead or waiting when it fetched its batch,
      or one rejected for good within the flush. */
  lemma OrderKeptExactly(now: int, acts: seq<Act>, w: World, maxAttempts: nat)
    requires Reaches(Start(now), acts, w, maxAttempts) && maxAttempts > 0
    ensures AlwaysInOrder(Start(now), acts, maxAttempts) <==> NeverOvertakes(Start(now), acts, maxAttempts)
  {
    OrderKeptFrom(Start(now), acts, w, maxAttempts);
  }

  // ------------------------------------------------------------------ two runs that break it

  lemma RunStep(w: World, a: Act, acts: seq<Act>, w': World, maxAttempts: nat)
    requires Enabled(w, a) && Reaches(Next(w, a, maxAttempts), acts, w', maxAttempts)
    ensures Reaches(w, [a] + acts, w', maxAttempts)
  {
    assert ([a] + acts)[1..] == acts;
  }

  lemma OneStep(w: World, a: Act, maxAttempts: nat)
    requires Enabled(w, a)
    ensures Reaches(w, [a], Next(w, a, maxAttempts), maxAttempts)
  {
    assert Reaches(Next(w, a, maxAttempts), [], Next(w, a, maxAttempts), maxAttempts);
    RunStep(w, a, [], Next(w, a, maxAttempts), maxAttempts);
    assert [a] + [] == [a];
  }

  lemma {:induction false} RunsJoin(a: World, first: seq<Act>, b: World, second: seq<Act>, c: World, maxAttempts: nat)
    requires Reaches(a, first, b, maxAttempts) && Reaches(b, second, c, maxAttempts)
    ensures Reaches(a, first + second, c, maxAttempts)
    decreases |first|
  {
    hide Next;
    if first == [] {
      assert first + second == second;
    } else {
      RunsJoin(Next(a, first[0], maxAttempts), first[1..], b, second, c, maxAttempts);
      assert (first + second)[1..] == first[1..] + second;
    }
  }

  /** One dispatcher at work on two rows, with the clock standing still. */
  function Working(now: int, rows: seq<Row>, posts: seq<nat>, stage: Stage): World {
    World(now, rows, posts, [0, 0], Some(Lease(0, now + LEASE_TTL)), map[0 := stage])
  }

  lemma BeginsWorking(now: int, rows: seq<Row>, posts: seq<nat>, maxAttempts: nat)
    ensures Next(Working(now, rows, posts, Idle), Begins(0), maxAttempts) == Working(now, rows, posts, Fetching(now))
  {
  }

  lemma FetchesBatch(now: int, rows: seq<Row>, posts: seq<nat>, ids: seq<nat>, left: set<nat>, maxAttempts: nat)
    requires PendingBatch(rows, now, 2) == ids && LeftBehind(rows, now) == left
    ensures Next(Working(now, rows, posts, Fetching(now)), Fetches(0, 2), maxAttempts) == Working(now, rows, posts, Flushing(ids, now, left))
  {
  }

  lemma PostsNext(now: int, rows: seq<Row>, posts: seq<nat>, ids: seq<nat>, left: set<nat>, maxAttempts: nat)
    requires ids != [] && ids[0] < |posts|
    ensures Enabled(Working(now, rows, posts, Flushing(ids, now, left)), Renews(0))
    ensures Next(Working(now, rows, posts, Flushing(ids, now, left)), Renews(0), maxAttempts)
         == Working(now, rows, posts[ids[0] := posts[ids[0]] + 1], Posting(ids[0], ids[1..], now, left))
  {
  }

  lemma MarksPosted(now: int, rows: seq<Row>, posts: seq<nat>, id: nat, rest: seq<nat>, left: set<nat>, delivery: Delivery,
                    maxAttempts: nat)
    requires id < |rows|
    ensures Enabled(Working(now, rows, posts, Posting(id, rest, now, left)), Marks(0, delivery))
    ensures Next(Working(now, rows, posts, Posting(id, rest, now, left)), Marks(0, delivery), maxAttempts)
         == Working(now, rows[id := MarkedRow(rows[id], delivery, now, maxAttempts)], posts,
                    if StopsFlush(rows[id], delivery) then Idle else Flushing(rest, now, left + LeftBy(rows[id], id, delivery)))
  {
  }

  /** From the fetch to the first post of a batch. */
  lemma FlushStarts(now: int, rows: seq<Row>, posts: seq<nat>, ids: seq<nat>, left: set<nat>, maxAttempts: nat)
    requires PendingBatch(rows, now, 2) == ids && LeftBehind(rows, now) == left && ids != [] && ids[0] < |posts|
    ensures Reaches(Working(now, rows, posts, Fetching(now)), [Fetches(0, 2), Renews(0)],
                    Working(now, rows, posts[ids[0] := posts[ids[0]] + 1], Posting(ids[0], ids[1..], now, left)), maxAttempts)
  {
    FetchesBatch(now, rows, posts, ids, left, maxAttempts);
    PostsNext(now, rows, posts, ids, left, maxAttempts);
    hide Next;
    OneStep(Working(now, rows, posts, Flushing(ids, now, left)), Renews(0), maxAttempts);
    RunStep(Working(now, rows, posts, Fetching(now)), Fetches(0, 2), [Renews(0)],
            Working(now, rows, posts[ids[0] := posts[ids[0]] + 1], Posting(ids[0], ids[1..], now, left)), maxAttempts);
  }

  /** Two messages for the control plane are enqueued and a dispatcher posts the first of them. */
  const OPENING: seq<Act> := [Enqueues(true), Enqueues(true), Begins(0)] + [Fetches(0, 2), Renews(0)]

  function NewRow(now: int): Row {
    Row(true, Pending, 0, now)
  }

  lemma TwoDue(rows: seq<Row>, now: int)
    requires |rows| == 2
    ensures PendingBatch(rows, now, 2) == (if Due(rows, 0, now) then [0] else []) + (if Due(rows, 1, now) then [1] else [])
  {
    assert DueAmong(rows, 0, now) == [];
    assert DueAmong(rows, 1, now) == DueAmong(rows, 0, now) + (if Due(rows, 0, now) then [0] else []);
  }

  lemma BothDue(now: int)
    ensures PendingBatch([NewRow(now), NewRow(now)], now, 2) == [0, 1]
    ensures LeftBehind([NewRow(now), NewRow(now)], now) == {}
  {
    TwoDue([NewRow(now), NewRow(now)], now);
  }

  lemma EnqueuedAndBegun(now: int, maxAttempts: nat)
    ensures Reaches(Start(now), [Enqueues(true), Enqueues(true), Begins(0)],
                    Working(now, [NewRow(now), NewRow(now)], [0, 0], Fetching(now)), maxAttempts)
  {
    var w1 := Next(Start(now), Enqueues(true), maxAttempts);
    var w2 := Next(w1, Enqueues(true), maxAttempts);
    var w3 := Next(w2, Begins(0), maxAttempts);
    assert w3 == Working(now, [NewRow(now), NewRow(now)], [0, 0], Fetching(now));
    OneStep(w2, Begins(0), maxAttempts);
    RunStep(w1, Enqueues(true), [Begins(0)], w3, maxAttempts);
    RunStep(Start(now), Enqueues(true), [Enqueues(true), Begins(0)], w3, maxAttempts);
  }

  lemma OpeningRuns(now: int, maxAttempts: nat)
    ensures Reaches(Start(now), OPENING, Working(now, [NewRow(now), NewRow(now)], [1, 0], Posting(0, [1], now, {})), maxAttempts)
  {
    var rows := [NewRow(now), NewRow(now)];
    EnqueuedAndBegun(now, maxAttempts);
    BothDue(now);
    FlushStarts(now, rows, [0, 0], [0, 1], {}, maxAttempts);
    assert [0, 0][0 := 0 + 1] == [1, 0 as nat] && [0, 1][1..] == [1 as nat];
    hide Next;
    RunsJoin(Start(now), [Enqueues(true), Enqueues(true), Begins(0)], Working(now, rows, [0, 0], Fetching(now)),
             [Fetches(0, 2), Renews(0)], Working(now, rows, [1, 0], Posting(0, [1], now, {})), maxAttempts);
  }

  lemma SecondOnlyDue(now: int, row: Row)
    requires Passed(row, now)
    ensures PendingBatch([row, NewRow(now)], now, 2) == [1]
    ensures LeftBehind([row, NewRow(now)], now) == {0}
  {
    hide DueAmong, PendingBatch;
    TwoDue([row, NewRow(now)], now);
    var left := LeftBehind([row, NewRow(now)], now);
    assert 0 in left && forall x | x in left :: x == 0;
  }

  const RETRY: seq<Act> := [Marks(0, Failed), Begins(0)] + ([Fetches(0, 2), Renews(0)] + [Marks(0, Delivered)])

  lemma SecondDelivered(now: int, row: Row, posts: seq<nat>, left: set<nat>, maxAttempts: nat) returns (w: World)
    requires row.toControlPlane && !row.status.Sent?
    ensures Reaches(Working(now, [row, NewRow(now)], posts, Posting(1, [], now, left)), [Marks(0, Delivered)], w, maxAttempts)
    ensures !InIdOrder(w.rows)
  {
    MarksPosted(now, [row, NewRow(now)], posts, 1, [], left, Delivered, maxAttempts);
    var from := Working(now, [row, NewRow(now)], posts, Posting(1, [], now, left));
    OneStep(from, Marks(0, Delivered), maxAttempts);
    w := Next(from, Marks(0, Delivered), maxAttempts);
    assert w.rows[0] == row && w.rows[1].status.Sent? && w.rows[1].toControlPlane;
  }

  lemma FailedIsPassed(now: int, maxAttempts: nat)
    ensures Passed(MarkedRow(NewRow(now), Failed, now, maxAttempts), now)
  {
  }

  lemma RetryRuns(now: int, maxAttempts: nat) returns (w: World)
    ensures Reaches(Working(now, [NewRow(now), NewRow(now)], [1, 0], Posting(0, [1], now, {})), RETRY, w, maxAttempts)
    ensures !InIdOrder(w.rows)
  {
    hide Next, MarkedRow, PendingBatch, LeftBehind, Delay;
    var rows := [NewRow(now), NewRow(now)];
    FailedIsPassed(now, maxAttempts);
    var failed := MarkedRow(NewRow(now), Failed, now, maxAttempts);
    assert rows[0 := failed] == [failed, NewRow(now)];
    SecondOnlyDue(now, failed);
    MarksPosted(now, rows, [1, 0], 0, [1], {}, Failed, maxAttempts);
    BeginsWorking(now, [failed, NewRow(now)], [1, 0], maxAttempts);
    FlushStarts(now, [failed, NewRow(now)], [1, 0], [1], {0}, maxAttempts);
    var none: seq<nat> := [];
    assert [1, 0][1 := 0 + 1] == [1, 1 as nat] && [1][1..] == none;
    w := SecondDelivered(now, failed, [1, 1], {0}, maxAttempts);
    RunsJoin(Working(now, [failed, NewRow(now)], [1, 0], Fetching(now)), [Fetches(0, 2), Renews(0)],
             Working(now, [failed, NewRow(now)], [1, 1], Posting(1, [], now, {0})), [Marks(0, Delivered)], w, maxAttempts);
    var tail := [Fetches(0, 2), Renews(0)] + [Marks(0, Delivered)];
    RunStep(Working(now, [failed, NewRow(now)], [1, 0], Idle), Begins(0), tail, w, maxAttempts);
    RunStep(Working(now, rows, [1, 0], Posting(0, [1], now, {})), Marks(0, Failed), [Begins(0)] + tail, w, maxAttempts);
    assert [Marks(0, Failed)] + ([Begins(0)] + tail) == RETRY;
  }

  /** One failure is enough: the flush stops, as the code says to preserve the order, and the next flush of the same
      dispatcher delivers the second message while the first one waits or, at its last attempt, is dead. */
  lemma FailureBreaksOrder(now: int, maxAttempts: nat)
    ensures exists w :: Reaches(Start(now), OPENING + RETRY, w, maxAttempts) && !InIdOrder(w.rows)
  {
    OpeningRuns(now, maxAttempts);
    var w := RetryRuns(now, maxAttempts);
    RunsJoin(Start(now), OPENING, Working(now, [NewRow(now), NewRow(now)], [1, 0], Posting(0, [1], now, {})), RETRY, w, maxAttempts);
  }

  const ONWARDS: seq<Act> := [Marks(0, RejectedForGood), Renews(0)] + [Marks(0, Delivered)]

  /** And within one flush a permanent rejection is: it does not stop the flush. */
  lemma RejectionBreaksOrder(now: int, maxAttempts: nat)
    ensures exists w :: Reaches(Start(now), OPENING + ONWARDS, w, maxAttempts) && !InIdOrder(w.rows)
  {
    OpeningRuns(now, maxAttempts);
    var rows := [NewRow(now), NewRow(now)];
    var rejected := MarkedRow(NewRow(now), RejectedForGood, now, maxAttempts);
    assert rows[0 := rejected] == [rejected, NewRow(now)];
    MarksPosted(now, rows, [1, 0], 0, [1], {}, RejectedForGood, maxAttempts);
    var left := {} + LeftBy(NewRow(now), 0, RejectedForGood);
    PostsNext(now, [rejected, NewRow(now)], [1, 0], [1], left, maxAttempts);
    var none: seq<nat> := [];
    assert [1, 0][1 := 0 + 1] == [1, 1 as nat] && [1][1..] == none;
    var w := SecondDelivered(now, rejected, [1, 1], left, maxAttempts);
    var posting := Working(now, rows, [1, 0], Posting(0, [1], now, {}));
    hide Next, MarkedRow;
    RunStep(Working(now, [rejected, NewRow(now)], [1, 0], Flushing([1], now, left)), Renews(0), [Marks(0, Delivered)], w, maxAttempts);
    RunStep(posting, Marks(0, RejectedForGood), [Renews(0)] + [Marks(0, Delivered)], w, maxAttempts);
    assert [Marks(0, RejectedForGood)] + ([Renews(0)] + [Marks(0, Delivered)]) == ONWARDS;
    RunsJoin(Start(now), OPENING, posting, ONWARDS, w, maxAttempts);
  }
}
