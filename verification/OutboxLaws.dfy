/** Dispatchers of several processes over one outbox under a clock: exclusion by the lease, and how often a
    row can be posted. */
module OutboxLaws {
  import opened Common
  import opened Outbox

  /** `since` is when the dispatcher last took or renewed the lease. `left` notes the control plane rows that the
      flush goes past without delivering them; the code does not keep it. */
  datatype Stage =
    | Idle
    | Fetching(since: int)
    | Flushing(ids: seq<nat>, since: int, left: set<nat>)
    | Posting(id: nat, rest: seq<nat>, since: int, left: set<nat>)

  /** `posts` counts the posts of a row, `lost` those whose mark was lost in a crash. */
  datatype World = World(now: int, rows: seq<Row>, posts: seq<nat>, lost: seq<nat>, lease: Option<Lease>, stages: map<nat, Stage>)

  datatype Act =
    | Ticks(seconds: nat)
    | Enqueues(toControlPlane: bool)
    | Begins(owner: nat)
    | Fetches(owner: nat, limit: nat)
    | Renews(owner: nat)
    | Marks(owner: nat, delivery: Delivery)
    | Ends(owner: nat)
    | Crashes(owner: nat)

  function StageOf(w: World, owner: nat): Stage {
    if owner in w.stages then w.stages[owner] else Idle
  }

  predicate Alive(s: Stage, now: int) {
    s.Idle? || now < s.since + LEASE_TTL
  }

  /** Between two renewals a dispatcher spends less than the time to live: fetching the batch, or one post
      and its mark. */
  ghost predicate InTime(w: World, now: int) {
    forall o | o in w.stages :: Alive(w.stages[o], now)
  }

  ghost predicate Enabled(w: World, a: Act) {
    match a
    case Ticks(seconds) => InTime(w, w.now + seconds)
    case Enqueues(_) => true
    case Begins(o) => StageOf(w, o).Idle?
    case Fetches(o, _) => StageOf(w, o).Fetching?
    case Renews(o) => StageOf(w, o).Flushing? && StageOf(w, o).ids != [] && StageOf(w, o).ids[0] < |w.posts|
    case Marks(o, _) => StageOf(w, o).Posting? && StageOf(w, o).id < |w.rows|
    case Ends(o) => StageOf(w, o).Flushing? && StageOf(w, o).ids == []
    case Crashes(_) => true
  }

  function At(w: World, owner: nat, s: Stage): World {
    w.(stages := w.stages[owner := s])
  }

  /** A fetch goes past a row that is dead and past one that waits for its next attempt. */
  predicate Passed(row: Row, now: int) {
    row.toControlPlane && (row.status.Dead? || (row.status.Pending? && row.nextAt > now))
  }

  function LeftBehind(rows: seq<Row>, now: int): set<nat> {
    set id: nat | id < |rows| && Passed(rows[id], now)
  }

  /** A flush goes past a row that was rejected for good. */
  function LeftBy(row: Row, id: nat, delivery: Delivery): set<nat> {
    if row.toControlPlane && delivery.RejectedForGood? then {id} else {}
  }

  function Next(w: World, a: Act, maxAttempts: nat): World
    requires Enabled(w, a)
  {
    match a
    case Ticks(seconds) => w.(now := w.now + seconds)
    case Enqueues(cp) =>
      w.(rows := w.rows + [Row(cp, Pending, 0, w.now)], posts := w.posts + [0], lost := w.lost + [0])
    case Begins(o) =>
      var taken := Held(w.lease, o, w.now);
      if taken.None? then w else At(w.(lease := taken), o, Fetching(w.now))
    case Fetches(o, limit) => At(w, o, Flushing(PendingBatch(w.rows, w.now, limit), w.stages[o].since, LeftBehind(w.rows, w.now)))
    case Renews(o) =>
      var taken := Held(w.lease, o, w.now);
      var ids := w.stages[o].ids;
      if taken.None? then At(w, o, Idle)
      else At(w.(lease := taken, posts := w.posts[ids[0] := w.posts[ids[0]] + 1]), o, Posting(ids[0], ids[1..], w.now, w.stages[o].left))
    case Marks(o, delivery) =>
      var id := w.stages[o].id;
      var w' := w.(rows := w.rows[id := MarkedRow(w.rows[id], delivery, w.now, maxAttempts)]);
      At(w', o, if StopsFlush(w.rows[id], delivery) then Idle
                else Flushing(w.stages[o].rest, w.stages[o].since, w.stages[o].left + LeftBy(w.rows[id], id, delivery)))
    case Ends(o) => At(w, o, Idle)
    case Crashes(o) =>
      var lost := if StageOf(w, o).Posting? && StageOf(w, o).id < |w.lost| then w.lost[StageOf(w, o).id := w.lost[StageOf(w, o).id] + 1]
                  else w.lost;
      At(w.(lost := lost), o, Idle)
  }

  // ------------------------------------------------------------------ the invariant

  /** Who is not idle holds the lease. */
  ghost predicate Holds(w: World, o: nat)
    requires o in w.stages
  {
    !w.stages[o].Idle? ==> Alive(w.stages[o], w.now) && w.lease == Some(Lease(o, w.stages[o].since + LEASE_TTL))
  }

  /** What is still to be delivered is pending, each row once. */
  predicate Deliverable(rows: seq<Row>, ids: seq<nat>) {
    && (forall k | 0 <= k < |ids| :: ids[k] < |rows| && rows[ids[k]].status.Pending?)
    && (forall j, k | 0 <= j < k < |ids| :: ids[j] != ids[k])
  }

  ghost predicate Batch(w: World, o: nat)
    requires o in w.stages
  {
    match w.stages[o]
    case Flushing(ids, _, _) => Deliverable(w.rows, ids)
    case Posting(id, rest, _, _) => Deliverable(w.rows, [id] + rest)
    case _ => true
  }

  predicate InFlight(w: World, o: nat, id: nat) {
    StageOf(w, o).Posting? && StageOf(w, o).id == id
  }

  ghost predicate Counted(w: World, maxAttempts: nat, id: nat)
    requires id < |w.rows| == |w.posts| == |w.lost|
  {
    var row := w.rows[id];
    && (row.status.Pending? ==> row.attempts < maxAttempts)
    && row.attempts <= maxAttempts && (row.status.Sent? ==> row.attempts < maxAttempts)
    && w.posts[id] == row.attempts + (if row.status.Sent? then 1 else 0) + w.lost[id]
                      + (if exists o :: InFlight(w, o, id) then 1 else 0)
  }

  ghost predicate Invariant(w: World, maxAttempts: nat) {
    && |w.rows| == |w.posts| == |w.lost|
    && (forall o {:trigger Holds(w, o)} | o in w.stages :: Holds(w, o))
    && (forall o {:trigger Batch(w, o)} | o in w.stages :: Batch(w, o))
    && (forall id: nat {:trigger Counted(w, maxAttempts, id)} | id < |w.rows| :: Counted(w, maxAttempts, id))
  }

  /** At most one dispatcher is at work. */
  lemma OneHolder(w: World, maxAttempts: nat, o: nat, p: nat)
    requires Invariant(w, maxAttempts) && !StageOf(w, o).Idle? && !StageOf(w, p).Idle?
    ensures o == p
  {
    assert Holds(w, o) && Holds(w, p);
  }

  lemma TickKeeps(w: World, seconds: nat, maxAttempts: nat)
    requires Invariant(w, maxAttempts) && Enabled(w, Ticks(seconds))
    ensures Invariant(Next(w, Ticks(seconds), maxAttempts), maxAttempts)
  {
    var w' := Next(w, Ticks(seconds), maxAttempts);
    forall o | o in w'.stages
      ensures Holds(w', o) && Batch(w', o)
    {
      assert Holds(w, o) && Batch(w, o);
    }
    forall id: nat | id < |w'.rows|
      ensures Counted(w', maxAttempts, id)
    {
      assert Counted(w, maxAttempts, id);
      assert forall o :: InFlight(w', o, id) == InFlight(w, o, id);
    }
  }

  lemma EnqueueKeeps(w: World, cp: bool, maxAttempts: nat)
    requires Invariant(w, maxAttempts) && maxAttempts > 0
    ensures Invariant(Next(w, Enqueues(cp), maxAttempts), maxAttempts)
  {
    var w' := Next(w, Enqueues(cp), maxAttempts);
    forall o | o in w'.stages
      ensures Holds(w', o) && Batch(w', o)
    {
      assert Holds(w, o) && Batch(w, o);
    }
    forall id: nat | id < |w'.rows|
      ensures Counted(w', maxAttempts, id)
    {
      assert forall o :: InFlight(w', o, id) == InFlight(w, o, id);
      if id < |w.rows| {
        assert Counted(w, maxAttempts, id);
      } else {
        forall o
          ensures !InFlight(w, o, id)
        {
          assert o in w.stages ==> Batch(w, o);
          assert StageOf(w, o).Posting? ==> ([StageOf(w, o).id] + StageOf(w, o).rest)[0] == StageOf(w, o).id;
        }
      }
    }
  }

  /** A dispatcher that is not posting, before and after, changes no count. */
  lemma StageKeeps(w: World, w': World, o: nat, s: Stage, maxAttempts: nat)
    requires Invariant(w, maxAttempts) && w' == At(w.(lease := w'.lease), o, s)
    requires !StageOf(w, o).Posting? && !s.Posting?
    requires forall p | p in w.stages && p != o :: w.stages[p].Idle? || w'.lease == w.lease
    requires Holds(w', o) && Batch(w', o)
    ensures Invariant(w', maxAttempts)
  {
    forall p | p in w'.stages
      ensures Holds(w', p) && Batch(w', p)
    {
      assert p != o ==> Holds(w, p) && Batch(w, p);
    }
    forall id: nat | id < |w'.rows|
      ensures Counted(w', maxAttempts, id)
    {
      assert Counted(w, maxAttempts, id);
      assert forall p :: InFlight(w', p, id) == InFlight(w, p, id);
    }
  }

  lemma BeginKeeps(w: World, o: nat, maxAttempts: nat)
    requires Invariant(w, maxAttempts) && Enabled(w, Begins(o))
    ensures Invariant(Next(w, Begins(o), maxAttempts), maxAttempts)
  {
    forall p | p in w.stages
      ensures Holds(w, p)
    {
    }
    if Held(w.lease, o, w.now).Some? {
      StageKeeps(w, Next(w, Begins(o), maxAttempts), o, Fetching(w.now), maxAttempts);
    }
  }

  lemma FetchKeeps(w: World, o: nat, limit: nat, maxAttempts: nat)
    requires Invariant(w, maxAttempts) && Enabled(w, Fetches(o, limit))
    ensures Invariant(Next(w, Fetches(o, limit), maxAttempts), maxAttempts)
  {
    var ids := PendingBatch(w.rows, w.now, limit);
    assert Holds(w, o);
    assert Deliverable(w.rows, ids);
    StageKeeps(w, Next(w, Fetches(o, limit), maxAttempts), o, Flushing(ids, w.stages[o].since, LeftBehind(w.rows, w.now)), maxAttempts);
  }

  /** A renewal in the middle of a flush never fails. */
  lemma RenewalSucceeds(w: World, o: nat, maxAttempts: nat)
    requires Invariant(w, maxAttempts) && !StageOf(w, o).Idle?
    ensures Held(w.lease, o, w.now).Some?
  {
    assert Holds(w, o);
  }

  lemma RenewKeeps(w: World, o: nat, maxAttempts: nat)
    requires Invariant(w, maxAttempts) && Enabled(w, Renews(o))
    ensures Invariant(Next(w, Renews(o), maxAttempts), maxAttempts)
  {
    var w' := Next(w, Renews(o), maxAttempts);
    RenewalSucceeds(w, o, maxAttempts);
    var ids := w.stages[o].ids;
    assert Batch(w, o);
    assert [ids[0]] + ids[1..] == ids;
    forall p | p in w'.stages
      ensures Holds(w', p) && Batch(w', p)
    {
      assert p in w.stages ==> Holds(w, p) && Batch(w, p);
      assert Holds(w, o);
    }
    forall id: nat | id < |w'.rows|
      ensures Counted(w', maxAttempts, id)
    {
      assert Counted(w, maxAttempts, id);
      OnlyFlight(w, w', o, id, maxAttempts);
    }
  }

  /** Starting to post is the only change of what is in flight. */
  lemma OnlyFlight(w: World, w': World, o: nat, id: nat, maxAttempts: nat)
    requires Invariant(w, maxAttempts) && StageOf(w, o).Flushing? && StageOf(w', o).Posting?
    requires forall p | p != o :: StageOf(w', p) == StageOf(w, p)
    ensures forall p :: !InFlight(w, p, id)
    ensures (exists p :: InFlight(w', p, id)) <==> StageOf(w', o).id == id
  {
    forall p
      ensures !InFlight(w, p, id)
      ensures InFlight(w', p, id) ==> p == o
    {
      if !StageOf(w, p).Idle? {
        OneHolder(w, maxAttempts, o, p);
      }
      assert p != o ==> InFlight(w', p, id) == InFlight(w, p, id);
    }
    assert InFlight(w', o, StageOf(w', o).id);
  }

  /** When the only poster stops nothing is in flight. */
  lemma FlightEnds(w: World, w': World, o: nat, id: nat, maxAttempts: nat)
    requires Invariant(w, maxAttempts) && StageOf(w, o).Posting? && !StageOf(w', o).Posting?
    requires forall p | p != o :: StageOf(w', p) == StageOf(w, p)
    ensures forall p :: !InFlight(w', p, id)
    ensures (exists p :: InFlight(w, p, id)) <==> StageOf(w, o).id == id
  {
    forall p
      ensures !InFlight(w', p, id)
      ensures InFlight(w, p, id) ==> p == o
    {
      if !StageOf(w, p).Idle? {
        OneHolder(w, maxAttempts, o, p);
      }
    }
    assert InFlight(w, o, StageOf(w, o).id);
  }

  lemma MarkKeeps(w: World, o: nat, delivery: Delivery, maxAttempts: nat)
    requires Invariant(w, maxAttempts) && Enabled(w, Marks(o, delivery))
    ensures Invariant(Next(w, Marks(o, delivery), maxAttempts), maxAttempts)
  {
    var w' := Next(w, Marks(o, delivery), maxAttempts);
    var (id, rest) := (w.stages[o].id, w.stages[o].rest);
    assert Batch(w, o) && Holds(w, o);
    assert ([id] + rest)[0] == id && forall k | 0 <= k < |rest| :: ([id] + rest)[k + 1] == rest[k];
    forall p | p in w'.stages
      ensures Holds(w', p) && Batch(w', p)
    {
      if p != o {
        assert Holds(w, p);
        if !w.stages[p].Idle? {
          OneHolder(w, maxAttempts, o, p);
        }
      }
    }
    forall x: nat | x < |w'.rows|
      ensures Counted(w', maxAttempts, x)
    {
      MarkCounts(w, o, delivery, maxAttempts, x);
    }
  }

  lemma MarkCounts(w: World, o: nat, delivery: Delivery, maxAttempts: nat, x: nat)
    requires Invariant(w, maxAttempts) && Enabled(w, Marks(o, delivery)) && x < |w.rows|
    requires w.rows[StageOf(w, o).id].status.Pending?
    ensures Counted(Next(w, Marks(o, delivery), maxAttempts), maxAttempts, x)
  {
    assert Counted(w, maxAttempts, x);
    FlightEnds(w, Next(w, Marks(o, delivery), maxAttempts), o, x, maxAttempts);
  }

  lemma CrashKeeps(w: World, o: nat, maxAttempts: nat)
    requires Invariant(w, maxAttempts)
    ensures Invariant(Next(w, Crashes(o), maxAttempts), maxAttempts)
  {
    var w' := Next(w, Crashes(o), maxAttempts);
    assert Holds(w', o) && Batch(w', o);
    if StageOf(w, o).Posting? {
      assert Batch(w, o) && ([StageOf(w, o).id] + StageOf(w, o).rest)[0] == StageOf(w, o).id;
      forall p | p in w'.stages
        ensures Holds(w', p) && Batch(w', p)
      {
        assert p != o ==> Holds(w, p) && Batch(w, p);
      }
      forall x: nat | x < |w'.rows|
        ensures Counted(w', maxAttempts, x)
      {
        assert Counted(w, maxAttempts, x);
        FlightEnds(w, w', o, x, maxAttempts);
      }
    } else {
      StageKeeps(w, w', o, Idle, maxAttempts);
    }
  }

  lemma StepKeeps(w: World, a: Act, maxAttempts: nat)
    requires Invariant(w, maxAttempts) && Enabled(w, a) && maxAttempts > 0
    ensures Invariant(Next(w, a, maxAttempts), maxAttempts)
  {
    match a {
      case Ticks(seconds) => TickKeeps(w, seconds, maxAttempts);
      case Enqueues(cp) => EnqueueKeeps(w, cp, maxAttempts);
      case Begins(o) => BeginKeeps(w, o, maxAttempts);
      case Fetches(o, limit) => FetchKeeps(w, o, limit, maxAttempts);
      case Renews(o) => RenewKeeps(w, o, maxAttempts);
      case Marks(o, delivery) => MarkKeeps(w, o, delivery, maxAttempts);
      case Ends(o) => StageKeeps(w, Next(w, a, maxAttempts), o, Idle, maxAttempts);
      case Crashes(o) => CrashKeeps(w, o, maxAttempts);
    }
  }

  // ------------------------------------------------------------------ every run

  ghost predicate Reaches(w: World, acts: seq<Act>, w': World, maxAttempts: nat)
    decreases |acts|
  {
    if acts == [] then w' == w
    else Enabled(w, acts[0]) && Reaches(Next(w, acts[0], maxAttempts), acts[1..], w', maxAttempts)
  }

  lemma {:induction false} RunKeeps(w: World, acts: seq<Act>, w': World, maxAttempts: nat)
    requires Invariant(w, maxAttempts) && Reaches(w, acts, w', maxAttempts) && maxAttempts > 0
    ensures Invariant(w', maxAttempts)
    decreases |acts|
  {
    if acts != [] {
      StepKeeps(w, acts[0], maxAttempts);
      RunKeeps(Next(w, acts[0], maxAttempts), acts[1..], w', maxAttempts);
    }
  }

  function Start(now: int): World {
    World(now, [], [], [], None, map[])
  }

  /** No two dispatchers are ever at work at once, no flush loses its lease midway, and what is being
      posted is a pending row. */
  lemma DeliveryIsExclusive(now: int, acts: seq<Act>, w: World, maxAttempts: nat, o: nat)
    requires Reaches(Start(now), acts, w, maxAttempts) && maxAttempts > 0 && !StageOf(w, o).Idle?
    ensures forall p | p != o :: StageOf(w, p).Idle?
    ensures Held(w.lease, o, w.now).Some? && forall p | p != o :: Held(w.lease, p, w.now).None?
    ensures StageOf(w, o).Posting? ==> StageOf(w, o).id < |w.rows| && w.rows[StageOf(w, o).id].status.Pending?
  {
    RunKeeps(Start(now), acts, w, maxAttempts);
    assert Holds(w, o) && Batch(w, o);
    forall p | p != o
      ensures StageOf(w, p).Idle?
    {
      if !StageOf(w, p).Idle? {
        OneHolder(w, maxAttempts, o, p);
      }
    }
    if StageOf(w, o).Posting? {
      assert ([StageOf(w, o).id] + StageOf(w, o).rest)[0] == StageOf(w, o).id;
    }
  }

  /** Every post of a row is accounted for: it counted as an attempt, delivered it, lost its mark in a crash, or is under
      way. So a row that is SENT was posted, a pending row has attempts left, and no row is posted more often than it may be
      attempted, but for the posts whose mark a crash lost; a row that has used up its posts is pending no more. */
  lemma PostsAreBounded(now: int, acts: seq<Act>, w: World, maxAttempts: nat, id: nat)
    requires Reaches(Start(now), acts, w, maxAttempts) && maxAttempts > 0 && id < |w.rows|
    ensures id < |w.posts| && id < |w.lost|
    ensures w.posts[id] == w.rows[id].attempts + (if w.rows[id].status == Sent then 1 else 0) + w.lost[id]
                           + (if exists o :: InFlight(w, o, id) then 1 else 0)
    ensures w.rows[id].status.Pending? ==> w.rows[id].attempts < maxAttempts
    ensures w.posts[id] <= maxAttempts + w.lost[id]
    ensures w.posts[id] == maxAttempts + w.lost[id] && (forall o :: !InFlight(w, o, id)) ==> !w.rows[id].status.Pending?
  {
    RunKeeps(Start(now), acts, w, maxAttempts);
    assert Counted(w, maxAttempts, id);
    if o :| InFlight(w, o, id) {
      assert Batch(w, o) && ([id] + StageOf(w, o).rest)[0] == id;
    }
  }
}
