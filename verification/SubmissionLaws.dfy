/** What the submission protocol guarantees over every run: one network call per intent, however many
    workers race and whenever they die, and when "not found" may be believed. */
module SubmissionLaws {
  import opened Common
  import opened OrderModel
  import opened Ledger
  import LedgerLaws
  import opened Submission

  // ------------------------------------------------------------------ racing workers

  /** Where a worker stands inside the submission of an intent. */
  datatype Stage = Idle | LookedUp(intent: Intent) | Committed(order: ClientOrderId)

  /** `sent` lists the submissions the exchange was asked for, in order. */
  datatype World = World(db: Db, stage: map<nat, Stage>, sent: seq<ClientOrderId>)

  /** One atomic step; between any two of them every other worker may act. A crash forgets where the
      worker was and keeps what is committed. */
  datatype Act =
    | LookUp(worker: nat, intent: Intent)
    | Commit(worker: nat, now: int)
    | Send(worker: nat)
    | Crash(worker: nat)
    | Ledger(step: Step)

  function StageOf(w: World, worker: nat): Stage {
    if worker in w.stage then w.stage[worker] else Idle
  }

  ghost predicate Enabled(w: World, a: Act) {
    match a
    case LookUp(k, _) => StageOf(w, k).Idle?
    case Commit(k, _) => StageOf(w, k).LookedUp?
    case Send(k) => StageOf(w, k).Committed?
    case Crash(_) => true
    case Ledger(s) => !s.op.Persist?
  }

  function Next(w: World, a: Act): (w': World)
    requires WellFormed(w.db) && Enabled(w, a)
    ensures WellFormed(w'.db)
  {
    match a
    case LookUp(k, i) => w.(stage := w.stage[k := if i.id in w.db.intents then Idle else LookedUp(i)])
    case Commit(k, now) =>
      var i := w.stage[k].intent;
      var (db', created) := PersistIntent(w.db, i, now);
      w.(db := db', stage := w.stage[k := if created then Committed(BotOrder(i.id)) else Idle])
    case Send(k) => w.(stage := w.stage[k := Idle], sent := w.sent + [w.stage[k].order])
    case Crash(k) => w.(stage := w.stage[k := Idle])
    case Ledger(s) => w.(db := After(w.db, s))
  }

  ghost predicate Tracked(db: Db, c: ClientOrderId) {
    c in db.orders && c.BotOrder? && c.intent in db.intents && Rank(db.orders[c].status) >= 1
  }

  ghost predicate Unsent(w: World, k: nat)
    requires k in w.stage
  {
    w.stage[k].Committed? ==> Tracked(w.db, w.stage[k].order) && w.stage[k].order !in w.sent
  }

  ghost predicate AtMostOnce(sent: seq<ClientOrderId>) {
    forall i, j | 0 <= i < j < |sent| :: sent[i] != sent[j]
  }

  ghost predicate Invariant(w: World) {
    && WellFormed(w.db)
    && AtMostOnce(w.sent)
    && (forall c | c in w.sent :: Tracked(w.db, c))
    && (forall k {:trigger Unsent(w, k)} | k in w.stage :: Unsent(w, k))
    && (forall j, k {:trigger w.stage[j], w.stage[k]} | j in w.stage && k in w.stage && j != k && w.stage[j].Committed? ::
          w.stage[j] != w.stage[k])
  }

  lemma TrackedAdvances(db: Db, db': Db, c: ClientOrderId)
    requires WellFormed(db') && LedgerLaws.OrdersAdvance(db, db') && Tracked(db, c)
    ensures Tracked(db', c)
  {
    assert RowFits(db', c);
  }

  /** What a transaction of anybody else does to the protocol: nothing. */
  lemma AdvanceKeeps(w: World, db': Db)
    requires Invariant(w) && WellFormed(db') && LedgerLaws.OrdersAdvance(w.db, db')
    ensures Invariant(w.(db := db'))
  {
    forall c | Tracked(w.db, c)
      ensures Tracked(db', c)
    {
      TrackedAdvances(w.db, db', c);
    }
    forall k | k in w.stage
      ensures Unsent(w.(db := db'), k)
    {
      assert Unsent(w, k);
    }
  }

  lemma StageKeeps(w: World, k: nat, s: Stage)
    requires Invariant(w)
    requires s.Committed? ==> Tracked(w.db, s.order) && s.order !in w.sent
    requires s.Committed? ==> forall j | j in w.stage && j != k :: w.stage[j] != s
    ensures Invariant(w.(stage := w.stage[k := s]))
  {
    var w' := w.(stage := w.stage[k := s]);
    forall j | j in w'.stage
      ensures Unsent(w', j)
    {
      assert j != k ==> Unsent(w, j);
    }
  }

  lemma PersistKeeps(w: World, k: nat, now: int)
    requires Invariant(w) && StageOf(w, k).LookedUp?
    ensures Invariant(Next(w, Commit(k, now)))
  {
    var i := w.stage[k].intent;
    var (db', created) := PersistIntent(w.db, i, now);
    LedgerLaws.PersistAdvances(w.db, i, now);
    AdvanceKeeps(w, db');
    var c := BotOrder(i.id);
    if created {
      assert !Tracked(w.db, c);
      assert RowFits(db', c);
      forall j | j in w.stage
        ensures w.stage[j] != Committed(c)
      {
        assert Unsent(w, j);
      }
    }
    StageKeeps(w.(db := db'), k, if created then Committed(c) else Idle);
  }

  lemma SendKeeps(w: World, k: nat)
    requires Invariant(w) && StageOf(w, k).Committed?
    ensures Invariant(Next(w, Send(k)))
  {
    var w' := Next(w, Send(k));
    assert Unsent(w, k);
    forall j | j in w'.stage
      ensures Unsent(w', j)
    {
      assert j != k ==> Unsent(w, j) && w.stage[j] != w.stage[k];
    }
  }

  lemma StepKeeps(w: World, a: Act)
    requires Invariant(w) && Enabled(w, a)
    ensures Invariant(Next(w, a)) && w.sent <= Next(w, a).sent
  {
    match a {
      case LookUp(k, i) => StageKeeps(w, k, if i.id in w.db.intents then Idle else LookedUp(i));
      case Commit(k, now) => PersistKeeps(w, k, now);
      case Send(k) => SendKeeps(w, k);
      case Crash(k) => StageKeeps(w, k, Idle);
      case Ledger(s) =>
        LedgerLaws.StepAdvances(w.db, s);
        AdvanceKeeps(w, After(w.db, s));
    }
  }

  ghost predicate Reaches(w: World, acts: seq<Act>, w': World)
    requires WellFormed(w.db)
    decreases |acts|
  {
    if acts == [] then w' == w
    else Enabled(w, acts[0]) && Reaches(Next(w, acts[0]), acts[1..], w')
  }

  lemma {:induction false} RunKeeps(w: World, acts: seq<Act>, w': World)
    requires Invariant(w) && Reaches(w, acts, w')
    ensures Invariant(w') && w.sent <= w'.sent
    decreases |acts|
  {
    if acts != [] {
      StepKeeps(w, acts[0]);
      RunKeeps(Next(w, acts[0]), acts[1..], w');
    }
  }

  const START: World := World(EMPTY, map[], [])

  /** However many workers race and wherever they crash, the exchange is asked at most once per client
      order id, and never for an order that is not already on record in SUBMITTING or later. */
  lemma AtMostOneSubmission(acts: seq<Act>, w: World)
    requires Reaches(START, acts, w)
    ensures AtMostOnce(w.sent)
    ensures forall c | c in w.sent :: c in w.db.orders && w.db.orders[c].status != IntentCreated
  {
    RunKeeps(START, acts, w);
    forall c | c in w.sent
      ensures w.db.orders[c].status != IntentCreated
    {
      assert Tracked(w.db, c);
    }
  }

  // ------------------------------------------------------------------ where every order is

  ghost predicate AboutToSend(w: World, c: ClientOrderId) {
    exists k :: k in w.stage && w.stage[k] == Committed(c)
  }

  /** The order whose worker dies between the commit and the call. */
  ghost function LostIn(w: World, a: Act): set<ClientOrderId> {
    if a.Crash? && StageOf(w, a.worker).Committed? then {StageOf(w, a.worker).order} else {}
  }

  ghost function LostOver(w: World, acts: seq<Act>): set<ClientOrderId>
    requires WellFormed(w.db)
    decreases |acts|
  {
    if acts == [] || !Enabled(w, acts[0]) then {} else LostIn(w, acts[0]) + LostOver(Next(w, acts[0]), acts[1..])
  }

  /** An order was asked for, or one worker is about to, or its worker died before: exactly one of the three. */
  ghost predicate Placed(w: World, lost: set<ClientOrderId>, c: ClientOrderId) {
    && (c in w.db.orders <==> c in w.sent || AboutToSend(w, c) || c in lost)
    && !(c in w.sent && AboutToSend(w, c)) && !(c in w.sent && c in lost) && !(AboutToSend(w, c) && c in lost)
  }

  lemma CommitPlaces(w: World, k: nat, now: int, lost: set<ClientOrderId>, c: ClientOrderId)
    requires Invariant(w) && StageOf(w, k).LookedUp? && Placed(w, lost, c)
    ensures Placed(Next(w, Commit(k, now)), lost, c)
  {
    var w', i := Next(w, Commit(k, now)), w.stage[k].intent;
    assert BotOrder(i.id) in w.db.orders ==> RowFits(w.db, BotOrder(i.id));
    assert w'.db.orders.Keys == w.db.orders.Keys + (if i.id in w.db.intents then {} else {BotOrder(i.id)});
    if c == BotOrder(i.id) && i.id !in w.db.intents {
      assert w'.stage[k] == Committed(c);
    } else {
      SameStages(w, w', k, c);
    }
  }

  /** A worker that is about to send nothing of the kind, before and after, makes no difference. */
  lemma SameStages(w: World, w': World, k: nat, c: ClientOrderId)
    requires forall j :: j != k ==> (j in w.stage <==> j in w'.stage) && (j in w.stage ==> w'.stage[j] == w.stage[j])
    requires StageOf(w, k) != Committed(c) && StageOf(w', k) != Committed(c)
    ensures AboutToSend(w, c) <==> AboutToSend(w', c)
  {
    if AboutToSend(w, c) {
      var j :| j in w.stage && w.stage[j] == Committed(c);
      assert j in w'.stage && w'.stage[j] == Committed(c);
    }
    if AboutToSend(w', c) {
      var j :| j in w'.stage && w'.stage[j] == Committed(c);
      assert j in w.stage && w.stage[j] == Committed(c);
    }
  }

  /** A worker that lets go of its order was the only one to have it. */
  lemma OnlyOneHolds(w: World, w': World, k: nat, c: ClientOrderId)
    requires Invariant(w) && StageOf(w, k) == Committed(c) && w'.stage == w.stage[k := Idle]
    ensures AboutToSend(w, c) && !AboutToSend(w', c)
  {
    assert w.stage[k] == Committed(c);
    forall j | j in w'.stage
      ensures w'.stage[j] != Committed(c)
    {
      assert j != k ==> w.stage[k] != w.stage[j];
    }
  }

  lemma StepPlaces(w: World, a: Act, lost: set<ClientOrderId>, c: ClientOrderId)
    requires Invariant(w) && Enabled(w, a) && Placed(w, lost, c)
    ensures Placed(Next(w, a), lost + LostIn(w, a), c)
  {
    var w' := Next(w, a);
    match a {
      case LookUp(k, i) => SameStages(w, w', k, c);
      case Commit(k, now) => CommitPlaces(w, k, now, lost, c);
      case Send(k) =>
        assert Unsent(w, k);
        if StageOf(w, k) == Committed(c) {
          OnlyOneHolds(w, w', k, c);
        } else {
          SameStages(w, w', k, c);
        }
      case Crash(k) =>
        if StageOf(w, k) == Committed(c) {
          OnlyOneHolds(w, w', k, c);
        } else {
          SameStages(w, w', k, c);
        }
      case Ledger(s) => LedgerLaws.StepKeepsNames(w.db, s);
    }
  }

  lemma {:induction false} RunPlaces(w: World, acts: seq<Act>, w': World, lost: set<ClientOrderId>, c: ClientOrderId)
    requires Invariant(w) && Reaches(w, acts, w') && Placed(w, lost, c)
    ensures Placed(w', lost + LostOver(w, acts), c)
    decreases |acts|
  {
    if acts == [] {
      assert lost + {} == lost;
    } else {
      StepKeeps(w, acts[0]);
      StepPlaces(w, acts[0], lost, c);
      RunPlaces(Next(w, acts[0]), acts[1..], w', lost + LostIn(w, acts[0]), c);
      assert lost + LostIn(w, acts[0]) + LostOver(Next(w, acts[0]), acts[1..]) == lost + LostOver(w, acts);
    }
  }

  /** Over every run each order on record is in exactly one place: the exchange was asked for it, once; or one worker is
      about to ask; or its worker has crashed in between, and nobody asks any more. So without such a crash every order
      goes out. */
  lemma EveryOrderIsSomewhere(acts: seq<Act>, w: World, c: ClientOrderId)
    requires Reaches(START, acts, w)
    ensures Placed(w, LostOver(START, acts), c)
  {
    RunPlaces(START, acts, w, {}, c);
    assert {} + LostOver(START, acts) == LostOver(START, acts);
  }

  // ------------------------------------------------------------------ an order given up as not found

  predicate GivenUp(o: OrderRow) {
    o.status == Rejected && NotFoundReason(o.rejectReason)
  }

  /** A resolution gives an order up exactly when the exchange answered, answered "no such order", and the
      grace period was over when the clock was read; a timeout never does. */
  lemma GivenUpExactly(db: Db, c: ClientOrderId, answer: Reach<Option<Report>>, fills: Reach<seq<ExchangeFill>>,
                       now: int, grace: nat)
    requires WellFormed(db) && c in db.orders && RowFits(db, c) && db.orders[c].status in {IntentCreated, Submitting}
    requires forall r: Report | answer == Answered(Some(r)) :: !NotFoundReason(r.rejectReason)
    ensures var db' := Resolve(db, db.orders[c], answer, fills, now, grace).0;
            c in db'.orders && (GivenUp(db'.orders[c]) <==> answer == Answered(None) && Age(db.orders[c], now) >= grace)
  {
    assert RowFits(db, c);
    match answer {
      case Unreachable =>
      case Answered(None) =>
      case Answered(Some(r)) => ReportGivesNothingUp(db, c, r, now);
    }
  }

  lemma ReportGivesNothingUp(db: Db, c: ClientOrderId, r: Report, now: int)
    requires WellFormed(db) && c in db.orders && !GivenUp(db.orders[c]) && !NotFoundReason(r.rejectReason)
    ensures var db' := ApplyReport(db, r, now).0;
            c in db'.orders && !GivenUp(db'.orders[c])
  {
    assert RowFits(db, c);
    var located := Locate(db, Some(r.clientOrderId), r.exchangeOrderId);
    if located.Some? {
      LocatedFits(db, Some(r.clientOrderId), r.exchangeOrderId);
    }
  }

  /** Should the order exist after all: in every later state, of every run, any report that is not itself
      a rejection is flagged as a conflict and changes nothing, from REST or from the stream. */
  lemma GivenUpIsGuarded(db: Db, c: ClientOrderId, steps: seq<Step>, r: Report, now: int)
    requires WellFormed(db) && c in db.orders && GivenUp(db.orders[c])
    requires r.clientOrderId == c && r.status != Rejected
    ensures var db' := Run(db, steps);
            && c in db'.orders && GivenUp(db'.orders[c])
            && ApplyReport(db', r, now) == (db', Conflict(c))
    ensures forall key, fill {:trigger StreamEvent(key, r, fill)} ::
              var db' := Run(db, steps);
              key !in db'.processed ==>
                HandleEvent(db', StreamEvent(key, r, fill), now) == (ConflictRecorded(db', c, r.status), StreamConflict)
  {
    LedgerLaws.RunNeverGoesBack(db, steps);
    var db' := Run(db, steps);
    assert RowFits(db', c);
    forall key, fill | key !in db'.processed
      ensures HandleEvent(db', StreamEvent(key, r, fill), now) == (ConflictRecorded(db', c, r.status), StreamConflict)
    {
      assert ApplyReport(MarkProcessed(db', key), r, now).1 == Conflict(c);
    }
  }

  // ------------------------------------------------------------------ when "not found" may be believed

  /** One submission as the exchange and the clock see it: stamped, accepted (if ever), asked about, and
      the clock read for the age only once the answer is there. */
  datatype Episode = Episode(submittedAt: int, acceptedAt: Option<int>, answeredAt: int, readAt: int)

  /** The exchange accepts within `window` of the stamp or never; an answer takes at most `latency` to be
      acted on. */
  predicate Possible(e: Episode, window: nat, latency: nat) {
    && e.submittedAt <= e.answeredAt <= e.readAt <= e.answeredAt + latency
    && (e.acceptedAt.Some? ==> e.submittedAt <= e.acceptedAt.value <= e.submittedAt + window)
  }

  /** The exchange knows the order from the moment it accepts it. */
  function AnswerTo(e: Episode, r: Report): Reach<Option<Report>> {
    Answered(if e.acceptedAt.Some? && e.acceptedAt.value <= e.answeredAt then Some(r) else None)
  }

  predicate GivesUp(e: Episode, grace: nat) {
    (e.acceptedAt.None? || e.acceptedAt.value > e.answeredAt) && e.readAt - e.submittedAt >= grace
  }

  /** An episode gives the order up in the ledger exactly as `GivesUp` says. */
  lemma EpisodeInLedger(db: Db, c: ClientOrderId, e: Episode, r: Report, fills: Reach<seq<ExchangeFill>>, grace: nat)
    requires WellFormed(db) && c in db.orders && RowFits(db, c) && db.orders[c].status == Submitting
    requires db.orders[c].submittedAt == Some(e.submittedAt) && !NotFoundReason(r.rejectReason)
    ensures var db' := Resolve(db, db.orders[c], AnswerTo(e, r), fills, e.readAt, grace).0;
            c in db'.orders && (GivenUp(db'.orders[c]) <==> GivesUp(e, grace))
  {
    GivenUpExactly(db, c, AnswerTo(e, r), fills, e.readAt, grace);
  }

  /** No order the exchange ever accepts is given up.  */
  ghost predicate Believable(window: nat, latency: nat, grace: nat) {
    forall e | Possible(e, window, latency) && GivesUp(e, grace) :: e.acceptedAt.None?
  }

  /** The clock is read after the answer, so the grace period has to cover the acceptance window and the
      latency of the answer together; covering the window alone is enough only when acceptance is instant. */
  lemma NotFoundBelievableExactly(window: nat, latency: nat, grace: nat)
    ensures Believable(window, latency, grace) <==> window == 0 || window + latency <= grace
  {
    if window > 0 && window + latency > grace {
      var late := Episode(0, Some(window), window - 1, window - 1 + latency);
      assert Possible(late, window, latency) && GivesUp(late, grace);
    }
  }
}
