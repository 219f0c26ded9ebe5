/** How each call of the order service ends: when it returns, when it raises a conflict, when anything else; and that a
    submission touches no order but its own (engine/application/order_service.py). */
module CallOutcomes {
  import opened Common
  import opened OrderModel
  import OrderLaws
  import opened Ledger
  import opened Submission
  import opened StreamOutcomes

  // ------------------------------------------------------------------ one report

  /** The report contradicts the order it is about. */
  ghost predicate Conflicting(db: Db, r: Report) {
    exists c :: c in db.orders && Concerns(db, r, c) && Contradicts(db.orders[c], r.status)
  }

  /** It is news about its order, under an exchange id of another one. */
  ghost predicate Refusable(db: Db, r: Report) {
    exists c :: c in db.orders && Concerns(db, r, c) && !Contradicts(db.orders[c], r.status)
                && !OrderLaws.Absorbs(db.orders[c], r) && Clashes(db, c, r)
  }

  lemma ForStranger(db: Db, r: Report)
    requires Stranger(db, r)
    ensures !Conflicting(db, r) && !Refusable(db, r)
  {
    hide Contradicts, OrderLaws.Absorbs, Clashes;
  }

  lemma ForItsOrder(db: Db, r: Report, c: ClientOrderId)
    requires c in db.orders && Concerns(db, r, c)
    ensures Conflicting(db, r) <==> Contradicts(db.orders[c], r.status)
    ensures Refusable(db, r) <==>
              !Contradicts(db.orders[c], r.status) && !OrderLaws.Absorbs(db.orders[c], r) && Clashes(db, c, r)
    ensures forall x | x in db.orders && !Concerns(db, r, x) :: x != c
  {
    hide Contradicts, OrderLaws.Absorbs, Clashes;
    assert forall d | Concerns(db, r, d) :: d == c;
  }

  /** Taking a report raises a conflict exactly when it contradicts its order, which is then on record as a notice and
      changes nothing else; and an error exactly when the store refuses its exchange id. */
  lemma TakingEndsExactly(db: Db, r: Report, now: int)
    requires WellFormed(db)
    ensures var (db', ended) := ReportTaken(db, r, now);
            && (ended == RaisedConflict <==> Conflicting(db, r)) && (ended == RaisedError <==> Refusable(db, r))
            && db' == db.(orders := db'.orders, byExchangeId := db'.byExchangeId, outbox := db'.outbox)
            && (ended != Returned ==> db' == db.(outbox := db'.outbox)) && (ended == RaisedError ==> db' == db)
            && db'.orders.Keys == db.orders.Keys
            && forall x | x in db.orders && !Concerns(db, r, x) :: db'.orders[x] == db.orders[x]
  {
    var located := Locate(db, Some(r.clientOrderId), r.exchangeOrderId);
    if located.None? {
      ReportEndsExactly(db, r, r.clientOrderId, now);
      ForStranger(db, r);
    } else {
      var c := located.value;
      LocatedFits(db, Some(r.clientOrderId), r.exchangeOrderId);
      ReportEndsExactly(db, r, c, now);
      ForItsOrder(db, r, c);
    }
    hide ApplyReport, Merge, WellFormed, Contradicts, OrderLaws.Absorbs, Clashes, Concerns, Conflicting, Refusable;
  }

  // ------------------------------------------------------------------ refresh and cancel

  /** The executions of an order cannot be asked for: it has an exchange id and the exchange is not reached. */
  ghost predicate FillsMissed(db: Db, c: ClientOrderId, fills: Reach<seq<ExchangeFill>>) {
    c in db.orders && db.orders[c].exchangeOrderId.Some? && fills.Unreachable?
  }

  /** A refresh raises a conflict exactly when the answer contradicts its order, and anything else exactly when the
      exchange is not reached, for the order or then for its executions, or the store refuses the answer. */
  lemma RefreshEndsExactly(db: Db, c: ClientOrderId, answer: Reach<Option<Report>>, fills: Reach<seq<ExchangeFill>>, now: int)
    requires WellFormed(db)
    ensures var (db', ended) := Refreshed(db, c, answer, fills, now);
            match answer
            case Unreachable => ended == RaisedError && db' == db
            case Answered(None) => ended == (if FillsMissed(db, c, fills) then RaisedError else Returned)
            case Answered(Some(r)) =>
              && (ended == RaisedConflict <==> Conflicting(db, r))
              && (ended == RaisedError <==> Refusable(db, r) || (!Conflicting(db, r) && FillsMissed(ReportTaken(db, r, now).0, c, fills)))
  {
    if answer.Answered? && answer.value.Some? {
      TakingEndsExactly(db, answer.value.value, now);
      hide ReportTaken, Conflicting, Refusable;
    }
  }

  /** A cancel raises a conflict exactly when the acknowledgement contradicts its order or, taken without a raise, leaves
      one that the answer contradicts; an error exactly when the store refuses the acknowledgement; a refresh that does not
      reach the exchange never gets out. */
  lemma CancelEndsExactly(db: Db, c: ClientOrderId, acknowledged: Option<Report>, answer: Reach<Option<Report>>,
                          fills: Reach<seq<ExchangeFill>>, now: int)
    requires WellFormed(db)
    ensures var (db', ended) := Cancelled(db, c, acknowledged, answer, fills, now);
            var db1 := if acknowledged.Some? then ReportTaken(db, acknowledged.value, now).0 else db;
            var refused := acknowledged.Some? && Refusable(db, acknowledged.value);
            && (ended == RaisedError <==> refused)
            && (ended == RaisedConflict <==>
                  || (acknowledged.Some? && Conflicting(db, acknowledged.value))
                  || (!refused && answer.Answered? && answer.value.Some? && Conflicting(db1, answer.value.value)))
  {
    if acknowledged.Some? {
      TakingEndsExactly(db, acknowledged.value, now);
    }
    var db1 := if acknowledged.Some? then ReportTaken(db, acknowledged.value, now).0 else db;
    RefreshEndsExactly(db1, c, answer, fills, now);
    hide ReportTaken, Refreshed, Conflicting, Refusable;
  }

  // ------------------------------------------------------------------ submission

  /** An intent that has an order is left alone, and only one that has none goes out. */
  lemma KnownIntentIsLeftAlone(db: Db, i: Intent, now: int, outcome: Outcome, answer: Reach<Option<Report>>,
                               fills: Reach<seq<ExchangeFill>>, later: int, grace: nat)
    requires WellFormed(db)
    ensures var (db', ended, sent) := Submitted(db, i, now, outcome, answer, fills, later, grace);
            (sent <==> i.id !in db.intents) && (!sent ==> db' == db && ended == Returned)
  {
    hide PersistIntent, Concluded;
    PersistsExactly(db, i, now);
  }

  lemma PersistsExactly(db: Db, i: Intent, now: int)
    requires WellFormed(db)
    ensures PersistIntent(db, i, now).1 <==> i.id !in db.intents
    ensures i.id in db.intents ==> PersistIntent(db, i, now).0 == db
  {
  }

  /** Whatever the acknowledgement says: a conflict and a refused exchange id raise and record no execution; otherwise its
      executions follow it. */
  lemma AcknowledgementEndsExactly(db: Db, c: ClientOrderId, r: Report, xfs: seq<ExchangeFill>, answer: Reach<Option<Report>>,
                                   fills: Reach<seq<ExchangeFill>>, now: int, grace: nat)
    requires WellFormed(db) && c in db.orders
    ensures var (db', ended) := Concluded(db, c, Acknowledged(r, xfs), answer, fills, now, grace);
            && (ended == RaisedConflict <==> Conflicting(db, r)) && (ended == RaisedError <==> Refusable(db, r))
            && (ended == Returned ==> db' == IngestAll(ReportTaken(db, r, now).0, xfs, now))
            && (ended != Returned ==> db' == db.(outbox := db'.outbox))
  {
    TakingEndsExactly(db, r, now);
    hide ReportTaken, IngestAll, Conflicting, Refusable;
  }

  ghost predicate OthersStay(db: Db, db': Db, c: ClientOrderId) {
    forall x | x in db.orders && x != c :: x in db'.orders && db'.orders[x] == db.orders[x]
  }

  lemma TakingOthersStay(db: Db, r: Report, now: int)
    requires WellFormed(db) && r.clientOrderId in db.orders
    ensures OthersStay(db, ReportTaken(db, r, now).0, r.clientOrderId) && ReportTaken(db, r, now).0.orders.Keys == db.orders.Keys
  {
    TakingEndsExactly(db, r, now);
    hide ReportTaken, Conflicting, Refusable;
  }

  lemma RefusingOthersStay(db: Db, c: ClientOrderId, reason: string, now: int)
    requires WellFormed(db) && c in db.orders
    ensures OthersStay(db, Reject(db, c, reason, now).0, c) && OthersStay(db, FlagAmbiguous(db, c), c)
    ensures Reject(db, c, reason, now).0.orders.Keys == FlagAmbiguous(db, c).orders.Keys == db.orders.Keys
  {
    assert RowFits(db, c);
  }

  lemma ResolvingOthersStay(db: Db, o: OrderRow, answer: Reach<Option<Report>>, fills: Reach<seq<ExchangeFill>>, now: int, grace: nat)
    requires WellFormed(db) && o.clientOrderId in db.orders
    requires forall r: Report | answer == Answered(Some(r)) :: r.clientOrderId == o.clientOrderId
    ensures OthersStay(db, Resolve(db, o, answer, fills, now, grace).0, o.clientOrderId)
  {
    if answer.Answered? && answer.value.Some? {
      assert answer.value.value.clientOrderId == o.clientOrderId;
      TakingOthersStay(db, answer.value.value, now);
    } else if answer == Answered(None) && Age(o, now) >= grace && Age(o, now) >= 0 {
      RefusingOthersStay(db, o.clientOrderId, NotFoundAfter(Age(o, now)), now);
    }
    hide ReportTaken, Reject, OrderFillsIngested, WellFormed;
  }

  /** Told only of its own order, a submission touches no other one. */
  lemma OnlyItsOrder(db: Db, i: Intent, now: int, outcome: Outcome, answer: Reach<Option<Report>>,
                     fills: Reach<seq<ExchangeFill>>, later: int, grace: nat)
    requires WellFormed(db)
    requires outcome.Acknowledged? ==> outcome.report.clientOrderId == BotOrder(i.id)
    requires forall r: Report | answer == Answered(Some(r)) :: r.clientOrderId == BotOrder(i.id)
    ensures forall x | x in db.orders ::
              var db' := Submitted(db, i, now, outcome, answer, fills, later, grace).0;
              x in db'.orders && db'.orders[x] == db.orders[x]
  {
    if i.id !in db.intents {
      PersistedOthersStay(db, i, now);
      ConcludingOthersStay(PersistIntent(db, i, now).0, BotOrder(i.id), outcome, answer, fills, later, grace);
    }
    hide PersistIntent, Concluded, WellFormed;
  }

  lemma ConcludingOthersStay(db: Db, c: ClientOrderId, outcome: Outcome, answer: Reach<Option<Report>>,
                             fills: Reach<seq<ExchangeFill>>, now: int, grace: nat)
    requires WellFormed(db) && c in db.orders
    requires outcome.Acknowledged? ==> outcome.report.clientOrderId == c
    requires forall r: Report | answer == Answered(Some(r)) :: r.clientOrderId == c
    ensures OthersStay(db, Concluded(db, c, outcome, answer, fills, now, grace).0, c)
  {
    match outcome {
      case Acknowledged(r, xfs) => TakingOthersStay(db, r, now);
      case Refused(reason) => RefusingOthersStay(db, c, reason, now);
      case Ambiguous =>
        RefusingOthersStay(db, c, "", now);
        FlaggedStays(db, c);
        ResolvingOthersStay(FlagAmbiguous(db, c), FlagAmbiguous(db, c).orders[c], answer, fills, now, grace);
    }
    hide ReportTaken, Reject, FlagAmbiguous, Resolve, IngestAll, WellFormed;
  }

  lemma PersistedOthersStay(db: Db, i: Intent, now: int)
    requires WellFormed(db) && i.id !in db.intents
    ensures var db' := PersistIntent(db, i, now).0;
            && BotOrder(i.id) !in db.orders && BotOrder(i.id) in db'.orders
            && forall x | x in db.orders :: x in db'.orders && db'.orders[x] == db.orders[x]
  {
    assert BotOrder(i.id) in db.orders ==> RowFits(db, BotOrder(i.id));
  }

  lemma FlaggedStays(db: Db, c: ClientOrderId)
    requires WellFormed(db) && c in db.orders
    ensures c in FlagAmbiguous(db, c).orders && FlagAmbiguous(db, c).orders[c].clientOrderId == c
  {
    assert RowFits(db, c);
  }
}
