/** An order that is refused, or given up as not found, before anything has arrived about it: everything the exchange says
    of it later is a conflict that changes no fact (engine/application/order_service.py,
    engine/application/stream_ingestion.py). */
module Refusals {
  import opened Common
  import opened OrderModel
  import opened OrderLaws
  import opened Ledger
  import opened Confluence

  /** A refusal for good comes from an exchange that knows no such order; an order it does know, and has not refused, can
      only be given up as not found. */
  ghost predicate RefusalFits(x: Exchange, c: ClientOrderId, reason: string) {
    c in x.history && forall r | r in x.history[c] :: r.status != Rejected && NotFoundReason(Some(reason))
  }

  /** Orders stand where what arrived puts them, fills are the executions told, and processed events have lost nothing. */
  ghost predicate CaughtBy(x: Exchange, start: Db, n: map<ClientOrderId, int>, t: set<string>, db: Db) {
    && Confluence.Consistent(x) && Confluence.Submitted(start, x)
    && Caught(start, x, n, t, db) && ProcessedKept(x, n, t, db)
  }

  function AfterRefusal(n: map<ClientOrderId, int>, c: ClientOrderId): map<ClientOrderId, int>
    requires c in n
  {
    if n[c] == -1 then n[c := GIVEN_UP] else n
  }

  // ------------------------------------------------------------------ the refusal

  lemma RefusedOrder(db: Db, c: ClientOrderId, h: seq<Report>, reason: string, now: int)
    requires WellFormed(db) && c in db.orders && AtPoint(db.orders[c], h, -1)
    requires forall r | r in h :: r.status != Rejected && NotFoundReason(Some(reason))
    ensures var db' := Reject(db, c, reason, now).0;
            && OnlyOrder(db, db', c) && c in db'.orders && GivenUp(db'.orders[c], h)
  {
    assert RowFits(db, c);
  }

  /** An order about which something has arrived has been acknowledged or has ended. */
  lemma NotRefused(db: Db, c: ClientOrderId, h: seq<Report>, k: int, reason: string, now: int)
    requires WellFormed(db) && c in db.orders && ValidHistory(h) && GIVEN_UP <= k < |h| && k != -1 && Stands(db.orders[c], h, k)
    ensures Reject(db, c, reason, now).0 == db
  {
    if k >= 0 {
      HistoryIsOrdered(h, k, k);
    }
  }

  lemma RefusalKeeps(x: Exchange, start: Db, n: map<ClientOrderId, int>, t: set<string>, db: Db, c: ClientOrderId, reason: string, now: int)
    requires CaughtBy(x, start, n, t, db) && RefusalFits(x, c, reason)
    ensures CaughtBy(x, start, AfterRefusal(n, c), t, After(db, Step(Refuse(c, reason), now)))
  {
    var db' := Reject(db, c, reason, now).0;
    assert HistoryConsistent(x, c) && OrderHolds(start, x, n, db, c);
    if n[c] == -1 {
      RefusedOrder(db, c, x.history[c], reason, now);
      hide Reject, Confluence.Consistent, Confluence.Submitted, FillsAre, AtPoint, GivenUp;
      AllOrdersHold(start, x, n, db, c, n[c := GIVEN_UP], db');
      SameFills(start, x, t, db, db');
      forall k | k in db'.processed
        ensures EventKept(x, n[c := GIVEN_UP], t, k)
      {
        assert EventKept(x, n, t, k);
      }
    } else {
      NotRefused(db, c, x.history[c], n[c], reason, now);
    }
  }

  // ------------------------------------------------------------------ what the exchange says later

  ghost function TradesHeard(x: Exchange, n: map<ClientOrderId, int>, a: Delivery): set<string>
    requires Confluence.Consistent(x) && Possible(x, a)
  {
    if Heard(x, n, a) then TradeIn(x, a) else {}
  }

  /** The report, or the event, is refused as a conflict. */
  ghost predicate Conflicting(db: Db, x: Exchange, a: Delivery)
    requires Confluence.Consistent(x) && Possible(x, a) && WellFormed(db)
  {
    match a.message
    case ByReport(c, i) => ApplyReport(db, x.history[c][i], a.now).1 == Conflict(c)
    case ByStream(k) => HandleEvent(db, EventOf(x, k), a.now).1 == StreamConflict
    case _ => false
  }

  ghost predicate FactsUnchanged(db: Db, db': Db) {
    db'.orders == db.orders && db'.fills == db.fills && db'.positions == db.positions && db'.processed == db.processed
  }

  lemma ReportConflicts(db: Db, c: ClientOrderId, h: seq<Report>, i: nat, now: int)
    requires WellFormed(db) && c in db.orders && GivenUp(db.orders[c], h) && i < |h| && h[i].clientOrderId == c
    ensures ApplyReport(db, h[i], now) == (db, Conflict(c))
  {
    assert h[i] in h;
  }

  lemma EventConflicts(db: Db, c: ClientOrderId, h: seq<Report>, i: nat, ev: StreamEvent, now: int)
    requires WellFormed(db) && c in db.orders && GivenUp(db.orders[c], h) && i < |h| && h[i].clientOrderId == c
    requires ev.report == h[i] && ev.eventKey !in db.processed
    ensures var (db', result) := HandleEvent(db, ev, now); result == StreamConflict && FactsUnchanged(db, db')
  {
    ReportConflicts(MarkProcessed(db, ev.eventKey), c, h, i, now);
  }

  lemma UnheardReport(x: Exchange, start: Db, n: map<ClientOrderId, int>, t: set<string>, db: Db, a: Delivery)
    requires CaughtBy(x, start, n, t, db) && Possible(x, a) && a.message.ByReport? && !Heard(x, n, a)
    ensures Conflicting(db, x, a) && FactsUnchanged(db, After(db, StepOf(x, a)))
  {
    var c, i := a.message.order, a.message.report;
    assert HistoryConsistent(x, c) && OrderHolds(start, x, n, db, c) && x.history[c][i] in x.history[c];
    hide Confluence.Consistent, Confluence.Submitted, FillsAre, ProcessedKept, GivenUp;
    ReportConflicts(db, c, x.history[c], i, a.now);
  }

  lemma UnheardEvent(x: Exchange, start: Db, n: map<ClientOrderId, int>, t: set<string>, db: Db, a: Delivery)
    requires CaughtBy(x, start, n, t, db) && Possible(x, a) && a.message.ByStream? && !Heard(x, n, a)
    ensures Conflicting(db, x, a) && FactsUnchanged(db, After(db, StepOf(x, a)))
  {
    UnheardIsGivenUp(x, start, n, t, db, a);
    hide CaughtBy, Confluence.Consistent, GivenUp, HandleEvent, WellFormed, Heard;
    var k := a.message.event;
    var c, i := x.events[k].order, x.events[k].report;
    EventConflicts(db, c, x.history[c], i, EventOf(x, k), a.now);
  }

  lemma UnheardIsGivenUp(x: Exchange, start: Db, n: map<ClientOrderId, int>, t: set<string>, db: Db, a: Delivery)
    requires CaughtBy(x, start, n, t, db) && Possible(x, a) && a.message.ByStream? && !Heard(x, n, a)
    ensures var k := a.message.event;
            && WellFormed(db) && k in x.events && k !in db.processed
            && var (c, i) := (x.events[k].order, x.events[k].report);
               && c in db.orders && c in x.history && i < |x.history[c]| && x.history[c][i].clientOrderId == c
               && GivenUp(db.orders[c], x.history[c]) && EventOf(x, k).report == x.history[c][i] && EventOf(x, k).eventKey == k
  {
    var k := a.message.event;
    assert EventConsistent(x, k);
    var c, i := x.events[k].order, x.events[k].report;
    assert HistoryConsistent(x, c) && OrderHolds(start, x, n, db, c) && x.history[c][i] in x.history[c];
    assert k in db.processed ==> EventKept(x, n, t, k);
    hide Confluence.Consistent, Confluence.Submitted, FillsAre, ProcessedKept, GivenUp, HandleEvent;
  }

  lemma UnheardConflicts(x: Exchange, start: Db, n: map<ClientOrderId, int>, t: set<string>, db: Db, a: Delivery)
    requires CaughtBy(x, start, n, t, db) && Possible(x, a) && !Heard(x, n, a)
    ensures Conflicting(db, x, a) && FactsUnchanged(db, After(db, StepOf(x, a)))
  {
    hide CaughtBy, Conflicting, FactsUnchanged, After, StepOf;
    if a.message.ByReport? {
      UnheardReport(x, start, n, t, db, a);
    } else {
      UnheardEvent(x, start, n, t, db, a);
    }
  }

  lemma FactsStay(x: Exchange, start: Db, n: map<ClientOrderId, int>, t: set<string>, db: Db, db': Db)
    requires CaughtBy(x, start, n, t, db) && WellFormed(db') && FactsUnchanged(db, db')
    ensures CaughtBy(x, start, n, t, db')
  {
    forall c | c in x.history
      ensures OrderHolds(start, x, n, db', c)
    {
      assert OrderHolds(start, x, n, db, c);
    }
    SameFills(start, x, t, db, db');
  }

  /** Whatever the exchange says of an order that was given up is a conflict and leaves every fact as it is. */
  lemma ConflictKeeps(x: Exchange, start: Db, n: map<ClientOrderId, int>, t: set<string>, db: Db, a: Delivery)
    requires CaughtBy(x, start, n, t, db) && Possible(x, a) && !Heard(x, n, a)
    ensures CaughtBy(x, start, n, t, After(db, StepOf(x, a)))
  {
    UnheardConflicts(x, start, n, t, db, a);
    assert WellFormed(db);
    hide CaughtBy, After, StepOf, WellFormed, Possible, Heard;
    FactsStay(x, start, n, t, db, After(db, StepOf(x, a)));
  }
}
