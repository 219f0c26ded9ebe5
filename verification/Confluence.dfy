/** Two processes, four delivery paths, duplicates and reordering: whatever reaches the ledger of a
    consistent exchange, and in whatever order, leaves the same facts. */
module Confluence {
  import opened Common
  import opened OrderModel
  import opened OrderLaws
  import opened PositionModel
  import opened PositionLaws
  import opened Ledger
  import opened LedgerLaws

  // ------------------------------------------------------------------ the exchange

  /** What a stream event tells: a state of an order and, for a trade, the trade. */
  datatype Occurrence = Occurrence(order: ClientOrderId, report: nat, trade: Option<string>)

  /** Everything the exchange will ever say about the orders of the bot. */
  datatype Exchange = Exchange(
    history: map<ClientOrderId, seq<Report>>, trades: map<string, ExchangeFill>, events: map<string, Occurrence>)

  ghost predicate HistoryConsistent(x: Exchange, c: ClientOrderId)
    requires c in x.history
  {
    ValidHistory(x.history[c]) && forall r | r in x.history[c] :: r.clientOrderId == c
  }

  ghost predicate IdsDiffer(x: Exchange, c: ClientOrderId, d: ClientOrderId)
    requires c in x.history && d in x.history
  {
    x.history[c] != [] && x.history[d] != [] ==>
      x.history[c][0].exchangeOrderId != x.history[d][0].exchangeOrderId
  }

  ghost predicate IdsDistinct(x: Exchange) {
    forall c, d {:trigger IdsDiffer(x, c, d)} | c in x.history && d in x.history && c != d :: IdsDiffer(x, c, d)
  }

  ghost predicate TradesDiffer(x: Exchange, k: string, l: string)
    requires k in x.trades && l in x.trades
  {
    x.trades[l].clientOrderId != x.trades[k].clientOrderId || x.trades[l].tradeId != x.trades[k].tradeId
  }

  /** One event key per execution, with the same content on every path. */
  ghost predicate TradeConsistent(x: Exchange, k: string)
    requires k in x.trades
  {
    var t := x.trades[k];
    && t.eventKey == k && t.timeMs != 0
    && t.clientOrderId.Some? && t.clientOrderId.value in x.history
    && forall l {:trigger TradesDiffer(x, k, l)} | l in x.trades && l != k :: TradesDiffer(x, k, l)
  }

  ghost predicate EventConsistent(x: Exchange, k: string)
    requires k in x.events
  {
    var e := x.events[k];
    && e.order in x.history && e.report < |x.history[e.order]|
    && (e.trade.Some? ==> e.trade.value in x.trades)
  }

  ghost predicate Consistent(x: Exchange) {
    && (forall c {:trigger HistoryConsistent(x, c)} | c in x.history :: HistoryConsistent(x, c))
    && IdsDistinct(x)
    && (forall k {:trigger TradeConsistent(x, k)} | k in x.trades :: TradeConsistent(x, k))
    && (forall k {:trigger EventConsistent(x, k)} | k in x.events :: EventConsistent(x, k))
  }

  // ------------------------------------------------------------------ arrivals

  /** A report by REST, a fill by REST, an event of the user data stream, or something the engine writes on its own
      in between: an order flagged as ambiguous, a mark, a stop, a rebuild of the position. */
  datatype Message =
    | ByReport(order: ClientOrderId, report: nat)
    | ByFill(trade: string)
    | ByStream(event: string)
    | OwnWrite(op: Op)

  datatype Delivery = Delivery(message: Message, now: int)

  ghost predicate Possible(x: Exchange, a: Delivery) {
    match a.message
    case ByReport(c, i) => c in x.history && i < |x.history[c]|
    case ByFill(k) => k in x.trades
    case ByStream(k) => k in x.events
    case OwnWrite(op) => op.Flag? || op.MarkPosition? || op.SetStop? || op.RebuildPosition?
  }

  ghost function EventOf(x: Exchange, k: string): StreamEvent
    requires Consistent(x) && k in x.events
  {
    assert EventConsistent(x, k);
    var e := x.events[k];
    StreamEvent(k, x.history[e.order][e.report],
                if e.trade.Some? then Some(x.trades[e.trade.value]) else None)
  }

  ghost function StepOf(x: Exchange, a: Delivery): Step
    requires Consistent(x) && Possible(x, a)
  {
    match a.message
    case ByReport(c, i) => Step(TakeReport(x.history[c][i]), a.now)
    case ByFill(k) => Step(TakeFill(x.trades[k]), a.now)
    case ByStream(k) => Step(TakeEvent(EventOf(x, k)), a.now)
    case OwnWrite(op) => Step(op, a.now)
  }

  /** The report index about order c that a delivery carries, or -1. */
  ghost function Carries(x: Exchange, a: Delivery, c: ClientOrderId): int
    requires Consistent(x) && Possible(x, a)
  {
    match a.message
    case ByReport(d, i) => if d == c then i else -1
    case ByFill(_) => -1
    case ByStream(k) => if x.events[k].order == c then x.events[k].report else -1
    case OwnWrite(_) => -1
  }

  function TradeOf(e: Occurrence): set<string> {
    if e.trade.Some? then {e.trade.value} else {}
  }

  ghost function TradeIn(x: Exchange, a: Delivery): set<string>
    requires Consistent(x) && Possible(x, a)
  {
    match a.message
    case ByReport(_, _) => {}
    case ByFill(k) => {k}
    case ByStream(k) => TradeOf(x.events[k])
    case OwnWrite(_) => {}
  }

  ghost predicate AllPossible(x: Exchange, w: seq<Delivery>) {
    forall a | a in w :: Possible(x, a)
  }

  /** The newest report about c among the deliveries. */
  ghost function NewestReport(x: Exchange, w: seq<Delivery>, c: ClientOrderId): (k: int)
    requires Consistent(x) && AllPossible(x, w)
    ensures k >= -1
    decreases |w|
  {
    if w == [] then -1
    else
      assert w[|w| - 1] in w;
      MaxInt(NewestReport(x, w[..|w| - 1], c), Carries(x, w[|w| - 1], c))
  }

  /** The executions among the deliveries. */
  ghost function TradesIn(x: Exchange, w: seq<Delivery>): set<string>
    requires Consistent(x) && AllPossible(x, w)
    decreases |w|
  {
    if w == [] then {}
    else
      assert w[|w| - 1] in w;
      TradesIn(x, w[..|w| - 1]) + TradeIn(x, w[|w| - 1])
  }

  lemma {:induction false} NewestInRange(x: Exchange, w: seq<Delivery>, c: ClientOrderId)
    requires Consistent(x) && AllPossible(x, w) && c in x.history
    ensures NewestReport(x, w, c) < |x.history[c]|
    decreases |w|
  {
    if w != [] {
      assert w[|w| - 1] in w;
      NewestInRange(x, w[..|w| - 1], c);
      if w[|w| - 1].message.ByStream? {
        assert EventConsistent(x, w[|w| - 1].message.event);
      }
    }
  }

  // ------------------------------------------------------------------ the ledger while data arrives

  ghost predicate Waits(db: Db, x: Exchange, c: ClientOrderId)
    requires c in x.history && c in db.orders
  {
    AtPoint(db.orders[c], x.history[c], -1)
  }

  /** The orders have been persisted, as they are before any network call; nothing has arrived. */
  ghost predicate Submitted(db: Db, x: Exchange) {
    && WellFormed(db)
    && db.orders.Keys == x.history.Keys
    && (forall c {:trigger Waits(db, x, c)} | c in x.history :: Waits(db, x, c))
    && db.fills == [] && db.positions == map[] && db.processed == {}
  }

  ghost function FillOfTrade(db: Db, x: Exchange, k: string): Fill
    requires Consistent(x) && k in x.trades && x.history.Keys <= db.orders.Keys
  {
    assert TradeConsistent(x, k);
    FillOf(db.orders[x.trades[k].clientOrderId.value], x.trades[k], 0)
  }

  /** An order that was given up before anything arrived about it. */
  const GIVEN_UP := -2

  /** It stands as rejected, for a reason that makes everything the exchange can still say of it a conflict. */
  ghost predicate GivenUp(o: OrderRow, h: seq<Report>) {
    && o.status == Rejected && o.exchangeOrderId.None? && o.executed == 0.0
    && forall r | r in h :: r.status != Rejected && NotFoundReason(o.rejectReason)
  }

  ghost predicate Stands(o: OrderRow, h: seq<Report>, k: int)
    requires GIVEN_UP <= k < |h|
  {
    if k == GIVEN_UP then GivenUp(o, h) else AtPoint(o, h, k)
  }

  /** How far each order has got, and which executions have arrived. */
  ghost predicate Positions(x: Exchange, n: map<ClientOrderId, int>) {
    n.Keys == x.history.Keys && forall c | c in x.history :: GIVEN_UP <= n[c] < |x.history[c]|
  }

  ghost predicate OrderHolds(start: Db, x: Exchange, n: map<ClientOrderId, int>, db: Db, c: ClientOrderId)
    requires Positions(x, n) && c in x.history && c in db.orders && c in start.orders
  {
    && Stands(db.orders[c], x.history[c], n[c])
    && db.orders[c].symbol == start.orders[c].symbol
    && db.orders[c].side == start.orders[c].side
  }

  ghost predicate FillsAre(start: Db, x: Exchange, t: set<string>, db: Db)
    requires Consistent(x) && Submitted(start, x)
  {
    && FillsUnique(db)
    && t <= x.trades.Keys
    && (forall f | f in db.fills :: f.eventKey in t && f == FillOfTrade(start, x, f.eventKey))
    && (forall k {:trigger FillOfTrade(start, x, k)} | k in t :: FillOfTrade(start, x, k) in db.fills)
    && (forall s: Symbol {:trigger Explained(db, s)} :: Explained(db, s))
  }

  ghost predicate Caught(start: Db, x: Exchange, n: map<ClientOrderId, int>, t: set<string>, db: Db)
    requires Consistent(x) && Submitted(start, x)
  {
    && WellFormed(db)
    && OrdersHold(start, x, n, db)
    && FillsAre(start, x, t, db)
  }

  /** An event marked as processed has left its report and its execution behind. */
  ghost predicate EventKept(x: Exchange, n: map<ClientOrderId, int>, t: set<string>, k: string)
    requires Positions(x, n)
  {
    && k in x.events
    && x.events[k].order in x.history
    && x.events[k].report <= n[x.events[k].order]
    && (x.events[k].trade.Some? ==> x.events[k].trade.value in t)
  }

  ghost predicate ProcessedKept(x: Exchange, n: map<ClientOrderId, int>, t: set<string>, db: Db)
    requires Positions(x, n)
  {
    forall k {:trigger EventKept(x, n, t, k)} | k in db.processed :: EventKept(x, n, t, k)
  }

  /** A report of a valid history, applied to an order that has seen part of it. */
  lemma ReportApplied(db: Db, c: ClientOrderId, h: seq<Report>, k: int, i: nat, now: int)
    requires WellFormed(db) && c in db.orders && ValidHistory(h) && -1 <= k < |h| && i < |h|
    requires AtPoint(db.orders[c], h, k) && h[i].clientOrderId == c
    requires !IdTaken(db, Merge(db.orders[c], h[i], now).row)
    ensures var (db', outcome) := ApplyReport(db, h[i], now);
            && outcome == Taken(c)
            && OnlyOrder(db, db', c)
            && AtPoint(db'.orders[c], h, MaxInt(k, i))
  {
    DeliverOne(db.orders[c], h, k, i, now);
    MergeProgress(db.orders[c], h[i], now);
    assert RowFits(db, c);
  }

  ghost predicate OnlyOrder(db: Db, db': Db, c: ClientOrderId) {
    && db'.fills == db.fills && db'.positions == db.positions && db'.processed == db.processed
    && db'.orders.Keys == db.orders.Keys
    && (forall d {:trigger db'.orders[d]} | d in db.orders && d != c :: db'.orders[d] == db.orders[d])
    && (c in db.orders ==> db'.orders[c].symbol == db.orders[c].symbol && db'.orders[c].side == db.orders[c].side)
  }

  lemma ReportCaught(start: Db, x: Exchange, n: map<ClientOrderId, int>, t: set<string>, db: Db, c: ClientOrderId, i: nat,
        now: int)
    requires Consistent(x) && Submitted(start, x) && Caught(start, x, n, t, db)
    requires c in x.history && i < |x.history[c]| && n[c] != GIVEN_UP
    ensures ApplyReport(db, x.history[c][i], now).1 == Taken(c)
    ensures OnlyOrder(db, ApplyReport(db, x.history[c][i], now).0, c)
    ensures Caught(start, x, n[c := MaxInt(n[c], i)], t, ApplyReport(db, x.history[c][i], now).0)
  {
    ReportReady(start, x, n, t, db, c, i, now);
    var db' := ApplyReport(db, x.history[c][i], now).0;
    ReportApplied(db, c, x.history[c], n[c], i, now);
    hide ApplyReport, Consistent, Submitted, FillsAre, AtPoint;
    AllOrdersHold(start, x, n, db, c, n[c := MaxInt(n[c], i)], db');
    SameFills(start, x, t, db, db');
  }

  lemma ReportReady(start: Db, x: Exchange, n: map<ClientOrderId, int>, t: set<string>, db: Db, c: ClientOrderId, i: nat,
        now: int)
    requires Consistent(x) && Submitted(start, x) && Caught(start, x, n, t, db)
    requires c in x.history && i < |x.history[c]| && n[c] != GIVEN_UP
    ensures ValidHistory(x.history[c]) && x.history[c][i].clientOrderId == c
    ensures AtPoint(db.orders[c], x.history[c], n[c])
    ensures !IdTaken(db, Merge(db.orders[c], x.history[c][i], now).row)
  {
    var h := x.history[c];
    assert HistoryConsistent(x, c) && OrderHolds(start, x, n, db, c);
    assert h[i] in h;
    DeliverOne(db.orders[c], h, n[c], i, now);
    HistoryIsOrdered(h, 0, MaxInt(n[c], i));
    MergeProgress(db.orders[c], h[i], now);
    assert RowFits(db, c);
    IdStaysFree(start, x, n, t, db, c, Merge(db.orders[c], h[i], now).row);
  }

  lemma OrderStays(start: Db, x: Exchange, n: map<ClientOrderId, int>, db: Db, n': map<ClientOrderId, int>, db': Db,
        d: ClientOrderId)
    requires Positions(x, n) && Positions(x, n') && d in x.history && d in db.orders && d in start.orders
    requires OrderHolds(start, x, n, db, d)
    requires n'[d] == n[d] && d in db'.orders && db'.orders[d] == db.orders[d]
    ensures OrderHolds(start, x, n', db', d)
  {
  }

  lemma OrderMoves(start: Db, x: Exchange, n: map<ClientOrderId, int>, db: Db, n': map<ClientOrderId, int>, db': Db,
        c: ClientOrderId)
    requires Positions(x, n) && Positions(x, n') && c in x.history && c in db.orders && c in start.orders
    requires OrderHolds(start, x, n, db, c) && OnlyOrder(db, db', c)
    requires Stands(db'.orders[c], x.history[c], n'[c])
    ensures OrderHolds(start, x, n', db', c)
  {
  }

  ghost predicate OrdersHold(start: Db, x: Exchange, n: map<ClientOrderId, int>, db: Db) {
    && Positions(x, n)
    && db.orders.Keys == x.history.Keys && x.history.Keys <= start.orders.Keys
    && (forall c {:trigger OrderHolds(start, x, n, db, c)} | c in x.history :: OrderHolds(start, x, n, db, c))
  }

  lemma AllOrdersHold(start: Db, x: Exchange, n: map<ClientOrderId, int>, db: Db, c: ClientOrderId,
                      n': map<ClientOrderId, int>, db': Db)
    requires OrdersHold(start, x, n, db) && Positions(x, n') && c in x.history
    requires forall d | d in x.history && d != c :: n'[d] == n[d]
    requires OnlyOrder(db, db', c) && Stands(db'.orders[c], x.history[c], n'[c])
    ensures OrdersHold(start, x, n', db')
  {
    forall d | d in x.history
      ensures OrderHolds(start, x, n', db', d)
    {
      assert OrderHolds(start, x, n, db, d);
      if d != c {
        OrderStays(start, x, n, db, n', db', d);
      } else {
        OrderMoves(start, x, n, db, n', db', c);
      }
    }
  }

  lemma SameFills(start: Db, x: Exchange, t: set<string>, db: Db, db': Db)
    requires Consistent(x) && Submitted(start, x) && FillsAre(start, x, t, db)
    requires db'.fills == db.fills && db'.positions == db.positions
    ensures FillsAre(start, x, t, db')
  {
    forall s: Symbol
      ensures Explained(db', s)
    {
      assert Explained(db, s);
      var gs :| ExplainedBy(db, s, gs);
      FillsStay(db, db', s, gs);
    }
  }

  /** The id the exchange gives to one order is never found on another one. */
  lemma IdStaysFree(start: Db, x: Exchange, n: map<ClientOrderId, int>, t: set<string>, db: Db, c: ClientOrderId, o: OrderRow)
    requires Consistent(x) && Submitted(start, x) && Caught(start, x, n, t, db)
    requires c in x.history && x.history[c] != []
    requires o.clientOrderId == c && o.exchangeOrderId == x.history[c][0].exchangeOrderId
    ensures !IdTaken(db, o)
  {
    if o.exchangeOrderId.Some? && o.exchangeOrderId.value in db.byExchangeId {
      var d := db.byExchangeId[o.exchangeOrderId.value];
      assert Indexed(db, o.exchangeOrderId.value);
      assert HistoryConsistent(x, d) && OrderHolds(start, x, n, db, d);
      assert c != d ==> IdsDiffer(x, c, d);
      if n[d] >= 0 {
        HistoryIsOrdered(x.history[d], 0, n[d]);
      }
    }
  }

  lemma ExpectedFill(start: Db, x: Exchange, n: map<ClientOrderId, int>, t: set<string>, db: Db, k: string, now: int)
    requires Consistent(x) && Submitted(start, x) && Caught(start, x, n, t, db) && k in x.trades
    ensures var xf := x.trades[k];
            && xf.clientOrderId.Some? && xf.clientOrderId.value in db.orders
            && Locate(db, xf.clientOrderId, xf.exchangeOrderId) == xf.clientOrderId
            && FillOf(db.orders[xf.clientOrderId.value], xf, now) == FillOfTrade(start, x, k)
  {
    assert TradeConsistent(x, k);
    var c := x.trades[k].clientOrderId.value;
    assert OrderHolds(start, x, n, db, c);
    assert RowFits(db, c) && RowFits(start, c);
  }

  /** An execution is recorded already exactly when it has arrived before. */
  lemma RecordedExactly(start: Db, x: Exchange, t: set<string>, db: Db, k: string)
    requires Consistent(x) && Submitted(start, x) && FillsAre(start, x, t, db) && k in x.trades
    ensures Recorded(db.fills, FillOfTrade(start, x, k)) <==> k in t
  {
    var f := FillOfTrade(start, x, k);
    assert TradeConsistent(x, k) && RowFits(start, x.trades[k].clientOrderId.value);
    if k in t {
      assert SameExecution(f, f);
    }
    forall g | g in db.fills && SameExecution(f, g)
      ensures g.eventKey == k
    {
      assert TradeConsistent(x, g.eventKey) && RowFits(start, x.trades[g.eventKey].clientOrderId.value);
      assert g.eventKey != k ==> TradesDiffer(x, k, g.eventKey);
    }
  }

  lemma FillCaught(start: Db, x: Exchange, n: map<ClientOrderId, int>, t: set<string>, db: Db, k: string, now: int)
    requires Consistent(x) && Submitted(start, x) && Caught(start, x, n, t, db) && k in x.trades
    ensures IngestFill(db, x.trades[k], now).1 == (k !in t)
    ensures Caught(start, x, n, t + {k}, IngestFill(db, x.trades[k], now).0)
  {
    var f := FillOfTrade(start, x, k);
    ExpectedFill(start, x, n, t, db, k, now);
    RecordedExactly(start, x, t, db, k);
    if k in t {
      assert t + {k} == t;
    } else {
      var db' := FillRecorded(db, f);
      forall c | c in x.history
        ensures OrderHolds(start, x, n, db', c)
      {
        assert OrderHolds(start, x, n, db, c);
      }
      NewFill(start, x, t, db, k);
    }
  }

  lemma NewFillIsUnique(db: Db, f: Fill)
    requires FillsUnique(db) && !Recorded(db.fills, f)
    ensures FillsUnique(db.(fills := db.fills + [f]))
  {
  }

  lemma NewFill(start: Db, x: Exchange, t: set<string>, db: Db, k: string)
    requires Consistent(x) && Submitted(start, x) && FillsAre(start, x, t, db) && WellFormed(db)
    requires k in x.trades && !Recorded(db.fills, FillOfTrade(start, x, k))
    ensures FillsAre(start, x, t + {k}, FillRecorded(db, FillOfTrade(start, x, k)))
  {
    var f := FillOfTrade(start, x, k);
    assert TradeConsistent(x, k);
    assert f.eventKey == k;
    NewFillIsUnique(db, f);
    forall s: Symbol
      ensures Explained(FillRecorded(db, f), s)
    {
      assert Explained(db, s);
      FillKeepsExplained(db, f, s);
    }
  }

  lemma MarkCaught(start: Db, x: Exchange, n: map<ClientOrderId, int>, t: set<string>, db: Db, k: string)
    requires Consistent(x) && Submitted(start, x) && Caught(start, x, n, t, db)
    ensures Caught(start, x, n, t, MarkProcessed(db, k))
  {
    var db' := MarkProcessed(db, k);
    forall c | c in x.history
      ensures OrderHolds(start, x, n, db', c)
    {
      assert OrderHolds(start, x, n, db, c);
    }
    SameFills(start, x, t, db, db');
  }

  /** A stream event is applied, or skipped because everything it carries is there already. */
  lemma EventCaught(start: Db, x: Exchange, n: map<ClientOrderId, int>, t: set<string>, db: Db, k: string, now: int,
                    n': map<ClientOrderId, int>, t': set<string>)
    requires Consistent(x) && Submitted(start, x) && Caught(start, x, n, t, db) && ProcessedKept(x, n, t, db)
    requires k in x.events && x.events[k].order in x.history && n[x.events[k].order] != GIVEN_UP
    requires n' == n[x.events[k].order := MaxInt(n[x.events[k].order], x.events[k].report)]
    requires t' == t + TradeOf(x.events[k])
    ensures var (db', result) := HandleEvent(db, EventOf(x, k), now);
            && result == (if k in db.processed then Duplicate else StreamApplied)
            && Caught(start, x, n', t', db')
            && db'.processed == db.processed + {k}
            && EventKept(x, n', t', k)
  {
    assert EventConsistent(x, k);
    var c, i := x.events[k].order, x.events[k].report;
    assert HistoryConsistent(x, c);
    assert x.history[c][i] in x.history[c];
    if k in db.processed {
      assert EventKept(x, n, t, k);
      assert n' == n && t' == t;
    } else {
      FirstEvent(start, x, n, t, db, k, now, n', t');
    }
  }

  lemma FirstEvent(start: Db, x: Exchange, n: map<ClientOrderId, int>, t: set<string>, db: Db, k: string, now: int,
                   n': map<ClientOrderId, int>, t': set<string>)
    requires Consistent(x) && Submitted(start, x) && Caught(start, x, n, t, db)
    requires k in x.events && EventConsistent(x, k) && k !in db.processed && n[x.events[k].order] != GIVEN_UP
    requires n' == n[x.events[k].order := MaxInt(n[x.events[k].order], x.events[k].report)]
    requires t' == t + TradeOf(x.events[k])
    ensures var (db', result) := HandleEvent(db, EventOf(x, k), now);
            && result == StreamApplied
            && Caught(start, x, n', t', db')
            && db'.processed == db.processed + {k}
  {
    var ev := EventOf(x, k);
    var c, i := x.events[k].order, x.events[k].report;
    var marked := MarkProcessed(db, k);
    MarkCaught(start, x, n, t, db, k);
    assert HistoryConsistent(x, c) && x.history[c][i] in x.history[c];
    ReportCaught(start, x, n, t, marked, c, i, now);
    var db1 := ApplyReport(marked, ev.report, now).0;
    if x.events[k].trade.Some? {
      assert TradeConsistent(x, x.events[k].trade.value);
      FillCaught(start, x, n', t, db1, x.events[k].trade.value, now);
    }
  }

  // ------------------------------------------------------------------ every run

  ghost function NewestReports(x: Exchange, w: seq<Delivery>): (n: map<ClientOrderId, int>)
    requires Consistent(x) && AllPossible(x, w)
  {
    map c | c in x.history :: NewestReport(x, w, c)
  }

  ghost function Steps(x: Exchange, w: seq<Delivery>): (steps: seq<Step>)
    requires Consistent(x) && AllPossible(x, w)
    ensures |steps| == |w|
    decreases |w|
  {
    if w == [] then []
    else
      assert w[|w| - 1] in w;
      Steps(x, w[..|w| - 1]) + [StepOf(x, w[|w| - 1])]
  }

  ghost function LedgerAfter(start: Db, x: Exchange, w: seq<Delivery>): Db
    requires Consistent(x) && AllPossible(x, w) && WellFormed(start)
  {
    Run(start, Steps(x, w))
  }

  /** No conflict and no store error: the delivery was taken, or was a duplicate. */
  ghost predicate Accepted(db: Db, x: Exchange, a: Delivery)
    requires Consistent(x) && Possible(x, a) && WellFormed(db)
  {
    match a.message
    case ByReport(c, i) => ApplyReport(db, x.history[c][i], a.now).1 == Taken(c)
    case ByFill(_) => true
    case ByStream(k) => HandleEvent(db, EventOf(x, k), a.now).1 in {StreamApplied, Duplicate}
    case OwnWrite(_) => true
  }

  /** The bookkeeping after one more delivery. */
  ghost function Further(x: Exchange, n: map<ClientOrderId, int>, a: Delivery): (n': map<ClientOrderId, int>)
    requires Consistent(x) && Possible(x, a) && Positions(x, n)
  {
    map c | c in x.history :: if n[c] == GIVEN_UP then GIVEN_UP else MaxInt(n[c], Carries(x, a, c))
  }

  /** The delivery is not about an order that was given up. */
  ghost predicate Heard(x: Exchange, n: map<ClientOrderId, int>, a: Delivery)
    requires Possible(x, a)
  {
    match a.message
    case ByReport(c, _) => c in n && n[c] != GIVEN_UP
    case ByStream(k) => x.events[k].order in n && n[x.events[k].order] != GIVEN_UP
    case _ => true
  }

  ghost predicate Covers(x: Exchange, n: map<ClientOrderId, int>, t: set<string>, n': map<ClientOrderId, int>, t': set<string>)
    requires Positions(x, n) && Positions(x, n')
  {
    t <= t' && forall c | c in x.history :: n[c] <= n'[c]
  }

  lemma KeptGrows(x: Exchange, n: map<ClientOrderId, int>, t: set<string>, n': map<ClientOrderId, int>, t': set<string>,
        k: string)
    requires Positions(x, n) && Positions(x, n') && Covers(x, n, t, n', t') && EventKept(x, n, t, k)
    ensures EventKept(x, n', t', k)
  {
  }

  lemma FurtherByReport(x: Exchange, n: map<ClientOrderId, int>, a: Delivery)
    requires Consistent(x) && Positions(x, n) && Possible(x, a) && a.message.ByReport? && Heard(x, n, a)
    ensures Further(x, n, a) == n[a.message.order := MaxInt(n[a.message.order], a.message.report)]
  {
    hide Consistent;
  }

  lemma ReportStep(x: Exchange, db: Db, a: Delivery)
    requires WellFormed(db) && Consistent(x) && Possible(x, a) && a.message.ByReport?
    requires ApplyReport(db, x.history[a.message.order][a.message.report], a.now).1.Taken?
    ensures After(db, StepOf(x, a)) == ApplyReport(db, x.history[a.message.order][a.message.report], a.now).0
  {
    hide ApplyReport, Consistent, WellFormed;
  }

  lemma ReportDelivered(start: Db, x: Exchange, n: map<ClientOrderId, int>, t: set<string>, db: Db, a: Delivery)
    requires Consistent(x) && Submitted(start, x) && Caught(start, x, n, t, db)
    requires Possible(x, a) && a.message.ByReport? && Heard(x, n, a)
    ensures Accepted(db, x, a)
    ensures Caught(start, x, Further(x, n, a), t, After(db, StepOf(x, a)))
    ensures After(db, StepOf(x, a)).processed == db.processed
  {
    FurtherByReport(x, n, a);
    hide ApplyReport, After, StepOf, Further, OrdersHold, FillsAre, Submitted, Consistent;
    ReportCaught(start, x, n, t, db, a.message.order, a.message.report, a.now);
    ReportStep(x, db, a);
  }

  lemma FillDelivered(start: Db, x: Exchange, n: map<ClientOrderId, int>, t: set<string>, db: Db, a: Delivery)
    requires Consistent(x) && Submitted(start, x) && Caught(start, x, n, t, db)
    requires Possible(x, a) && a.message.ByFill?
    ensures Caught(start, x, Further(x, n, a), t + TradeIn(x, a), After(db, StepOf(x, a)))
    ensures After(db, StepOf(x, a)).processed == db.processed
  {
    FillCaught(start, x, n, t, db, a.message.trade, a.now);
    assert Further(x, n, a) == n;
  }

  lemma EventDelivered(start: Db, x: Exchange, n: map<ClientOrderId, int>, t: set<string>, db: Db, a: Delivery)
    requires Consistent(x) && Submitted(start, x) && Caught(start, x, n, t, db) && ProcessedKept(x, n, t, db)
    requires Possible(x, a) && a.message.ByStream? && Heard(x, n, a)
    ensures Caught(start, x, Further(x, n, a), t + TradeIn(x, a), After(db, StepOf(x, a)))
    ensures After(db, StepOf(x, a)).processed == db.processed + {a.message.event}
    ensures EventKept(x, Further(x, n, a), t + TradeIn(x, a), a.message.event)
  {
    FurtherByEvent(x, n, a);
    EventStep(x, db, a);
    hide HandleEvent, After, StepOf, Caught, Consistent, Submitted, ProcessedKept, EventKept, Further, TradeIn;
    EventCaught(start, x, n, t, db, a.message.event, a.now, Further(x, n, a), t + TradeIn(x, a));
  }

  lemma EventStep(x: Exchange, db: Db, a: Delivery)
    requires WellFormed(db) && Consistent(x) && Possible(x, a) && a.message.ByStream?
    ensures After(db, StepOf(x, a)) == HandleEvent(db, EventOf(x, a.message.event), a.now).0
  {
  }

  lemma EventAccepted(start: Db, x: Exchange, n: map<ClientOrderId, int>, t: set<string>, db: Db, a: Delivery)
    requires Consistent(x) && Submitted(start, x) && Caught(start, x, n, t, db) && ProcessedKept(x, n, t, db)
    requires Possible(x, a) && a.message.ByStream? && Heard(x, n, a)
    ensures Accepted(db, x, a)
  {
    FurtherByEvent(x, n, a);
    hide HandleEvent, Caught, Consistent, Submitted, ProcessedKept, EventKept, Further, TradeIn;
    EventCaught(start, x, n, t, db, a.message.event, a.now, Further(x, n, a), t + TradeIn(x, a));
  }

  lemma FurtherByEvent(x: Exchange, n: map<ClientOrderId, int>, a: Delivery)
    requires Consistent(x) && Positions(x, n) && Possible(x, a) && a.message.ByStream? && Heard(x, n, a)
    ensures var e := x.events[a.message.event];
            && e.order in x.history
            && Further(x, n, a) == n[e.order := MaxInt(n[e.order], e.report)]
            && TradeIn(x, a) == TradeOf(e)
  {
    assert EventConsistent(x, a.message.event);
  }

  /** What the engine writes on its own touches no fact that the exchange has stated. */
  lemma PositionWritten(start: Db, x: Exchange, n: map<ClientOrderId, int>, t: set<string>, db: Db, p: PositionRow, gs: seq<Fill>)
    requires Consistent(x) && Submitted(start, x) && Caught(start, x, n, t, db) && p.qty >= 0.0
    requires multiset(gs) == multiset(FillsOf(db.fills, p.symbol)) && CoreOf(p) == CoreOf(ApplyAll(EmptyPosition(p.symbol), gs))
    ensures Caught(start, x, n, t, WithPosition(db, p))
  {
    var db' := WithPosition(db, p);
    forall c | c in x.history
      ensures OrderHolds(start, x, n, db', c)
    {
      assert OrderHolds(start, x, n, db, c);
    }
    forall s: Symbol
      ensures Explained(db', s)
    {
      assert Explained(db, s);
      if s == p.symbol {
        assert ExplainedBy(db', s, gs);
      } else {
        var hs :| ExplainedBy(db, s, hs);
        FillsStay(db, db', s, hs);
      }
    }
  }

  lemma FlagWritten(start: Db, x: Exchange, n: map<ClientOrderId, int>, t: set<string>, db: Db, c: ClientOrderId)
    requires Consistent(x) && Submitted(start, x) && Caught(start, x, n, t, db) && c in db.orders
    ensures Caught(start, x, n, t, FlagAmbiguous(db, c)) && FlagAmbiguous(db, c).processed == db.processed
  {
    var db' := FlagAmbiguous(db, c);
    assert RowFits(db, c) && OrderHolds(start, x, n, db, c);
    assert db'.orders[c] == db.orders[c].(ambiguous := true, version := db.orders[c].version + 1);
    AllOrdersHold(start, x, n, db, c, n, db');
    SameFills(start, x, t, db, db');
  }

  /** Marks and stops are not part of what the fills explain. */
  lemma SameCoreWritten(start: Db, x: Exchange, n: map<ClientOrderId, int>, t: set<string>, db: Db, p: PositionRow)
    requires Consistent(x) && Submitted(start, x) && Caught(start, x, n, t, db) && p.qty >= 0.0
    requires CoreOf(p) == CoreOf(PositionOf(db, p.symbol))
    ensures Caught(start, x, n, t, WithPosition(db, p))
  {
    assert Explained(db, p.symbol);
    var gs :| ExplainedBy(db, p.symbol, gs);
    PositionWritten(start, x, n, t, db, p, gs);
  }

  lemma RebuildWritten(start: Db, x: Exchange, n: map<ClientOrderId, int>, t: set<string>, db: Db, s: Symbol)
    requires Consistent(x) && Submitted(start, x) && Caught(start, x, n, t, db)
    ensures Caught(start, x, n, t, PositionRebuilt(db, s)) && PositionRebuilt(db, s).processed == db.processed
  {
    RebuildIsExplained(db, s);
    hide Consistent, Submitted, OrdersHold, FillsAre, ApplyAll, ByTime;
    PositionWritten(start, x, n, t, db, Rebuilt(PositionOf(db, s), ByTime(FillsOf(db.fills, s))), ByTime(FillsOf(db.fills, s)));
  }

  lemma MarkWritten(start: Db, x: Exchange, n: map<ClientOrderId, int>, t: set<string>, db: Db, s: Symbol, price: real)
    requires Consistent(x) && Submitted(start, x) && Caught(start, x, n, t, db)
    ensures Caught(start, x, n, t, PositionMarked(db, s, price)) && Caught(start, x, n, t, StopSet(db, s, price))
    ensures PositionMarked(db, s, price).processed == StopSet(db, s, price).processed == db.processed
  {
    hide Consistent, Submitted, OrdersHold, FillsAre;
    SameCoreWritten(start, x, n, t, db, Marked(PositionOf(db, s), price));
    SameCoreWritten(start, x, n, t, db, PositionOf(db, s).(stop := Some(price)));
  }

  lemma OwnWritten(start: Db, x: Exchange, n: map<ClientOrderId, int>, t: set<string>, db: Db, a: Delivery)
    requires Consistent(x) && Submitted(start, x) && Caught(start, x, n, t, db)
    requires Possible(x, a) && a.message.OwnWrite?
    ensures Caught(start, x, n, t, After(db, StepOf(x, a))) && After(db, StepOf(x, a)).processed == db.processed
  {
    hide Consistent, Submitted, OrdersHold, FillsAre, FlagAmbiguous, PositionRebuilt, PositionMarked, StopSet, WellFormed;
    match a.message.op {
      case Flag(c) =>
        if c in db.orders {
          FlagWritten(start, x, n, t, db, c);
        }
      case RebuildPosition(s) => RebuildWritten(start, x, n, t, db, s);
      case MarkPosition(s, price) => MarkWritten(start, x, n, t, db, s, price);
      case SetStop(s, price) => MarkWritten(start, x, n, t, db, s, price);
    }
  }

  lemma NothingFurther(x: Exchange, n: map<ClientOrderId, int>, t: set<string>, a: Delivery)
    requires Consistent(x) && Possible(x, a) && Positions(x, n) && a.message.OwnWrite?
    ensures Further(x, n, a) == n && t + TradeIn(x, a) == t
  {
  }

  lemma ProcessedStay(x: Exchange, n: map<ClientOrderId, int>, t: set<string>, n': map<ClientOrderId, int>, t': set<string>,
                      db: Db, db': Db)
    requires Positions(x, n) && Positions(x, n') && Covers(x, n, t, n', t') && ProcessedKept(x, n, t, db)
    requires forall k | k in db'.processed - db.processed :: EventKept(x, n', t', k)
    ensures ProcessedKept(x, n', t', db')
  {
    forall k | k in db'.processed
      ensures EventKept(x, n', t', k)
    {
      if k in db.processed {
        assert EventKept(x, n, t, k);
        KeptGrows(x, n, t, n', t', k);
      }
    }
  }

  lemma FurtherCovers(x: Exchange, n: map<ClientOrderId, int>, t: set<string>, a: Delivery)
    requires Consistent(x) && Possible(x, a) && Positions(x, n)
    ensures Positions(x, Further(x, n, a)) && Covers(x, n, t, Further(x, n, a), t + TradeIn(x, a))
  {
    if a.message.ByStream? {
      assert EventConsistent(x, a.message.event);
    }
  }

  lemma DeliveryCaught(start: Db, x: Exchange, n: map<ClientOrderId, int>, t: set<string>, db: Db, a: Delivery)
    requires Consistent(x) && Submitted(start, x) && Caught(start, x, n, t, db) && ProcessedKept(x, n, t, db)
    requires Possible(x, a) && Heard(x, n, a)
    ensures Accepted(db, x, a)
    ensures Caught(start, x, Further(x, n, a), t + TradeIn(x, a), After(db, StepOf(x, a)))
    ensures ProcessedKept(x, Further(x, n, a), t + TradeIn(x, a), After(db, StepOf(x, a)))
  {
    FurtherCovers(x, n, t, a);
    assert a.message.ByReport? ==> Accepted(db, x, a) && t + TradeIn(x, a) == t by {
      if a.message.ByReport? {
        ReportDelivered(start, x, n, t, db, a);
      }
    }
    hide After, StepOf, OrdersHold, FillsAre, Consistent, Submitted, ProcessedKept, EventKept, Further, TradeIn, Covers, Accepted;
    match a.message {
      case ByReport(_, _) =>
        ReportDelivered(start, x, n, t, db, a);
      case ByFill(_) => FillDelivered(start, x, n, t, db, a);
      case ByStream(_) =>
        EventDelivered(start, x, n, t, db, a);
        EventAccepted(start, x, n, t, db, a);
      case OwnWrite(_) =>
        NothingFurther(x, n, t, a);
        OwnWritten(start, x, n, t, db, a);
    }
    ProcessedStay(x, n, t, Further(x, n, a), t + TradeIn(x, a), db, After(db, StepOf(x, a)));
  }

  lemma NothingArrived(start: Db, x: Exchange)
    requires Consistent(x) && Submitted(start, x)
    ensures Caught(start, x, NewestReports(x, []), TradesIn(x, []), start)
    ensures ProcessedKept(x, NewestReports(x, []), TradesIn(x, []), start)
  {
    forall s: Symbol
      ensures Explained(start, s)
    {
      assert ExplainedBy(start, s, []);
    }
    forall c | c in x.history
      ensures OrderHolds(start, x, NewestReports(x, []), start, c)
    {
      assert Waits(start, x, c);
    }
  }

  lemma OneMoreDelivery(x: Exchange, w: seq<Delivery>, a: Delivery)
    requires Consistent(x) && AllPossible(x, w + [a])
    ensures AllPossible(x, w) && Possible(x, a)
    ensures Positions(x, NewestReports(x, w))
    ensures NewestReports(x, w + [a]) == Further(x, NewestReports(x, w), a)
    ensures TradesIn(x, w + [a]) == TradesIn(x, w) + TradeIn(x, a)
    ensures Steps(x, w + [a]) == Steps(x, w) + [StepOf(x, a)]
  {
    assert a in w + [a] && forall b | b in w :: b in w + [a];
    assert (w + [a])[..|w + [a]| - 1] == w;
    forall c | c in x.history
      ensures -1 <= NewestReport(x, w, c) < |x.history[c]|
    {
      NewestInRange(x, w, c);
    }
  }

  /** Where nothing is refused, nothing is given up. */
  lemma AllHeard(x: Exchange, w: seq<Delivery>, a: Delivery)
    requires Consistent(x) && AllPossible(x, w) && Possible(x, a) && Positions(x, NewestReports(x, w))
    ensures Heard(x, NewestReports(x, w), a)
  {
    if a.message.ByStream? {
      assert EventConsistent(x, a.message.event);
    }
  }

  /** What is on record tells the executions that arrived: quantity, price, money, commission, ids and time are the
      exchange's, order, instrument and side are those of the order. */
  ghost predicate FillsTell(x: Exchange, t: set<string>, db: Db) {
    && t <= x.trades.Keys
    && (forall f | f in db.fills ::
          && f.eventKey in t && f.order in db.orders && x.trades[f.eventKey].clientOrderId == Some(f.order)
          && FillTells(f, x.trades[f.eventKey], db.orders[f.order]) && f.time == x.trades[f.eventKey].timeMs)
    && (forall k | k in t :: exists f :: f in db.fills && f.eventKey == k)
  }

  lemma CaughtFillsTell(start: Db, x: Exchange, n: map<ClientOrderId, int>, t: set<string>, db: Db)
    requires Consistent(x) && Submitted(start, x) && Caught(start, x, n, t, db)
    ensures FillsTell(x, t, db)
  {
    forall f | f in db.fills
      ensures f.eventKey in t && f.order in db.orders && x.trades[f.eventKey].clientOrderId == Some(f.order)
      ensures FillTells(f, x.trades[f.eventKey], db.orders[f.order]) && f.time == x.trades[f.eventKey].timeMs
    {
      TradeTells(start, x, n, t, db, f.eventKey);
    }
    forall k | k in t
      ensures exists f :: f in db.fills && f.eventKey == k
    {
      TradeTells(start, x, n, t, db, k);
      assert FillOfTrade(start, x, k) in db.fills;
    }
  }

  lemma TradeTells(start: Db, x: Exchange, n: map<ClientOrderId, int>, t: set<string>, db: Db, k: string)
    requires Consistent(x) && Submitted(start, x) && Caught(start, x, n, t, db) && k in x.trades
    ensures var f, xf := FillOfTrade(start, x, k), x.trades[k];
            && f.eventKey == k && f.order in db.orders && xf.clientOrderId == Some(f.order)
            && FillTells(f, xf, db.orders[f.order]) && f.time == xf.timeMs
  {
    assert TradeConsistent(x, k);
    var c := x.trades[k].clientOrderId.value;
    assert OrderHolds(start, x, n, db, c) && RowFits(db, c) && RowFits(start, c);
  }

  /** After any sequence of deliveries every order stands at the newest report delivered about it, the
      fills are exactly the executions delivered, each recorded once and as the exchange told it, and no
      processed event has lost its report or its execution. */
  lemma {:induction false} LedgerCatchesUp(start: Db, x: Exchange, w: seq<Delivery>)
    requires Consistent(x) && Submitted(start, x) && AllPossible(x, w)
    ensures var db := LedgerAfter(start, x, w);
            && Caught(start, x, NewestReports(x, w), TradesIn(x, w), db)
            && ProcessedKept(x, NewestReports(x, w), TradesIn(x, w), db)
            && FillsTell(x, TradesIn(x, w), db)
    decreases |w|
  {
    if w == [] {
      NothingArrived(start, x);
      CaughtFillsTell(start, x, NewestReports(x, w), TradesIn(x, w), start);
    } else {
      var rest, a := w[..|w| - 1], w[|w| - 1];
      assert w == rest + [a];
      OneMoreDelivery(x, rest, a);
      LedgerCatchesUp(start, x, rest);
      AllHeard(x, rest, a);
      DeliveryCaught(start, x, NewestReports(x, rest), TradesIn(x, rest), LedgerAfter(start, x, rest), a);
      assert (Steps(x, rest) + [StepOf(x, a)])[..|w| - 1] == Steps(x, rest);
      hide FillsTell, Caught, ProcessedKept, Consistent, Submitted;
      CaughtFillsTell(start, x, NewestReports(x, w), TradesIn(x, w), LedgerAfter(start, x, w));
    }
  }

  /** Nothing a consistent exchange says is ever refused, however it arrives. */
  lemma NothingIsRefused(start: Db, x: Exchange, w: seq<Delivery>, a: Delivery)
    requires Consistent(x) && Submitted(start, x) && AllPossible(x, w) && Possible(x, a)
    ensures Accepted(LedgerAfter(start, x, w), x, a)
  {
    LedgerCatchesUp(start, x, w);
    assert a in w + [a] && forall b | b in w + [a] :: b in w || b == a;
    OneMoreDelivery(x, w, a);
    AllHeard(x, w, a);
    DeliveryCaught(start, x, NewestReports(x, w), TradesIn(x, w), LedgerAfter(start, x, w), a);
  }

  /** A duplicate skipped by the stream handler loses nothing: its report and its execution are in the
      ledger that skips it. */
  lemma SkippedEventLosesNothing(start: Db, x: Exchange, w: seq<Delivery>, k: string, now: int)
    requires Consistent(x) && Submitted(start, x) && AllPossible(x, w) && k in x.events
    requires HandleEvent(LedgerAfter(start, x, w), EventOf(x, k), now).1 == Duplicate
    ensures EventConsistent(x, k)
    ensures NewestReport(x, w, x.events[k].order) >= x.events[k].report
    ensures x.events[k].trade.Some? ==>
              FillOfTrade(start, x, x.events[k].trade.value) in LedgerAfter(start, x, w).fills
  {
    LedgerCatchesUp(start, x, w);
    assert EventConsistent(x, k);
    assert k in LedgerAfter(start, x, w).processed;
    assert EventKept(x, NewestReports(x, w), TradesIn(x, w), k);
  }

  /** Without a rebuild, the order of recording explains the position. */
  lemma {:induction false} RecordingOrderExplains(start: Db, x: Exchange, w: seq<Delivery>, s: Symbol)
    requires Consistent(x) && Submitted(start, x) && AllPossible(x, w)
    requires forall a | a in w :: a.message != OwnWrite(RebuildPosition(s))
    ensures ExplainedBy(LedgerAfter(start, x, w), s, FillsOf(LedgerAfter(start, x, w).fills, s))
    decreases |w|
  {
    if w == [] {
      assert ExplainedBy(start, s, []);
    } else {
      var rest, a := w[..|w| - 1], w[|w| - 1];
      assert w == rest + [a] && a in w && forall b | b in rest :: b in w;
      OneMoreDelivery(x, rest, a);
      RecordingOrderExplains(start, x, rest, s);
      assert (Steps(x, rest) + [StepOf(x, a)])[..|w| - 1] == Steps(x, rest);
      StepKeepsRecordingOrder(LedgerAfter(start, x, rest), StepOf(x, a), s);
    }
  }

  // ------------------------------------------------------------------ two runs agree

  ghost predicate Distinct(fs: seq<Fill>) {
    forall i, j | 0 <= i < j < |fs| :: fs[i] != fs[j]
  }

  lemma {:induction false} DistinctCount(fs: seq<Fill>, f: Fill)
    requires Distinct(fs)
    ensures multiset(fs)[f] == if f in fs then 1 else 0
    decreases |fs|
  {
    if fs != [] {
      DistinctCount(fs[..|fs| - 1], f);
      assert fs == fs[..|fs| - 1] + [fs[|fs| - 1]];
    }
  }

  lemma SameMembersPermute(fs: seq<Fill>, gs: seq<Fill>)
    requires Distinct(fs) && Distinct(gs) && forall f :: f in fs <==> f in gs
    ensures multiset(fs) == multiset(gs)
  {
    forall f: Fill
      ensures multiset(fs)[f] == multiset(gs)[f]
    {
      DistinctCount(fs, f);
      DistinctCount(gs, f);
    }
  }

  lemma {:induction false} FillsOfMembers(fills: seq<Fill>, s: Symbol)
    requires Distinct(fills)
    ensures Distinct(FillsOf(fills, s))
    ensures forall f :: f in FillsOf(fills, s) <==> f in fills && f.symbol == s
    decreases |fills|
  {
    if fills != [] {
      var rest, last := fills[..|fills| - 1], fills[|fills| - 1];
      FillsOfMembers(rest, s);
      assert fills == rest + [last];
      assert last !in rest;
    }
  }

  lemma FillsAgree(start: Db, x: Exchange, t: set<string>, db1: Db, db2: Db, s: Symbol)
    requires Consistent(x) && Submitted(start, x) && FillsAre(start, x, t, db1) && FillsAre(start, x, t, db2)
    ensures multiset(FillsOf(db1.fills, s)) == multiset(FillsOf(db2.fills, s))
  {
    FillsOfMembers(db1.fills, s);
    FillsOfMembers(db2.fills, s);
    SameMembersPermute(FillsOf(db1.fills, s), FillsOf(db2.fills, s));
  }

  lemma OrdersAgree(start: Db, x: Exchange, n: map<ClientOrderId, int>, t: set<string>, db1: Db, db2: Db, c: ClientOrderId)
    requires Consistent(x) && Submitted(start, x) && Caught(start, x, n, t, db1) && Caught(start, x, n, t, db2)
    requires c in x.history && n[c] != GIVEN_UP
    ensures SameFacts(db1.orders[c], db2.orders[c])
  {
    assert OrderHolds(start, x, n, db1, c) && OrderHolds(start, x, n, db2, c);
  }

  lemma ExplanationsAgree(db1: Db, db2: Db, s: Symbol, fs: seq<Fill>, gs: seq<Fill>, mark: real)
    requires ExplainedBy(db1, s, fs) && ExplainedBy(db2, s, gs) && multiset(fs) == multiset(gs)
    requires Clean(EmptyPosition(s), fs) && Clean(EmptyPosition(s), gs)
    ensures PositionOf(db1, s).qty == PositionOf(db2, s).qty
    ensures PositionOf(db1, s).feesOther == PositionOf(db2, s).feesOther
    ensures ProfitAt(PositionOf(db1, s), mark) == ProfitAt(PositionOf(db2, s), mark)
  {
    OrderIndependence(EmptyPosition(s), fs, gs, mark);
    CoreProfit(PositionOf(db1, s), ApplyAll(EmptyPosition(s), fs), mark);
    CoreProfit(PositionOf(db2, s), ApplyAll(EmptyPosition(s), gs), mark);
  }

  /** Two runs over the same order and execution data, however interleaved, duplicated and reordered:
      every order has the same status and quantities, and the same executions are recorded. */
  lemma TwoRunsAgree(start: Db, x: Exchange, w1: seq<Delivery>, w2: seq<Delivery>, s: Symbol)
    requires Consistent(x) && Submitted(start, x) && AllPossible(x, w1) && AllPossible(x, w2)
    requires NewestReports(x, w1) == NewestReports(x, w2) && TradesIn(x, w1) == TradesIn(x, w2)
    ensures var db1 := LedgerAfter(start, x, w1);
            var db2 := LedgerAfter(start, x, w2);
            && db1.orders.Keys == db2.orders.Keys
            && (forall c | c in db1.orders :: SameFacts(db1.orders[c], db2.orders[c]))
            && multiset(FillsOf(db1.fills, s)) == multiset(FillsOf(db2.fills, s))
  {
    var db1, db2 := LedgerAfter(start, x, w1), LedgerAfter(start, x, w2);
    LedgerCatchesUp(start, x, w1);
    LedgerCatchesUp(start, x, w2);
    var n, t := NewestReports(x, w1), TradesIn(x, w1);
    forall c | c in x.history
      ensures SameFacts(db1.orders[c], db2.orders[c])
    {
      OrdersAgree(start, x, n, t, db1, db2, c);
    }
    FillsAgree(start, x, t, db1, db2, s);
  }

  /** Where, besides, the fills explain both positions in an order in which nothing is oversold, both have the same
      quantity, the same third-asset commissions and the same total P&L at every mark. The order is that of
      recording, with what came before the last rebuild in order of execution. */
  lemma TwoRunsProfit(start: Db, x: Exchange, w1: seq<Delivery>, w2: seq<Delivery>, s: Symbol, mark: real, fs: seq<Fill>,
        gs: seq<Fill>)
    requires Consistent(x) && Submitted(start, x) && AllPossible(x, w1) && AllPossible(x, w2)
    requires NewestReports(x, w1) == NewestReports(x, w2) && TradesIn(x, w1) == TradesIn(x, w2)
    requires ExplainedBy(LedgerAfter(start, x, w1), s, fs) && Clean(EmptyPosition(s), fs)
    requires ExplainedBy(LedgerAfter(start, x, w2), s, gs) && Clean(EmptyPosition(s), gs)
    ensures var p1 := PositionOf(LedgerAfter(start, x, w1), s);
            var p2 := PositionOf(LedgerAfter(start, x, w2), s);
            p1.qty == p2.qty && p1.feesOther == p2.feesOther && ProfitAt(p1, mark) == ProfitAt(p2, mark)
  {
    TwoRunsAgree(start, x, w1, w2, s);
    ExplanationsAgree(LedgerAfter(start, x, w1), LedgerAfter(start, x, w2), s, fs, gs, mark);
  }
}
