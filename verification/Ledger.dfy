/** The committed state of the engine's ledger and what one store transaction does to it, as functions
    (engine/infrastructure/store.py, engine/application/order_service.py,
    engine/application/stream_ingestion.py). */
module Ledger {
  import opened Common
  import opened OrderModel
  import opened PositionModel

  // ------------------------------------------------------------------ tables

  /** Idempotency keys of the outbox. */
  datatype Key =
    | OrderVersion(order: ClientOrderId, version: nat)
    | FillKey(eventKey: string)
    | PositionAfterFill(symbol: Symbol, eventKey: string)
    | ConflictEvent(order: ClientOrderId, reported: Status)
    | AmbiguousEvent(order: ClientOrderId)
    | AnomalyEvent(eventKey: string)

  datatype Payload = OrderState(row: OrderRow) | FillState(fill: Fill) | PositionState(position: PositionRow) | Notice

  datatype Message = Message(key: Key, payload: Payload)

  /** The tables of one bot. `created` lists the orders by row id, `byExchangeId` is the unique
      index over (exchange, exchange_order_id). */
  datatype Db = Db(
    intents: set<string>, orders: map<ClientOrderId, OrderRow>, created: seq<ClientOrderId>,
    byExchangeId: map<string, ClientOrderId>, fills: seq<Fill>, positions: map<Symbol, PositionRow>, processed: set<string>, outbox: seq<Message>)

  /** What the constraints of the schema and the row converters keep true of the tables. */
  ghost predicate WellFormed(db: Db) {
    && (forall c {:trigger RowFits(db, c)} | c in db.orders :: RowFits(db, c))
    && (forall x {:trigger Indexed(db, x)} | x in db.byExchangeId :: Indexed(db, x))
    && (forall s | s in db.positions :: PositionFits(db.positions[s], s))
    && (forall i | i in db.intents :: BotOrder(i) in db.orders)
    && (forall c | c in db.created :: c in db.orders)
  }

  ghost predicate RowFits(db: Db, c: ClientOrderId)
    requires c in db.orders
  {
    var o := db.orders[c];
    && o.clientOrderId == c && c.BotOrder? && c.intent in db.intents && c in db.created
    && (o.exchangeOrderId.Some? ==>
          && Present(o.exchangeOrderId)
          && o.exchangeOrderId.value in db.byExchangeId
          && db.byExchangeId[o.exchangeOrderId.value] == c)
  }

  ghost predicate Indexed(db: Db, x: string)
    requires x in db.byExchangeId
  {
    db.byExchangeId[x] in db.orders && db.orders[db.byExchangeId[x]].exchangeOrderId == Some(x)
  }

  ghost predicate PositionFits(p: PositionRow, s: Symbol) {
    p.qty >= 0.0 && p.symbol == s
  }

  function PositionOf(db: Db, symbol: Symbol): PositionRow {
    if symbol in db.positions then db.positions[symbol] else EmptyPosition(symbol)
  }

  predicate Queued(outbox: seq<Message>, key: Key) {
    exists m | m in outbox :: m.key == key
  }

  function Enqueue(outbox: seq<Message>, m: Message): (r: seq<Message>)
    ensures outbox <= r
  {
    if Queued(outbox, m.key) then outbox else outbox + [m]
  }

  function Enqueued(db: Db, m: Message): (db': Db)
    ensures WellFormed(db) ==> WellFormed(db')
    ensures db' == db.(outbox := db'.outbox) && db.outbox <= db'.outbox
  {
    var db' := db.(outbox := Enqueue(db.outbox, m));
    assert WellFormed(db) ==> WellFormed(db') by {
      if WellFormed(db) {
        SameTables(db, db');
      }
    }
    db'
  }

  lemma SameTables(db: Db, db': Db)
    requires WellFormed(db) && db' == db.(processed := db'.processed, outbox := db'.outbox, fills := db'.fills,
                                          positions := db'.positions)
    requires forall s | s in db'.positions :: PositionFits(db'.positions[s], s)
    ensures WellFormed(db')
  {
    forall c | c in db'.orders
      ensures RowFits(db', c)
    {
      assert RowFits(db, c);
    }
    forall x | x in db'.byExchangeId
      ensures Indexed(db', x)
    {
      assert Indexed(db, x);
    }
  }

  // ------------------------------------------------------------------ orders

  predicate IdTaken(db: Db, o: OrderRow) {
    o.exchangeOrderId.Some? && o.exchangeOrderId.value in db.byExchangeId
      && db.byExchangeId[o.exchangeOrderId.value] != o.clientOrderId
  }

  /** An update of an existing row that breaks no constraint. */
  ghost predicate Replaces(db: Db, o: OrderRow) {
    && o.clientOrderId in db.orders
    && !IdTaken(db, o)
    && (o.exchangeOrderId.Some? ==> Present(o.exchangeOrderId))
    && (db.orders[o.clientOrderId].exchangeOrderId.Some? ==> o.exchangeOrderId == db.orders[o.clientOrderId].exchangeOrderId)
  }

  /** A saved order carries the next version. */
  function Saved(db: Db, o: OrderRow): (db': Db)
  {
    var row := o.(version := o.version + 1);
    db.(orders := db.orders[o.clientOrderId := row],
        byExchangeId := if o.exchangeOrderId.Some? then db.byExchangeId[o.exchangeOrderId.value := o.clientOrderId]
                        else db.byExchangeId)
  }

  lemma SavedIsWellFormed(db: Db, o: OrderRow)
    requires WellFormed(db) && Replaces(db, o)
    ensures WellFormed(Saved(db, o))
  {
    var db' := Saved(db, o);
    assert RowFits(db, o.clientOrderId);
    forall c | c in db'.orders
      ensures RowFits(db', c)
    {
      assert RowFits(db, c);
    }
    forall x | x in db'.byExchangeId
      ensures Indexed(db', x)
    {
      if x in db.byExchangeId {
        assert Indexed(db, x);
      }
    }
  }

  function Announced(db: Db, row: OrderRow): Db {
    Enqueued(db, Message(OrderVersion(row.clientOrderId, row.version), OrderState(row)))
  }

  /** Every save is announced in the same transaction. */
  function Updated(db: Db, o: OrderRow): (db': Db)
    requires WellFormed(db) && Replaces(db, o)
    ensures WellFormed(db') && db.outbox <= db'.outbox
  {
    SavedIsWellFormed(db, o);
    Announced(Saved(db, o), o.(version := o.version + 1))
  }

  /** By client order id first, by exchange order id otherwise. */
  function Locate(db: Db, client: Option<ClientOrderId>, exchangeId: Option<string>): Option<ClientOrderId> {
    if client.Some? && client.value in db.orders then client
    else if Present(exchangeId) && exchangeId.value in db.byExchangeId then Some(db.byExchangeId[exchangeId.value])
    else None
  }

  lemma LocatedFits(db: Db, client: Option<ClientOrderId>, exchangeId: Option<string>)
    requires WellFormed(db) && Locate(db, client, exchangeId).Some?
    ensures var c := Locate(db, client, exchangeId).value;
            c in db.orders && RowFits(db, c)
  {
    if !(client.Some? && client.value in db.orders) {
      assert Indexed(db, exchangeId.value);
    }
    assert RowFits(db, Locate(db, client, exchangeId).value);
  }

  /** What a caller asks for when an intent becomes an order. */
  datatype Intent = Intent(
    id: string, symbol: Symbol, side: Side, purpose: Purpose, quantity: real)

  function FreshRow(i: Intent, now: int): OrderRow {
    OrderRow(BotOrder(i.id), i.id, i.symbol, i.side, i.purpose, i.quantity, None, Submitting, 0.0, 0.0,
             None, false, None, Some(now), None, None, None, 0)
  }

  function Inserted(db: Db, i: Intent, now: int): (db': Db)
    requires WellFormed(db) && i.id !in db.intents
    ensures WellFormed(db') && Replaces(db', FreshRow(i, now)) && db'.outbox == db.outbox
  {
    var db' := db.(intents := db.intents + {i.id}, orders := db.orders[BotOrder(i.id) := FreshRow(i, now).(submittedAt := None)],
                  created := db.created + [BotOrder(i.id)]);
    InsertedIsWellFormed(db, i, now, db');
    db'
  }

  lemma InsertedIsWellFormed(db: Db, i: Intent, now: int, db': Db)
    requires WellFormed(db) && i.id !in db.intents
    requires db' == db.(intents := db.intents + {i.id}, orders := db.orders[BotOrder(i.id) := FreshRow(i, now).(submittedAt := None)],
                  created := db.created + [BotOrder(i.id)])
    ensures WellFormed(db')
  {
    assert BotOrder(i.id) in db.orders ==> RowFits(db, BotOrder(i.id));
    forall c | c in db'.orders
      ensures RowFits(db', c)
    {
      if c in db.orders {
        assert RowFits(db, c);
      }
    }
    forall x | x in db'.byExchangeId
      ensures Indexed(db', x)
    {
      assert Indexed(db, x);
    }
  }

  /** The intent and its order in one transaction; an intent that exists is left alone. */
  function PersistIntent(db: Db, i: Intent, now: int): (res: (Db, bool))
    requires WellFormed(db)
    ensures WellFormed(res.0) && db.outbox <= res.0.outbox
  {
    if i.id in db.intents then (db, false)
    else
      (Updated(Inserted(db, i, now), FreshRow(i, now)), true)
  }

  datatype ReportOutcome =
    | NoOrder
    | Taken(order: ClientOrderId)
    | Conflict(order: ClientOrderId)
    | StoreError

  function ApplyReport(db: Db, r: Report, now: int): (res: (Db, ReportOutcome))
    requires WellFormed(db)
    ensures WellFormed(res.0) && db.outbox <= res.0.outbox
    ensures res.1.Conflict? || res.1.StoreError? || res.1.NoOrder? ==> res.0 == db
  {
    var located := Locate(db, Some(r.clientOrderId), r.exchangeOrderId);
    if located.None? then (db, NoOrder)
    else
      LocatedFits(db, Some(r.clientOrderId), r.exchangeOrderId);
      match Merge(db.orders[located.value], r, now)
      case Illegal(_) => (db, Conflict(located.value))
      case Merged(o, changed) =>
        if !changed then (db, Taken(located.value))
        else if IdTaken(db, o) then (db, StoreError)
        else (Updated(db, o), Taken(located.value))
  }

  function ConflictRecorded(db: Db, c: ClientOrderId, reported: Status): (db': Db)
    ensures WellFormed(db) ==> WellFormed(db')
  {
    Enqueued(db, Message(ConflictEvent(c, reported), Notice))
  }

  /** A definitive refusal, or a submission that was never found. Illegal after an acknowledgement. */
  function Reject(db: Db, c: ClientOrderId, reason: string, now: int): (res: (Db, Verdict))
    requires WellFormed(db) && c in db.orders
    ensures WellFormed(res.0) && db.outbox <= res.0.outbox
  {
    assert RowFits(db, c);
    var o := db.orders[c];
    var v := RejectVerdict(o.status);
    (if v == Accepted(true) then Updated(db, RejectedRow(o, reason, now)) else db, v)
  }

  function FlagAmbiguous(db: Db, c: ClientOrderId): (db': Db)
    requires WellFormed(db) && c in db.orders
    ensures WellFormed(db') && db.outbox <= db'.outbox
  {
    assert RowFits(db, c);
    Enqueued(Updated(db, db.orders[c].(ambiguous := true)), Message(AmbiguousEvent(c), Notice))
  }

  // ------------------------------------------------------------------ fills

  /** A normalized execution. */
  datatype ExchangeFill = ExchangeFill(
    tradeId: string, exchangeOrderId: Option<string>, clientOrderId: Option<ClientOrderId>,
    qty: real, price: real, quoteQty: real, commission: real, commissionAsset: Option<string>,
    timeMs: int, eventKey: string)

  function FillOf(o: OrderRow, xf: ExchangeFill, now: int): Fill {
    Fill(o.clientOrderId, xf.tradeId, o.symbol, o.side, xf.qty, xf.price, xf.quoteQty, xf.commission,
         xf.commissionAsset, if xf.timeMs != 0 then xf.timeMs else now, xf.eventKey)
  }

  /** The two unique constraints of the table. */
  predicate SameExecution(a: Fill, b: Fill) {
    a.eventKey == b.eventKey || (a.order == b.order && a.tradeId == b.tradeId)
  }

  predicate Recorded(fills: seq<Fill>, f: Fill) {
    exists g | g in fills :: SameExecution(f, g)
  }

  function FillRecorded(db: Db, f: Fill): (db': Db)
    requires WellFormed(db)
    ensures WellFormed(db')
    ensures db'.orders == db.orders && db'.intents == db.intents && db'.byExchangeId == db.byExchangeId
    ensures db'.processed == db.processed && db'.fills == db.fills + [f] && db.outbox <= db'.outbox
    ensures db'.positions == db.positions[f.symbol := Apply(PositionOf(db, f.symbol), f)]
  {
    var p := PositionOf(db, f.symbol);
    var p' := Apply(p, f);
    var db1 := db.(fills := db.fills + [f], positions := db.positions[f.symbol := p']);
    SameTables(db, db1);
    var db2 := Enqueued(db1, Message(FillKey(f.eventKey), FillState(f)));
    var db3 := Enqueued(db2, Message(PositionAfterFill(f.symbol, f.eventKey), PositionState(p')));
    if AnomaliesOf(p, f) == [] then db3 else Enqueued(db3, Message(AnomalyEvent(f.eventKey), Notice))
  }

  function IngestFill(db: Db, xf: ExchangeFill, now: int): (res: (Db, bool))
    requires WellFormed(db)
    ensures WellFormed(res.0) && db.outbox <= res.0.outbox
    ensures res.0.orders == db.orders && res.0.intents == db.intents && res.0.byExchangeId == db.byExchangeId
    ensures res.0.processed == db.processed
  {
    var located := Locate(db, xf.clientOrderId, xf.exchangeOrderId);
    if located.None? then (db, false)
    else
      LocatedFits(db, xf.clientOrderId, xf.exchangeOrderId);
      var f := FillOf(db.orders[located.value], xf, now);
      if Recorded(db.fills, f) then (db, false) else (FillRecorded(db, f), true)
  }

  // ------------------------------------------------------------------ stream events

  /** An ORDER event of the user data stream: a report and, for a trade, its execution. */
  datatype StreamEvent = StreamEvent(eventKey: string, report: Report, fill: Option<ExchangeFill>)

  function MarkProcessed(db: Db, key: string): (db': Db)
    requires WellFormed(db)
    ensures WellFormed(db')
  {
    var db' := db.(processed := db.processed + {key});
    SameTables(db, db');
    db'
  }

  datatype Ingested = StreamApplied | Duplicate | Foreign | UnknownBotOrder | StreamConflict | StreamError

  function HandleEvent(db: Db, ev: StreamEvent, now: int): (res: (Db, Ingested))
    requires WellFormed(db)
    ensures WellFormed(res.0) && db.outbox <= res.0.outbox
  {
    var r := ev.report;
    if Locate(db, Some(r.clientOrderId), r.exchangeOrderId).None? then
      (db, if r.clientOrderId.BotOrder? then UnknownBotOrder else Foreign)
    else if ev.eventKey in db.processed then (db, Duplicate)
    else
      var (db1, outcome) := ApplyReport(MarkProcessed(db, ev.eventKey), r, now);
      if outcome.Conflict? then (ConflictRecorded(db, r.clientOrderId, r.status), StreamConflict)
      else if outcome.StoreError? then (db, StreamError)
      else if ev.fill.None? then (db1, StreamApplied)
      else (IngestFill(db1, ev.fill.value, now).0, StreamApplied)
  }

  // ------------------------------------------------------------------ positions and queries

  function FillsOf(fills: seq<Fill>, symbol: Symbol): (fs: seq<Fill>)
    decreases |fills|
  {
    if fills == [] then []
    else
      var last := fills[|fills| - 1];
      FillsOf(fills[..|fills| - 1], symbol) + (if last.symbol == symbol then [last] else [])
  }

  /** What is on record of one order. */
  function RecordedQty(fills: seq<Fill>, c: ClientOrderId): real
    decreases |fills|
  {
    if fills == [] then 0.0
    else
      var last := fills[|fills| - 1];
      RecordedQty(fills[..|fills| - 1], c) + (if last.order == c then last.qty else 0.0)
  }

  /** Behind everything that was executed no later: row ids break ties. */
  function InsertByTime(fs: seq<Fill>, f: Fill): (r: seq<Fill>)
    decreases |fs|
  {
    if fs == [] || fs[|fs| - 1].time <= f.time then fs + [f]
    else InsertByTime(fs[..|fs| - 1], f) + [fs[|fs| - 1]]
  }

  /** ORDER BY execution_time, id. */
  function ByTime(fs: seq<Fill>): (r: seq<Fill>)
    decreases |fs|
  {
    if fs == [] then [] else InsertByTime(ByTime(fs[..|fs| - 1]), fs[|fs| - 1])
  }

  function WithPosition(db: Db, p: PositionRow): (db': Db)
    requires WellFormed(db) && p.qty >= 0.0
    ensures WellFormed(db') && db'.outbox == db.outbox
  {
    var db' := db.(positions := db.positions[p.symbol := p]);
    SameTables(db, db');
    db'
  }

  function PositionRebuilt(db: Db, symbol: Symbol): (db': Db)
    requires WellFormed(db)
    ensures WellFormed(db')
  {
    WithPosition(db, Rebuilt(PositionOf(db, symbol), ByTime(FillsOf(db.fills, symbol))))
  }

  function PositionMarked(db: Db, symbol: Symbol, price: real): (db': Db)
    requires WellFormed(db)
    ensures WellFormed(db')
  {
    WithPosition(db, Marked(PositionOf(db, symbol), price))
  }

  function StopSet(db: Db, symbol: Symbol, price: real): (db': Db)
    requires WellFormed(db)
    ensures WellFormed(db')
  {
    WithPosition(db, PositionOf(db, symbol).(stop := Some(price)))
  }

  // ------------------------------------------------------------------ runs

  /** Everything a writer, of either process, commits in one transaction. */
  datatype Op =
    | Persist(intent: Intent)
    | TakeReport(report: Report)
    | Refuse(order: ClientOrderId, reason: string)
    | Flag(order: ClientOrderId)
    | TakeFill(fill: ExchangeFill)
    | TakeEvent(event: StreamEvent)
    | MarkPosition(symbol: Symbol, price: real)
    | SetStop(symbol: Symbol, price: real)
    | RebuildPosition(symbol: Symbol)

  datatype Step = Step(op: Op, now: int)

  function After(db: Db, s: Step): (db': Db)
    requires WellFormed(db)
    ensures WellFormed(db') && db.outbox <= db'.outbox
  {
    match s.op
    case Persist(i) => PersistIntent(db, i, s.now).0
    case TakeReport(r) =>
      var (db1, outcome) := ApplyReport(db, r, s.now);
      if outcome.Conflict? then ConflictRecorded(db1, outcome.order, r.status) else db1
    case Refuse(c, reason) => if c in db.orders then Reject(db, c, reason, s.now).0 else db
    case Flag(c) => if c in db.orders then FlagAmbiguous(db, c) else db
    case TakeFill(xf) => IngestFill(db, xf, s.now).0
    case TakeEvent(ev) => HandleEvent(db, ev, s.now).0
    case MarkPosition(symbol, price) => PositionMarked(db, symbol, price)
    case SetStop(symbol, price) => StopSet(db, symbol, price)
    case RebuildPosition(symbol) => PositionRebuilt(db, symbol)
  }

  function Run(db: Db, steps: seq<Step>): (db': Db)
    requires WellFormed(db)
    ensures WellFormed(db')
    decreases |steps|
  {
    if steps == [] then db else After(Run(db, steps[..|steps| - 1]), steps[|steps| - 1])
  }

  const EMPTY: Db := Db({}, map[], [], map[], [], map[], {}, [])
}
