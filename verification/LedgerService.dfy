/** The ledger and its writers as the engine runs them: tables updated in place under flat, re-entrant
    transactions, each operation proved to be the function of module Ledger. */
module LedgerService {
  import opened Common
  import opened OrderModel
  import opened PositionModel
  import opened Ledger
  import opened Submission

  datatype SaveResult = SaveOk | ChangedConcurrently | ExchangeIdTaken

  class Store {
    var intents: set<string>
    var orders: map<ClientOrderId, OrderRow>
    var created: seq<ClientOrderId>
    var byExchangeId: map<string, ClientOrderId>
    var fills: seq<Fill>
    var positions: map<Symbol, PositionRow>
    var processed: set<string>
    var outbox: seq<Message>
    var depth: nat
    var before: Db

    function Tables(): Db
      reads this
    {
      Db(intents, orders, created, byExchangeId, fills, positions, processed, outbox)
    }

    /** What another process, or a restart after a crash, finds. */
    function Committed(): Db
      reads this
    {
      if depth == 0 then Tables() else before
    }

    constructor ()
      ensures Tables() == EMPTY && depth == 0
    {
      intents, orders, created, byExchangeId, fills := {}, map[], [], map[], [];
      positions, processed, outbox, depth := map[], {}, [], 0;
      before := EMPTY;
    }

    method Begin()
      modifies this`depth, this`before
      ensures depth == old(depth) + 1
      ensures before == if old(depth) == 0 then Tables() else old(before)
      ensures Committed() == old(Committed())
    {
      if depth == 0 {
        before := Tables();
      }
      depth := depth + 1;
    }

    method Commit()
      requires depth > 0
      modifies this`depth
      ensures depth == old(depth) - 1
    {
      depth := depth - 1;
    }

    /** Only the outermost transaction rolls back: there are no savepoints. */
    method Rollback()
      requires depth > 0
      modifies this
      ensures depth == old(depth) - 1 && before == old(before)
      ensures Tables() == if depth == 0 then old(before) else old(Tables())
      ensures Committed() == old(Committed())
    {
      depth := depth - 1;
      if depth == 0 {
        intents, orders, byExchangeId, fills := before.intents, before.orders, before.byExchangeId, before.fills;
        created, positions, processed, outbox := before.created, before.positions, before.processed, before.outbox;
      }
    }

    method InsertIntentAndOrder(intent: string, o: Order) returns (inserted: bool)
      modifies this`intents, this`orders, this`created
      ensures inserted == (intent !in old(intents))
      ensures !inserted ==> Tables() == old(Tables())
      ensures inserted ==> Tables() == old(Tables()).(intents := old(intents) + {intent},
                             orders := old(orders)[o.clientOrderId := o.Row().(submittedAt := None)],
                             created := old(created) + [o.clientOrderId])
    {
      if intent in intents {
        return false;
      }
      intents := intents + {intent};
      orders := orders[o.clientOrderId := o.Row().(submittedAt := None)];
      created := created + [o.clientOrderId];
      return true;
    }

    /** Optimistic: the row must still carry the version the caller read. */
    method SaveOrder(o: Order) returns (r: SaveResult)
      modifies this`orders, this`byExchangeId, o`version
      ensures r == if o.clientOrderId !in old(orders) || old(orders)[o.clientOrderId].version != old(o.version)
                   then ChangedConcurrently
                   else if IdTaken(old(Tables()), old(o.Row())) then ExchangeIdTaken else SaveOk
      ensures r != SaveOk ==> Tables() == old(Tables()) && o.Row() == old(o.Row())
      ensures r == SaveOk ==> Tables() == Saved(old(Tables()), old(o.Row()))
                              && o.Row() == old(o.Row()).(version := old(o.version) + 1)
    {
      var c := o.clientOrderId;
      if c !in orders || orders[c].version != o.version {
        return ChangedConcurrently;
      }
      if o.exchangeOrderId.Some? && o.exchangeOrderId.value in byExchangeId && byExchangeId[o.exchangeOrderId.value] != c {
        return ExchangeIdTaken;
      }
      o.version := o.version + 1;
      orders := orders[c := o.Row()];
      if o.exchangeOrderId.Some? {
        byExchangeId := byExchangeId[o.exchangeOrderId.value := c];
      }
      return SaveOk;
    }

    method InsertFill(f: Fill) returns (inserted: bool)
      modifies this`fills
      ensures inserted == !Recorded(old(fills), f)
      ensures fills == if inserted then old(fills) + [f] else old(fills)
    {
      if exists g | g in fills :: SameExecution(f, g) {
        return false;
      }
      fills := fills + [f];
      return true;
    }

    method GetPosition(symbol: Symbol) returns (p: Position)
      ensures fresh(p) && p.Row() == PositionOf(Tables(), symbol)
    {
      p := new Position.FromRow(PositionOf(Tables(), symbol));
    }

    method SavePosition(p: Position)
      modifies this`positions
      ensures positions == old(positions)[p.symbol := p.Row()]
    {
      positions := positions[p.symbol := p.Row()];
    }

    method MarkEventProcessed(key: string) returns (first: bool)
      modifies this`processed
      ensures first == (key !in old(processed)) && processed == old(processed) + {key}
    {
      first := key !in processed;
      processed := processed + {key};
    }

    method Put(m: Message)
      modifies this`outbox
      ensures outbox == Enqueue(old(outbox), m)
    {
      if !(exists x | x in outbox :: x.key == m.key) {
        outbox := outbox + [m];
      }
    }
  }

  class OrderService {
    const store: Store

    constructor (store: Store)
      ensures this.store == store
    {
      this.store := store;
    }

    /** The step before the network call: intent, order in SUBMITTING and announcement, all or nothing. */
    method PersistIntent(i: Intent, now: int) returns (created: bool)
      requires WellFormed(store.Tables()) && store.depth == 0
      modifies store
      ensures store.depth == 0
      ensures (store.Tables(), created) == Ledger.PersistIntent(old(store.Tables()), i, now)
    {
      if i.id in store.intents {
        return false;
      }
      var order := new Order.FromRow(FreshRow(i, now).(status := IntentCreated, submittedAt := None));
      var _ := order.MarkSubmitting(now);
      ghost var db := store.Tables();
      store.Begin();
      created := store.InsertIntentAndOrder(i.id, order);
      assert store.Tables() == Inserted(db, i, now);
      var saved := store.SaveOrder(order);
      assert saved == SaveOk;
      store.Put(Message(OrderVersion(order.clientOrderId, order.version), OrderState(order.Row())));
      store.Commit();
    }

    method SaveAndAnnounce(order: Order) returns (saved: SaveResult)
      requires WellFormed(store.Tables()) && order.clientOrderId in store.orders
      requires order.version == store.orders[order.clientOrderId].version
      requires Replaces(store.Tables(), order.Row()) || IdTaken(store.Tables(), order.Row())
      modifies store, order
      ensures store.depth == old(store.depth) && store.before == old(store.before)
      ensures saved == if IdTaken(old(store.Tables()), old(order.Row())) then ExchangeIdTaken else SaveOk
      ensures store.Tables() == if saved == SaveOk then Updated(old(store.Tables()), old(order.Row()))
                                else old(store.Tables())
    {
      saved := store.SaveOrder(order);
      if saved == SaveOk {
        store.Put(Message(OrderVersion(order.clientOrderId, order.version), OrderState(order.Row())));
      }
    }

    method FindOrder(client: Option<ClientOrderId>, exchangeId: Option<string>) returns (order: Order?)
      requires WellFormed(store.Tables())
      ensures match Locate(store.Tables(), client, exchangeId)
              case None => order == null
              case Some(c) => order != null && fresh(order) && c in store.orders && order.Row() == store.orders[c]
    {
      order := null;
      if client.Some? && client.value in store.orders {
        order := new Order.FromRow(store.orders[client.value]);
      } else if Present(exchangeId) && exchangeId.value in store.byExchangeId {
        LocatedFits(store.Tables(), client, exchangeId);
        order := new Order.FromRow(store.orders[store.byExchangeId[exchangeId.value]]);
      }
    }

    /** Exchange data is applied to the row read inside the transaction. A conflict leaves the row alone
        and is recorded, by this method or, inside a transaction of the caller, by the caller. */
    method ApplyReport(r: Report, now: int) returns (outcome: ReportOutcome)
      requires WellFormed(store.Tables())
      modifies store
      ensures store.depth == old(store.depth) && (old(store.depth) > 0 ==> store.before == old(store.before))
      ensures WellFormed(store.Tables())
      ensures var (db, expected) := Ledger.ApplyReport(old(store.Tables()), r, now);
              && outcome == expected
              && store.Tables() == if outcome.Conflict? && old(store.depth) == 0
                                   then ConflictRecorded(db, outcome.order, r.status) else db
    {
      ghost var db := store.Tables();
      store.Begin();
      var order := FindOrder(Some(r.clientOrderId), r.exchangeOrderId);
      if order == null {
        store.Commit();
        return NoOrder;
      }
      LocatedFits(db, Some(r.clientOrderId), r.exchangeOrderId);
      outcome := Taken(order.clientOrderId);
      var verdict := order.ApplyReport(r, now);
      if verdict == IllegalTransition {
        outcome := Conflict(order.clientOrderId);
      } else if verdict.changed {
        var saved := SaveAndAnnounce(order);
        if saved != SaveOk {
          store.Rollback();
          return StoreError;
        }
      }
      store.Commit();
      if outcome.Conflict? && store.depth == 0 {
        store.Put(Message(ConflictEvent(outcome.order, r.status), Notice));
        assert store.Tables() == ConflictRecorded(db, outcome.order, r.status);
      }
    }

    method Reject(c: ClientOrderId, reason: string, now: int) returns (v: Verdict)
      requires WellFormed(store.Tables()) && store.depth == 0 && c in store.orders
      modifies store
      ensures store.depth == 0
      ensures (store.Tables(), v) == Ledger.Reject(old(store.Tables()), c, reason, now)
    {
      assert RowFits(store.Tables(), c);
      store.Begin();
      var order := new Order.FromRow(store.orders[c]);
      v := order.MarkRejected(reason, now);
      if v == IllegalTransition {
        store.Rollback();
        return;
      }
      if v.changed {
        var saved := SaveAndAnnounce(order);
        assert saved == SaveOk;
      }
      store.Commit();
    }

    method FlagAmbiguous(c: ClientOrderId)
      requires WellFormed(store.Tables()) && store.depth == 0 && c in store.orders
      modifies store
      ensures store.depth == 0
      ensures store.Tables() == Ledger.FlagAmbiguous(old(store.Tables()), c)
    {
      assert RowFits(store.Tables(), c);
      store.Begin();
      var order := new Order.FromRow(store.orders[c]);
      order.ambiguous := true;
      var saved := SaveAndAnnounce(order);
      assert saved == SaveOk;
      store.Put(Message(AmbiguousEvent(c), Notice));
      store.Commit();
    }

    /** One execution, its row, the position and their announcements: all of it, or, for a duplicate,
        none of it. */
    method IngestFill(xf: ExchangeFill, now: int) returns (recorded: bool)
      requires WellFormed(store.Tables())
      modifies store
      ensures store.depth == old(store.depth) && (old(store.depth) > 0 ==> store.before == old(store.before))
      ensures (store.Tables(), recorded) == Ledger.IngestFill(old(store.Tables()), xf, now)
    {
      hide FillRecorded;
      ghost var db := store.Tables();
      store.Begin();
      var order := FindOrder(xf.clientOrderId, xf.exchangeOrderId);
      if order == null {
        store.Commit();
        return false;
      }
      LocatedFits(db, xf.clientOrderId, xf.exchangeOrderId);
      var f := FillOf(order.Row(), xf, now);
      recorded := store.InsertFill(f);
      if recorded {
        UpdatePosition(db, f);
      }
      store.Commit();
    }

    method UpdatePosition(ghost db: Db, f: Fill)
      requires WellFormed(db) && store.Tables() == db.(fills := db.fills + [f])
      modifies store`positions, store`outbox
      ensures store.Tables() == FillRecorded(db, f)
    {
      hide Apply, AnomaliesOf;
      var p := store.GetPosition(f.symbol);
      var _, anomalies := p.ApplyFill(f);
      store.SavePosition(p);
      store.Put(Message(FillKey(f.eventKey), FillState(f)));
      store.Put(Message(PositionAfterFill(f.symbol, f.eventKey), PositionState(p.Row())));
      if anomalies != [] {
        store.Put(Message(AnomalyEvent(f.eventKey), Notice));
      }
    }

    // ---------------------------------------------------------------- calls that reach the exchange

    /** Outside any transaction, a conflict is recorded before it is raised. */
    method TakeReport(r: Report, now: int) returns (ended: Ended)
      requires WellFormed(store.Tables()) && store.depth == 0
      modifies store
      ensures store.depth == 0
      ensures (store.Tables(), ended) == ReportTaken(old(store.Tables()), r, now)
    {
      var outcome := ApplyReport(r, now);
      ended := if outcome.Conflict? then RaisedConflict else if outcome.StoreError? then RaisedError else Returned;
    }

    method IngestFills(xfs: seq<ExchangeFill>, now: int)
      requires WellFormed(store.Tables()) && store.depth == 0
      modifies store
      ensures store.depth == 0
      ensures store.Tables() == IngestAll(old(store.Tables()), xfs, now)
    {
      ghost var db := store.Tables();
      for i := 0 to |xfs|
        invariant store.depth == 0 && store.Tables() == IngestAll(db, xfs[..i], now)
      {
        assert xfs[..i + 1][..i] == xfs[..i];
        var _ := IngestFill(xfs[i], now);
      }
      assert xfs[..|xfs|] == xfs;
    }

    method IngestOrderFills(c: ClientOrderId, fills: Reach<seq<ExchangeFill>>, now: int) returns (ended: Ended)
      requires WellFormed(store.Tables()) && store.depth == 0
      modifies store
      ensures store.depth == 0
      ensures (store.Tables(), ended) == OrderFillsIngested(old(store.Tables()), c, fills, now)
    {
      if c !in store.orders || store.orders[c].exchangeOrderId.None? {
        return Returned;
      }
      if fills.Unreachable? {
        return RaisedError;
      }
      IngestFills(fills.value, now);
      return Returned;
    }

    method Refresh(c: ClientOrderId, answer: Reach<Option<Report>>, fills: Reach<seq<ExchangeFill>>, now: int)
      returns (ended: Ended)
      requires WellFormed(store.Tables()) && store.depth == 0
      modifies store
      ensures store.depth == 0
      ensures (store.Tables(), ended) == Refreshed(old(store.Tables()), c, answer, fills, now)
    {
      if answer.Unreachable? {
        return RaisedError;
      }
      if answer.value.Some? {
        ended := TakeReport(answer.value.value, now);
        if !ended.Returned? {
          return;
        }
      }
      ended := IngestOrderFills(c, fills, now);
    }

    method Cancel(c: ClientOrderId, acknowledged: Option<Report>, answer: Reach<Option<Report>>,
                  fills: Reach<seq<ExchangeFill>>, now: int)
      returns (ended: Ended)
      requires WellFormed(store.Tables()) && store.depth == 0
      modifies store
      ensures store.depth == 0
      ensures (store.Tables(), ended) == Cancelled(old(store.Tables()), c, acknowledged, answer, fills, now)
    {
      if acknowledged.Some? {
        ended := TakeReport(acknowledged.value, now);
        if !ended.Returned? {
          return;
        }
      }
      ended := Refresh(c, answer, fills, now);
      if ended.RaisedError? {
        ended := Returned;
      }
    }

    method ResolveAmbiguous(o: OrderRow, answer: Reach<Option<Report>>, fills: Reach<seq<ExchangeFill>>,
                            now: int, grace: nat)
      returns (resolution: Resolution)
      requires WellFormed(store.Tables()) && store.depth == 0 && o.clientOrderId in store.orders
      modifies store
      ensures store.depth == 0
      ensures (store.Tables(), resolution) == Resolve(old(store.Tables()), o, answer, fills, now, grace)
    {
      if Terminal(o.status) {
        return Resolved;
      }
      if answer.Unreachable? {
        return Pending;
      }
      if answer.value.Some? {
        var ended := TakeReport(answer.value.value, now);
        if ended.Returned? {
          ended := IngestOrderFills(o.clientOrderId, fills, now);
        }
        return if ended.Returned? then Resolved else Failed(ended);
      }
      var age := if o.submittedAt.Some? then now - o.submittedAt.value else 0;
      if age < grace {
        return Pending;
      }
      var v := Reject(o.clientOrderId, NotFoundAfter(age), now);
      return if v == IllegalTransition then Failed(RaisedError) else Resolved;
    }

    /** `sent` tells whether the network call was made: only ever after the order was committed. */
    method SubmitIntent(i: Intent, now: int, outcome: Outcome, answer: Reach<Option<Report>>,
                        fills: Reach<seq<ExchangeFill>>, later: int, grace: nat)
      returns (ended: Ended, sent: bool)
      requires WellFormed(store.Tables()) && store.depth == 0
      modifies store
      ensures store.depth == 0
      ensures (store.Tables(), ended, sent) == Submitted(old(store.Tables()), i, now, outcome, answer, fills, later, grace)
    {
      sent := PersistIntent(i, now);
      if !sent {
        return Returned, false;
      }
      ended := Conclude(BotOrder(i.id), outcome, answer, fills, later, grace);
    }

    method Conclude(c: ClientOrderId, outcome: Outcome, answer: Reach<Option<Report>>,
                    fills: Reach<seq<ExchangeFill>>, now: int, grace: nat)
      returns (ended: Ended)
      requires WellFormed(store.Tables()) && store.depth == 0 && c in store.orders
      modifies store
      ensures store.depth == 0
      ensures (store.Tables(), ended) == Concluded(old(store.Tables()), c, outcome, answer, fills, now, grace)
    {
      match outcome {
        case Acknowledged(r, xfs) =>
          ended := TakeReport(r, now);
          if ended.Returned? {
            IngestFills(xfs, now);
          }
        case Refused(reason) =>
          var v := Reject(c, reason, now);
          ended := if v == IllegalTransition then RaisedError else Returned;
        case Ambiguous =>
          FlagAmbiguous(c);
          assert RowFits(store.Tables(), c);
          var resolution := ResolveAmbiguous(store.orders[c], answer, fills, now, grace);
          ended := if resolution.Failed? then resolution.ended else Returned;
      }
    }
  }

  class PositionService {
    const store: Store

    constructor (store: Store)
      ensures this.store == store
    {
      this.store := store;
    }

    method RebuildPosition(symbol: Symbol) returns (rebuilt: PositionRow, anomalies: seq<Anomaly>)
      requires WellFormed(store.Tables())
      modifies store`positions
      ensures store.Tables() == PositionRebuilt(old(store.Tables()), symbol)
      ensures rebuilt == PositionOf(store.Tables(), symbol)
      ensures anomalies == RebuildAnomalies(PositionOf(old(store.Tables()), symbol), ByTime(FillsOf(store.fills, symbol)))
    {
      var existing := PositionOf(store.Tables(), symbol);
      rebuilt, anomalies := Rebuild(existing, ByTime(FillsOf(store.fills, symbol)));
      store.positions := store.positions[symbol := rebuilt];
    }

    method Mark(symbol: Symbol, price: real)
      requires WellFormed(store.Tables()) && store.depth == 0
      modifies store
      ensures store.depth == 0 && store.Tables() == PositionMarked(old(store.Tables()), symbol, price)
    {
      store.Begin();
      var p := store.GetPosition(symbol);
      p.Mark(price);
      store.SavePosition(p);
      store.Commit();
    }

    method SetStop(symbol: Symbol, price: real)
      requires WellFormed(store.Tables()) && store.depth == 0
      modifies store
      ensures store.depth == 0 && store.Tables() == StopSet(old(store.Tables()), symbol, price)
    {
      store.Begin();
      var p := store.GetPosition(symbol);
      p.stop := Some(price);
      store.SavePosition(p);
      store.Commit();
    }
  }

  class StreamIngestionService {
    const store: Store
    const orders: OrderService

    constructor (orders: OrderService)
      ensures this.orders == orders && store == orders.store
    {
      this.orders := orders;
      this.store := orders.store;
    }

    /** The event's mark, its report and its fill are one transaction; a conflict undoes the mark, so
        the event is not lost as a duplicate later. */
    method Handle(ev: StreamEvent, now: int) returns (result: Ingested)
      requires store == orders.store && WellFormed(store.Tables()) && store.depth == 0
      modifies store
      ensures store.depth == 0
      ensures (store.Tables(), result) == HandleEvent(old(store.Tables()), ev, now)
    {
      hide Ledger.ApplyReport, Ledger.IngestFill;
      ghost var db := store.Tables();
      var r := ev.report;
      var local := orders.FindOrder(Some(r.clientOrderId), r.exchangeOrderId);
      if local == null {
        return if r.clientOrderId.BotOrder? then UnknownBotOrder else Foreign;
      }
      store.Begin();
      var first := store.MarkEventProcessed(ev.eventKey);
      if !first {
        assert store.Tables() == db;
        store.Commit();
        return Duplicate;
      }
      assert store.Tables() == MarkProcessed(db, ev.eventKey);
      var outcome := orders.ApplyReport(r, now);
      if outcome.Conflict? {
        store.Rollback();
        store.Put(Message(ConflictEvent(r.clientOrderId, r.status), Notice));
        return StreamConflict;
      }
      if outcome.StoreError? {
        store.Rollback();
        return StreamError;
      }
      if ev.fill.Some? {
        var _ := orders.IngestFill(ev.fill.value, now);
      }
      store.Commit();
      return StreamApplied;
    }
  }
}
