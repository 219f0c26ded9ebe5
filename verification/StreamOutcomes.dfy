/** How a report and an event of the stream end, and what each end does to the tables
    (engine/application/order_service.py, engine/application/stream_ingestion.py). */
module StreamOutcomes {
  import opened Common
  import opened OrderModel
  import OrderLaws
  import opened Ledger

  /** By its client order id, or else by its exchange id. */
  ghost predicate Concerns(db: Db, r: Report, c: ClientOrderId) {
    if r.clientOrderId in db.orders then c == r.clientOrderId
    else Present(r.exchangeOrderId) && r.exchangeOrderId.value in db.byExchangeId && c == db.byExchangeId[r.exchangeOrderId.value]
  }

  /** Nobody's order. */
  ghost predicate Stranger(db: Db, r: Report) {
    r.clientOrderId !in db.orders && !(Present(r.exchangeOrderId) && r.exchangeOrderId.value in db.byExchangeId)
  }

  /** The report would give the order an exchange id that another order has. */
  ghost predicate Clashes(db: Db, c: ClientOrderId, r: Report) {
    c in db.orders && !Present(db.orders[c].exchangeOrderId) && Present(r.exchangeOrderId)
      && r.exchangeOrderId.value in db.byExchangeId && db.byExchangeId[r.exchangeOrderId.value] != c
  }

  lemma ClashExactly(db: Db, c: ClientOrderId, r: Report, now: int)
    requires WellFormed(db) && c in db.orders && RowFits(db, c) && Merge(db.orders[c], r, now).Merged?
    ensures IdTaken(db, Merge(db.orders[c], r, now).row) <==> Clashes(db, c, r)
  {
  }

  /** A report of a stranger is ignored; one that contradicts its order is a conflict; one with nothing new changes
      nothing; one that claims another order's exchange id fails; any other replaces one row by its merge, under the next
      version, and announces it. No other row is touched. */
  lemma ReportEndsExactly(db: Db, r: Report, c: ClientOrderId, now: int)
    requires WellFormed(db) && (Stranger(db, r) || Concerns(db, r, c))
    ensures Stranger(db, r) || c in db.orders
    ensures var (db', outcome) := ApplyReport(db, r, now);
            if Stranger(db, r) then outcome == NoOrder && db' == db
            else if Contradicts(db.orders[c], r.status) then outcome == ReportOutcome.Conflict(c) && db' == db
            else if OrderLaws.Absorbs(db.orders[c], r) then outcome == Taken(c) && db' == db
            else if Clashes(db, c, r) then outcome == StoreError && db' == db
            else
              && outcome == Taken(c) && Merge(db.orders[c], r, now).Merged?
              && var row := Merge(db.orders[c], r, now).row;
                 var row' := row.(version := db.orders[c].version + 1);
                 && db'.orders == db.orders[c := row']
                 && db'.byExchangeId == (if Present(row.exchangeOrderId) then db.byExchangeId[row.exchangeOrderId.value := c] else db.byExchangeId)
                 && db' == db.(orders := db'.orders, byExchangeId := db'.byExchangeId, outbox := db'.outbox)
                 && Queued(db'.outbox, OrderVersion(c, row'.version))
                 && (!Queued(db.outbox, OrderVersion(c, row'.version)) ==>
                       db'.outbox == db.outbox + [Message(OrderVersion(c, row'.version), OrderState(row'))])
  {
    if !Stranger(db, r) {
      LocatedFits(db, Some(r.clientOrderId), r.exchangeOrderId);
      OrderLaws.AbsorbedExactly(db.orders[c], r, now);
      if Merge(db.orders[c], r, now).Merged? {
        ClashExactly(db, c, r, now);
        MergedIdIsPresent(db, c, r, now);
      }
      hide Merge, WellFormed, OrderLaws.Absorbs, Contradicts, IdTaken, Clashes;
    }
  }

  lemma MergedIdIsPresent(db: Db, c: ClientOrderId, r: Report, now: int)
    requires WellFormed(db) && c in db.orders && RowFits(db, c) && Merge(db.orders[c], r, now).Merged?
    ensures var row := Merge(db.orders[c], r, now).row;
            && (row.exchangeOrderId.Some? <==> Present(row.exchangeOrderId)) && row.clientOrderId == c
            && row.version == db.orders[c].version
  {
  }

  /** An event of a stranger, one that was processed before, one whose report conflicts and one that fails leave every
      table as it is, but for the notice of a conflict; any other is marked, its report taken and its execution recorded. */
  lemma EventEndsExactly(db: Db, ev: StreamEvent, c: ClientOrderId, now: int)
    requires WellFormed(db) && (Stranger(db, ev.report) || Concerns(db, ev.report, c))
    ensures Stranger(db, ev.report) || c in db.orders
    ensures var (db', result) := HandleEvent(db, ev, now);
            var r := ev.report;
            if Stranger(db, r) then db' == db && result == (if r.clientOrderId.BotOrder? then UnknownBotOrder else Foreign)
            else if ev.eventKey in db.processed then db' == db && result == Duplicate
            else if Contradicts(db.orders[c], r.status) then
              && result == StreamConflict && db' == db.(outbox := db'.outbox)
              && Queued(db'.outbox, ConflictEvent(r.clientOrderId, r.status))
            else if !OrderLaws.Absorbs(db.orders[c], r) && Clashes(db, c, r) then db' == db && result == StreamError
            else
              && result == StreamApplied && db'.processed == db.processed + {ev.eventKey}
              && db'.orders == ApplyReport(db, r, now).0.orders
              && db'.byExchangeId == ApplyReport(db, r, now).0.byExchangeId
              && (ev.fill.None? ==> db'.fills == db.fills && db'.positions == db.positions)
  {
    var r := ev.report;
    if !Stranger(db, r) {
      ReportEndsExactly(db, r, c, now);
      if ev.eventKey !in db.processed {
        MarkChangesNothingElse(db, ev.eventKey, r, c, now);
      }
    }
    hide ApplyReport, IngestFill, WellFormed, Contradicts, Clashes, OrderLaws.Absorbs;
  }

  lemma MarkChangesNothingElse(db: Db, key: string, r: Report, c: ClientOrderId, now: int)
    requires WellFormed(db) && Concerns(db, r, c)
    ensures var (a, b) := (ApplyReport(db, r, now), ApplyReport(MarkProcessed(db, key), r, now));
            && a.1 == b.1 && b.0.orders == a.0.orders && b.0.byExchangeId == a.0.byExchangeId
            && b.0.processed == db.processed + {key} && b.0.fills == db.fills && b.0.positions == db.positions
  {
    ReportEndsExactly(db, r, c, now);
    ReportEndsExactly(MarkProcessed(db, key), r, c, now);
    hide ApplyReport, WellFormed, Contradicts, Merge, OrderLaws.Absorbs;
  }
}
