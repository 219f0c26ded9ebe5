/** When a cancel returns an order that has ended with all its executions on record
    (engine/application/order_service.py). */
module CancelLaws {
  import opened Common
  import opened OrderModel
  import opened PositionModel
  import opened Ledger
  import opened Submission

  // ------------------------------------------------------------------ what the answers say about the row

  function StatusBy(status: Status, r: Option<Report>): Status {
    if r.Some? && Advances(status, r.value.status) then r.value.status else status
  }

  function ExecutedBy(executed: real, r: Option<Report>): real {
    if r.Some? then Max(executed, r.value.executedQty) else executed
  }

  function IdBy(id: Option<string>, r: Option<Report>): Option<string> {
    if r.Some? && Present(r.value.exchangeOrderId) && !Present(id) then r.value.exchangeOrderId else id
  }

  function Known(o: OrderRow, r: Option<Report>, now: int): OrderRow {
    if r.Some? then Merge(o, r.value, now).row else o
  }

  /** The report is about this order, under no id of another one. */
  ghost predicate About(db: Db, c: ClientOrderId, r: Option<Report>) {
    r.Some? ==>
      && r.value.clientOrderId == c
      && (Present(r.value.exchangeOrderId) && r.value.exchangeOrderId.value in db.byExchangeId ==>
            db.byExchangeId[r.value.exchangeOrderId.value] == c)
  }

  /** Equal but for the version. */
  predicate SameRow(a: OrderRow, b: OrderRow) {
    b == a.(version := b.version)
  }

  lemma KnownRow(o: OrderRow, r: Report, now: int)
    requires !Contradicts(o, r.status)
    ensures Merge(o, r, now).Merged?
    ensures var o' := Known(o, Some(r), now);
            && o'.status == StatusBy(o.status, Some(r)) && o'.executed == ExecutedBy(o.executed, Some(r))
            && o'.exchangeOrderId == IdBy(o.exchangeOrderId, Some(r)) && o'.clientOrderId == o.clientOrderId
  {
  }

  lemma SameMerge(a: OrderRow, b: OrderRow, r: Report, now: int)
    requires SameRow(a, b)
    ensures SameRow(Merge(a, r, now).row, Merge(b, r, now).row) && Merge(a, r, now).Merged? == Merge(b, r, now).Merged?
  {
    hide Advances, NewerTime, Terminal, NotFoundReason, Max, Present;
  }

  lemma ReportLands(db: Db, c: ClientOrderId, r: Report, now: int)
    requires WellFormed(db) && c in db.orders && About(db, c, Some(r))
    ensures var (db', ended) := ReportTaken(db, r, now);
            && c in db'.orders && db'.fills == db.fills
            && (if Contradicts(db.orders[c], r.status) then ended.RaisedConflict?
                else ended.Returned? && SameRow(Known(db.orders[c], Some(r), now), db'.orders[c]))
            && (forall q | About(db, c, Some(q)) :: About(db', c, Some(q)))
  {
    assert RowFits(db, c);
    var m := Merge(db.orders[c], r, now);
    if m.Merged? && m.changed {
      assert !IdTaken(db, m.row);
      assert Updated(db, m.row).orders[c] == m.row.(version := m.row.version + 1);
    }
  }

  // ------------------------------------------------------------------ what the trade query adds

  /** The fills table after the executions of one order are ingested, one by one. */
  function Extended(fills: seq<Fill>, o: OrderRow, xfs: seq<ExchangeFill>, now: int): seq<Fill>
    decreases |xfs|
  {
    if xfs == [] then fills
    else
      var rest := Extended(fills, o, xfs[..|xfs| - 1], now);
      var f := FillOf(o, xfs[|xfs| - 1], now);
      if Recorded(rest, f) then rest else rest + [f]
  }

  /** The quantity of the executions in the answer that are not on record. */
  function FreshQty(fills: seq<Fill>, o: OrderRow, xfs: seq<ExchangeFill>, now: int): real
    decreases |xfs|
  {
    if xfs == [] then 0.0
    else
      var rest, last := xfs[..|xfs| - 1], xfs[|xfs| - 1];
      FreshQty(fills, o, rest, now) + (if Recorded(Extended(fills, o, rest, now), FillOf(o, last, now)) then 0.0 else last.qty)
  }

  lemma {:induction false} FreshIsRecorded(fills: seq<Fill>, o: OrderRow, xfs: seq<ExchangeFill>, now: int)
    ensures RecordedQty(Extended(fills, o, xfs, now), o.clientOrderId)
         == RecordedQty(fills, o.clientOrderId) + FreshQty(fills, o, xfs, now)
    decreases |xfs|
  {
    if xfs != [] {
      var rest := Extended(fills, o, xfs[..|xfs| - 1], now);
      var f := FillOf(o, xfs[|xfs| - 1], now);
      FreshIsRecorded(fills, o, xfs[..|xfs| - 1], now);
      assert (rest + [f])[..|rest + [f]| - 1] == rest;
    }
  }

  lemma {:induction false} IngestExtends(db: Db, c: ClientOrderId, xfs: seq<ExchangeFill>, now: int)
    requires WellFormed(db) && c in db.orders && forall xf | xf in xfs :: xf.clientOrderId == Some(c)
    ensures IngestAll(db, xfs, now).fills == Extended(db.fills, db.orders[c], xfs, now)
    decreases |xfs|
  {
    if xfs != [] {
      assert xfs[|xfs| - 1] in xfs && forall xf | xf in xfs[..|xfs| - 1] :: xf in xfs;
      IngestExtends(db, c, xfs[..|xfs| - 1], now);
      OneMore(IngestAll(db, xfs[..|xfs| - 1], now), c, xfs[|xfs| - 1], now);
    }
  }

  lemma OneMore(db: Db, c: ClientOrderId, xf: ExchangeFill, now: int)
    requires WellFormed(db) && c in db.orders && xf.clientOrderId == Some(c)
    ensures var f := FillOf(db.orders[c], xf, now);
            IngestFill(db, xf, now).0.fills == if Recorded(db.fills, f) then db.fills else db.fills + [f]
  {
    LocatedFits(db, xf.clientOrderId, xf.exchangeOrderId);
  }

  /** A fill names its order by the id, the instrument and the side, which no report changes. */
  lemma {:induction false} SameExtension(fills: seq<Fill>, a: OrderRow, b: OrderRow, xfs: seq<ExchangeFill>, now: int)
    requires b.clientOrderId == a.clientOrderId && b.symbol == a.symbol && b.side == a.side
    ensures Extended(fills, a, xfs, now) == Extended(fills, b, xfs, now) && FreshQty(fills, a, xfs, now) == FreshQty(fills, b, xfs, now)
    decreases |xfs|
  {
    if xfs != [] {
      SameExtension(fills, a, b, xfs[..|xfs| - 1], now);
    }
  }

  // ------------------------------------------------------------------ the refresh

  lemma SameNaming(o: OrderRow, r: Option<Report>, now: int)
    ensures var o' := Known(o, r, now); o'.clientOrderId == o.clientOrderId && o'.symbol == o.symbol && o'.side == o.side
  {
  }

  /** The trades are asked for and answered. */
  predicate TradesReached(o: OrderRow, answer: Reach<Option<Report>>, fills: Reach<seq<ExchangeFill>>) {
    answer.Answered? && fills.Answered? && IdBy(o.exchangeOrderId, answer.value).Some?
  }

  function Told(answer: Reach<Option<Report>>): Option<Report> {
    if answer.Answered? then answer.value else None
  }

  function AddedBy(db: Db, o: OrderRow, answer: Reach<Option<Report>>, fills: Reach<seq<ExchangeFill>>, now: int): real {
    if TradesReached(o, answer, fills) then FreshQty(db.fills, o, fills.value, now) else 0.0
  }

  ghost predicate OwnTrades(c: ClientOrderId, fills: Reach<seq<ExchangeFill>>) {
    fills.Answered? ==> forall xf | xf in fills.value :: xf.clientOrderId == Some(c)
  }

  lemma TradesLand(db: Db, c: ClientOrderId, fills: Reach<seq<ExchangeFill>>, now: int)
    requires WellFormed(db) && c in db.orders && RowFits(db, c) && OwnTrades(c, fills)
    ensures var (db', ended) := OrderFillsIngested(db, c, fills, now);
            && db'.orders == db.orders && !ended.RaisedConflict?
            && RecordedQty(db'.fills, c) == RecordedQty(db.fills, c)
                 + (if db.orders[c].exchangeOrderId.Some? && fills.Answered? then FreshQty(db.fills, db.orders[c], fills.value, now) else 0.0)
  {
    if db.orders[c].exchangeOrderId.Some? && fills.Answered? {
      IngestExtends(db, c, fills.value, now);
      FreshIsRecorded(db.fills, db.orders[c], fills.value, now);
    }
  }

  /** What a refresh, its errors swallowed, leaves of an order. */
  lemma RefreshLands(db: Db, c: ClientOrderId, answer: Reach<Option<Report>>, fills: Reach<seq<ExchangeFill>>, now: int)
    requires WellFormed(db) && c in db.orders && About(db, c, Told(answer)) && OwnTrades(c, fills)
    ensures var (db', ended) := Refreshed(db, c, answer, fills, now);
            var o := db.orders[c];
            && c in db'.orders
            && (ended.RaisedConflict? <==> Told(answer).Some? && Contradicts(o, Told(answer).value.status))
            && (!ended.RaisedConflict? ==>
                  && SameRow(Known(o, Told(answer), now), db'.orders[c])
                  && RecordedQty(db'.fills, c) == RecordedQty(db.fills, c) + AddedBy(db, o, answer, fills, now))
  {
    assert RowFits(db, c);
    if answer.Answered? && answer.value.Some? {
      var r := answer.value.value;
      ReportLands(db, c, r, now);
      if !Contradicts(db.orders[c], r.status) {
        KnownRow(db.orders[c], r, now);
        var db1 := ReportTaken(db, r, now).0;
        assert RowFits(db1, c);
        TradesLand(db1, c, fills, now);
        SameNaming(db.orders[c], Some(r), now);
        if fills.Answered? {
          SameExtension(db.fills, db1.orders[c], db.orders[c], fills.value, now);
        }
      }
    } else if answer.Answered? {
      TradesLand(db, c, fills, now);
    }
  }

  // ------------------------------------------------------------------ the cancel

  lemma AcknowledgementLands(db: Db, c: ClientOrderId, acknowledged: Option<Report>, now: int)
    requires WellFormed(db) && c in db.orders && !Terminal(db.orders[c].status) && About(db, c, acknowledged)
    ensures var (db1, ended) := if acknowledged.Some? then ReportTaken(db, acknowledged.value, now) else (db, Returned);
            && ended.Returned? && c in db1.orders && db1.fills == db.fills && WellFormed(db1)
            && SameRow(Known(db.orders[c], acknowledged, now), db1.orders[c])
            && (forall q | About(db, c, Some(q)) :: About(db1, c, Some(q)))
  {
    if acknowledged.Some? {
      ReportLands(db, c, acknowledged.value, now);
    }
  }

  /** A live order comes back from a cancel ended, and with all its executions on record, exactly when one of the
      answers ended it, they do not contradict each other, and what was on record and what the trade query
      brought, if it was reached, make up the largest executed quantity any of them named. */
  lemma CancelSettlesExactly(db: Db, c: ClientOrderId, acknowledged: Option<Report>, answer: Reach<Option<Report>>,
                             fills: Reach<seq<ExchangeFill>>, now: int)
    requires WellFormed(db) && c in db.orders && !Terminal(db.orders[c].status)
    requires About(db, c, acknowledged) && About(db, c, Told(answer)) && OwnTrades(c, fills)
    ensures var (db', ended) := Cancelled(db, c, acknowledged, answer, fills, now);
            var o := db.orders[c];
            var o1 := Known(o, acknowledged, now);
            && c in db'.orders
            && (ended.Returned? && Terminal(db'.orders[c].status) && RecordedQty(db'.fills, c) == db'.orders[c].executed
                <==>
                && !(Told(answer).Some? && Contradicts(o1, Told(answer).value.status))
                && Terminal(StatusBy(StatusBy(o.status, acknowledged), Told(answer)))
                && RecordedQty(db.fills, c) + AddedBy(db, o1, answer, fills, now)
                     == ExecutedBy(ExecutedBy(o.executed, acknowledged), Told(answer)))
  {
    hide ReportTaken, Refreshed, Merge, FreshQty, RecordedQty;
    AcknowledgementLands(db, c, acknowledged, now);
    var o := db.orders[c];
    var o1 := Known(o, acknowledged, now);
    var db1 := if acknowledged.Some? then ReportTaken(db, acknowledged.value, now).0 else db;
    if acknowledged.Some? {
      KnownRow(o, acknowledged.value, now);
    }
    RefreshLands(db1, c, answer, fills, now);
    AddedSame(db, db1, o1, db1.orders[c], answer, fills, now);
    if Told(answer).Some? && !Contradicts(o1, Told(answer).value.status) {
      KnownRow(o1, Told(answer).value, now);
      SameMerge(o1, db1.orders[c], Told(answer).value, now);
    }
  }

  lemma AddedSame(db: Db, db1: Db, a: OrderRow, b: OrderRow, answer: Reach<Option<Report>>,
        fills: Reach<seq<ExchangeFill>>, now: int)
    requires db1.fills == db.fills && SameRow(a, b)
    ensures AddedBy(db, a, answer, fills, now) == AddedBy(db1, b, answer, fills, now)
  {
    if fills.Answered? {
      SameExtension(db.fills, a, b, fills.value, now);
    }
  }

  /** When the exchange cannot be reached again, the executions that the acknowledgement names are missing. */
  lemma CancelLeavesUnrecorded(db: Db, c: ClientOrderId, r: Report, fills: Reach<seq<ExchangeFill>>, now: int)
    requires WellFormed(db) && c in db.orders && db.orders[c].status in {New, PartiallyFilled}
    requires About(db, c, Some(r)) && r.status == Canceled && OwnTrades(c, fills)
    requires RecordedQty(db.fills, c) < Max(db.orders[c].executed, r.executedQty)
    ensures var (db', ended) := Cancelled(db, c, Some(r), Unreachable, fills, now);
            && db' == ReportTaken(db, r, now).0
            && ended.Returned? && c in db'.orders && Terminal(db'.orders[c].status) && db'.fills == db.fills
            && RecordedQty(db'.fills, c) < db'.orders[c].executed
  {
    ReportLands(db, c, r, now);
    KnownRow(db.orders[c], r, now);
  }
}
