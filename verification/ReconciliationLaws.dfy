/** How a reconciliation run moves the ledger: what it has once taken from the exchange stays taken. */
module ReconciliationLaws {
  import opened Common
  import opened OrderModel
  import OrderLaws
  import opened Ledger
  import opened Submission
  import opened Reconciliation

  // ------------------------------------------------------------------ an exchange that answers consistently

  /** Every answer is about the order that was asked for; the order of a listed trade is found by its exchange id
      as well; and the trades of an order come with its client order id, those of the account without one. */
  ghost predicate AnswersAgree(v: View) {
    && (forall c, r: Report {:trigger AnswersOrder(v, c, r)} | AnswersOrder(v, c, r) :: OneAnswer(v, c, r))
    && (forall x, r: Report {:trigger AnswersId(v, x, r)} | AnswersId(v, x, r) ::
          r.exchangeOrderId == Some(x) && Query(v, r.clientOrderId) == Answered(Some(r)))
    && (forall c | c in v.fills && v.fills[c].Answered? :: forall xf | xf in v.fills[c].value :: xf.clientOrderId == Some(c))
    && (v.trades.Answered? ==> forall xf | xf in v.trades.value :: xf.clientOrderId.None?)
  }

  predicate AnswersOrder(v: View, c: ClientOrderId, r: Report) {
    Query(v, c) == Answered(Some(r))
  }

  predicate AnswersId(v: View, x: string, r: Report) {
    QueryByExchangeId(v, Some(x)) == Answered(Some(r))
  }

  predicate TradedAs(v: View, x: string) {
    v.trades.Answered? && exists xf | xf in v.trades.value :: xf.exchangeOrderId == Some(x)
  }

  predicate OneAnswer(v: View, c: ClientOrderId, r: Report) {
    && r.clientOrderId == c
    && (Present(r.exchangeOrderId) && TradedAs(v, r.exchangeOrderId.value) ==> AnswersId(v, r.exchangeOrderId.value, r))
  }

  // ------------------------------------------------------------------ growth

  /** The exchange's report of an order has no effect any more: nothing to learn, or a conflict on record. */
  ghost predicate Settled(db: Db, r: Report) {
    && r.clientOrderId in db.orders
    && (OrderLaws.Absorbs(db.orders[r.clientOrderId], r)
        || (Contradicts(db.orders[r.clientOrderId], r.status)
            && Queued(db.outbox, ConflictEvent(r.clientOrderId, r.status))))
  }

  ghost predicate TakesReport(o: OrderRow, r: Report, o': OrderRow) {
    && !Contradicts(o, r.status) && !OrderLaws.Absorbs(o, r) && OrderLaws.Absorbs(o', r)
    && o'.clientOrderId == o.clientOrderId && o'.symbol == o.symbol
    && o'.executed == Max(o.executed, r.executedQty)
    && (o'.exchangeOrderId == o.exchangeOrderId || (!Present(o.exchangeOrderId) && o'.exchangeOrderId == r.exchangeOrderId))
    && (Terminal(o.status) ==> o'.status == o.status && o'.terminalAt == o.terminalAt && o'.rejectReason == o.rejectReason)
  }

  ghost predicate GivesUpRow(o: OrderRow, o': OrderRow) {
    && !Terminal(o.status) && Terminal(o'.status)
    && o'.clientOrderId == o.clientOrderId && o'.symbol == o.symbol && o'.executed == o.executed
    && o'.exchangeOrderId == o.exchangeOrderId
  }

  /** A row changes at most once in a run: by the one report there is, or by being given up. */
  ghost predicate RowGrows(a: Db, b: Db, v: View, c: ClientOrderId)
    requires c in a.orders && c in b.orders
  {
    || b.orders[c] == a.orders[c]
    || (Query(v, c) == Answered(None) && GivesUpRow(a.orders[c], b.orders[c]))
    || (Query(v, c).Answered? && Query(v, c).value.Some? && TakesReport(a.orders[c], Query(v, c).value.value, b.orders[c]))
  }

  ghost predicate Grows(a: Db, b: Db, v: View) {
    && WellFormed(b)
    && b.intents == a.intents && b.created == a.created && b.orders.Keys == a.orders.Keys
    && a.outbox <= b.outbox && a.fills <= b.fills
    && (forall x | x in a.byExchangeId :: x in b.byExchangeId && b.byExchangeId[x] == a.byExchangeId[x])
    && (forall c {:trigger RowGrows(a, b, v, c)} | c in a.orders :: RowGrows(a, b, v, c))
  }

  lemma GrowsNot(db: Db, v: View)
    requires WellFormed(db)
    ensures Grows(db, db, v)
  {
  }

  lemma GrowsOn(a: Db, b: Db, c: Db, v: View)
    requires Grows(a, b, v) && Grows(b, c, v)
    ensures Grows(a, c, v)
  {
    forall x | x in a.orders
      ensures RowGrows(a, c, v, x)
    {
      assert RowGrows(a, b, v, x) && RowGrows(b, c, v, x);
    }
  }

  lemma SettledStays(a: Db, b: Db, v: View, r: Report)
    requires Grows(a, b, v) && Query(v, r.clientOrderId) == Answered(Some(r)) && Settled(a, r)
    ensures Settled(b, r) && b.orders[r.clientOrderId] == a.orders[r.clientOrderId]
  {
    assert RowGrows(a, b, v, r.clientOrderId);
  }

  // ------------------------------------------------------------------ the three things a run does to the tables

  lemma MergedTakes(o: OrderRow, r: Report, now: int)
    requires Merge(o, r, now).Merged? && Merge(o, r, now).changed
    ensures var o' := Merge(o, r, now).row; TakesReport(o, r, o'.(version := o'.version + 1))
  {
    OrderLaws.MergeIdempotent(o, r, now, now);
    OrderLaws.AbsorbedExactly(Merge(o, r, now).row, r, now);
    OrderLaws.AbsorbedExactly(o, r, now);
  }

  lemma UpdateGrows(db: Db, o: OrderRow, v: View)
    requires WellFormed(db) && Replaces(db, o)
    requires RowGrows(db, Updated(db, o), v, o.clientOrderId)
    ensures Grows(db, Updated(db, o), v)
  {
  }

  lemma NoticeGrows(db: Db, m: Message, v: View)
    requires WellFormed(db)
    ensures Grows(db, Enqueued(db, m), v)
  {
  }

  /** Taking the report there is leaves it without further effect. */
  lemma TakeGrows(db: Db, r: Report, now: int, v: View)
    requires WellFormed(db) && r.clientOrderId in db.orders && Query(v, r.clientOrderId) == Answered(Some(r))
    ensures var c := r.clientOrderId;
            var (db', ended) := ReportTaken(db, r, now);
            && Grows(db, db', v)
            && (!ended.RaisedError? ==> Settled(db', r))
            && (ended.Returned? ==> OrderLaws.Absorbs(db'.orders[c], r))
            && (ended.Returned? <==> !ended.RaisedError? && !Contradicts(db.orders[r.clientOrderId], r.status))
  {
    var c := r.clientOrderId;
    assert RowFits(db, c);
    match Merge(db.orders[c], r, now) {
      case Illegal(_) => NoticeGrows(db, Message(ConflictEvent(c, r.status), Notice), v);
      case Merged(o, changed) =>
        if changed && !IdTaken(db, o) {
          MergeGrows(db, r, now, v, o);
        } else {
          GrowsNot(db, v);
          OrderLaws.AbsorbedExactly(db.orders[c], r, now);
        }
    }
  }

  lemma MergeGrows(db: Db, r: Report, now: int, v: View, o: OrderRow)
    requires WellFormed(db) && r.clientOrderId in db.orders && RowFits(db, r.clientOrderId)
    requires Query(v, r.clientOrderId) == Answered(Some(r))
    requires Merge(db.orders[r.clientOrderId], r, now) == Merged(o, true) && !IdTaken(db, o)
    ensures Replaces(db, o) && Grows(db, Updated(db, o), v)
    ensures r.clientOrderId in Updated(db, o).orders && OrderLaws.Absorbs(Updated(db, o).orders[r.clientOrderId], r)
  {
    var c := r.clientOrderId;
    MergedTakes(db.orders[c], r, now);
    assert Updated(db, o).orders[c] == o.(version := o.version + 1);
    UpdateGrows(db, o, v);
  }

  /** A report without effect stays without effect. */
  lemma SettledIsQuiet(db: Db, r: Report, now: int)
    requires WellFormed(db) && Settled(db, r)
    ensures var (db', ended) := ReportTaken(db, r, now);
            db' == db && !ended.RaisedError? && (ended.Returned? <==> !Contradicts(db.orders[r.clientOrderId], r.status))
  {
  }

  lemma RejectGrows(db: Db, c: ClientOrderId, reason: string, now: int, v: View)
    requires WellFormed(db) && c in db.orders && Query(v, c) == Answered(None)
    ensures var (db', verdict) := Reject(db, c, reason, now);
            && Grows(db, db', v)
            && (verdict != IllegalTransition ==> c in db'.orders && Terminal(db'.orders[c].status))
  {
    assert RowFits(db, c);
    if RejectVerdict(db.orders[c].status) == Accepted(true) {
      var o := RejectedRow(db.orders[c], reason, now);
      assert Updated(db, o).orders[c] == o.(version := o.version + 1);
      UpdateGrows(db, o, v);
    } else {
      GrowsNot(db, v);
    }
  }

  // ------------------------------------------------------------------ executions

  /** An execution that the ledger has, or cannot attribute. */
  ghost predicate FillTaken(db: Db, xf: ExchangeFill) {
    var located := Locate(db, xf.clientOrderId, xf.exchangeOrderId);
    located.Some? && located.value in db.orders ==>
      exists g | g in db.fills :: g.eventKey == xf.eventKey || (g.order == located.value && g.tradeId == xf.tradeId)
  }

  lemma TakenIsQuiet(db: Db, xf: ExchangeFill, now: int)
    requires WellFormed(db) && FillTaken(db, xf)
    ensures IngestFill(db, xf, now) == (db, false)
  {
    var located := Locate(db, xf.clientOrderId, xf.exchangeOrderId);
    if located.Some? {
      LocatedFits(db, xf.clientOrderId, xf.exchangeOrderId);
      var f := FillOf(db.orders[located.value], xf, now);
      var g :| g in db.fills && (g.eventKey == xf.eventKey || (g.order == located.value && g.tradeId == xf.tradeId));
      assert SameExecution(f, g);
    }
  }

  lemma IngestGrows(db: Db, xf: ExchangeFill, now: int, v: View)
    requires WellFormed(db)
    ensures var db' := IngestFill(db, xf, now).0;
            Grows(db, db', v) && FillTaken(db', xf)
  {
    var located := Locate(db, xf.clientOrderId, xf.exchangeOrderId);
    var db' := IngestFill(db, xf, now).0;
    forall c | c in db.orders
      ensures RowGrows(db, db', v, c)
    {
    }
    if located.Some? {
      LocatedFits(db, xf.clientOrderId, xf.exchangeOrderId);
      var f := FillOf(db.orders[located.value], xf, now);
      if Recorded(db.fills, f) {
        var g :| g in db.fills && SameExecution(f, g);
        assert g in db'.fills;
      } else {
        assert f in db'.fills;
      }
    }
  }

  /** Whose execution it is cannot change any more. */
  ghost predicate Attributed(db: Db, xf: ExchangeFill) {
    || (xf.clientOrderId.Some? && xf.clientOrderId.value in db.orders)
    || (xf.clientOrderId.None? && Present(xf.exchangeOrderId) && xf.exchangeOrderId.value in db.byExchangeId)
  }

  lemma FillTakenStays(a: Db, b: Db, v: View, xf: ExchangeFill)
    requires WellFormed(a) && Grows(a, b, v) && Attributed(a, xf) && FillTaken(a, xf)
    ensures Attributed(b, xf) && FillTaken(b, xf)
  {
  }

  /** The executions of one order, as asked for, are taken: there are none to ask for or all are in. */
  ghost predicate OrderFillsTaken(db: Db, v: View, c: ClientOrderId) {
    && c in db.orders
    && (db.orders[c].exchangeOrderId.Some? ==>
          QueryFills(v, c).Answered? && forall xf | xf in QueryFills(v, c).value :: FillTaken(db, xf))
  }

  lemma {:induction false} IngestAllGrows(db: Db, xfs: seq<ExchangeFill>, now: int, v: View)
    requires WellFormed(db) && forall xf | xf in xfs :: Attributed(db, xf)
    ensures var db' := IngestAll(db, xfs, now);
            Grows(db, db', v) && forall xf | xf in xfs :: FillTaken(db', xf)
    decreases |xfs|
  {
    if xfs == [] {
      GrowsNot(db, v);
    } else {
      var rest, last := xfs[..|xfs| - 1], xfs[|xfs| - 1];
      var mid := IngestAll(db, rest, now);
      assert forall xf | xf in rest :: xf in xfs;
      IngestAllGrows(db, rest, now, v);
      IngestGrows(mid, last, now, v);
      var db' := IngestFill(mid, last, now).0;
      GrowsOn(db, mid, db', v);
      forall xf | xf in xfs
        ensures FillTaken(db', xf)
      {
        if xf in rest {
          assert Attributed(mid, xf);
          FillTakenStays(mid, db', v, xf);
        }
      }
    }
  }

  lemma {:induction false} TakenFillsAreQuiet(db: Db, xfs: seq<ExchangeFill>, now: int)
    requires WellFormed(db) && forall xf | xf in xfs :: FillTaken(db, xf)
    ensures IngestAll(db, xfs, now) == db
    decreases |xfs|
  {
    if xfs != [] {
      assert forall xf | xf in xfs[..|xfs| - 1] :: xf in xfs;
      TakenFillsAreQuiet(db, xfs[..|xfs| - 1], now);
      TakenIsQuiet(db, xfs[|xfs| - 1], now);
    }
  }

  lemma OwnFills(db: Db, v: View, c: ClientOrderId)
    requires AnswersAgree(v) && c in db.orders && QueryFills(v, c).Answered?
    ensures forall xf | xf in QueryFills(v, c).value :: xf.clientOrderId == Some(c) && Attributed(db, xf)
  {
  }

  lemma OrderFillsGrow(db: Db, c: ClientOrderId, now: int, v: View)
    requires WellFormed(db) && AnswersAgree(v) && c in db.orders
    ensures var (db', ended) := OrderFillsIngested(db, c, QueryFills(v, c), now);
            && Grows(db, db', v) && !ended.RaisedConflict?
            && (ended.Returned? ==> OrderFillsTaken(db', v, c))
  {
    if db.orders[c].exchangeOrderId.Some? && QueryFills(v, c).Answered? {
      OwnFills(db, v, c);
      IngestAllGrows(db, QueryFills(v, c).value, now, v);
    } else {
      GrowsNot(db, v);
    }
  }

  lemma OrderFillsQuiet(db: Db, c: ClientOrderId, now: int, v: View)
    requires WellFormed(db) && OrderFillsTaken(db, v, c)
    ensures OrderFillsIngested(db, c, QueryFills(v, c), now) == (db, Returned)
  {
    if db.orders[c].exchangeOrderId.Some? {
      TakenFillsAreQuiet(db, QueryFills(v, c).value, now);
    }
  }

  /** As long as the row stays the same. */
  lemma OrderFillsStay(a: Db, b: Db, v: View, c: ClientOrderId)
    requires WellFormed(a) && Grows(a, b, v) && AnswersAgree(v) && OrderFillsTaken(a, v, c)
    requires b.orders[c].exchangeOrderId == a.orders[c].exchangeOrderId
    ensures OrderFillsTaken(b, v, c)
  {
  }
}
