/** What every run of the ledger's writers keeps, whatever the exchange says: one row per execution,
    a position explained by the recorded fills, and one announcement per version of every order. */
module LedgerLaws {
  import opened Common
  import opened OrderModel
  import OrderLaws
  import opened PositionModel
  import opened PositionLaws
  import opened Ledger

  // ------------------------------------------------------------------ an order only moves forward

  ghost predicate Later(a: OrderRow, b: OrderRow) {
    && b.executed >= a.executed
    && b.cumQuote >= a.cumQuote
    && (b.status == a.status || Rank(b.status) > Rank(a.status))
    && (Terminal(a.status) ==> b.status == a.status && b.rejectReason == a.rejectReason)
    && (Present(a.exchangeOrderId) ==> b.exchangeOrderId == a.exchangeOrderId)
    && (a.ambiguous ==> b.ambiguous)
  }

  /** What every transaction does to the rows of the orders table. */
  ghost predicate OrdersAdvance(db: Db, db': Db) {
    forall c {:trigger db'.orders[c]} {:trigger c in db.orders} | c in db.orders ::
      && c in db'.orders
      && Later(db.orders[c], db'.orders[c])
      && (db'.orders[c] == db.orders[c] || db'.orders[c].version == db.orders[c].version + 1)
  }

  /** An update that every writer's transaction boils down to: the row just read, moved forward. */
  ghost predicate Forward(db: Db, o: OrderRow) {
    && Replaces(db, o)
    && o.version == db.orders[o.clientOrderId].version
    && Later(db.orders[o.clientOrderId], o)
  }

  lemma ForwardAdvances(db: Db, o: OrderRow)
    requires WellFormed(db) && Forward(db, o)
    ensures OrdersAdvance(db, Updated(db, o))
  {
  }

  lemma ReportIsUpdate(db: Db, r: Report, now: int) returns (o: Option<OrderRow>)
    requires WellFormed(db)
    ensures o.None? ==> ApplyReport(db, r, now).0 == db
    ensures o.Some? ==> Forward(db, o.value) && ApplyReport(db, r, now).0 == Updated(db, o.value)
  {
    o := None;
    var located := Locate(db, Some(r.clientOrderId), r.exchangeOrderId);
    if located.Some? {
      LocatedFits(db, Some(r.clientOrderId), r.exchangeOrderId);
      var m := Merge(db.orders[located.value], r, now);
      if m.Merged? && m.changed && !IdTaken(db, m.row) {
        OrderLaws.MergeProgress(db.orders[located.value], r, now);
        o := Some(m.row);
      }
    }
  }

  lemma RejectIsUpdate(db: Db, c: ClientOrderId, reason: string, now: int) returns (o: Option<OrderRow>)
    requires WellFormed(db) && c in db.orders
    ensures o.None? ==> Reject(db, c, reason, now).0 == db
    ensures o.Some? ==> Forward(db, o.value) && Reject(db, c, reason, now).0 == Updated(db, o.value)
  {
    assert RowFits(db, c);
    o := None;
    if RejectVerdict(db.orders[c].status) == Accepted(true) {
      o := Some(RejectedRow(db.orders[c], reason, now));
    }
  }

  lemma FlagIsUpdate(db: Db, c: ClientOrderId) returns (o: OrderRow)
    requires WellFormed(db) && c in db.orders
    ensures Forward(db, o)
    ensures FlagAmbiguous(db, c) == Enqueued(Updated(db, o), Message(AmbiguousEvent(c), Notice))
  {
    assert RowFits(db, c);
    o := db.orders[c].(ambiguous := true);
  }

  /** The four ways a stream event can end, as tables. */
  lemma EventIsUpdate(db: Db, ev: StreamEvent, now: int) returns (o: Option<OrderRow>)
    requires WellFormed(db)
    ensures var (db', result) := HandleEvent(db, ev, now);
            if !result.StreamApplied? then
              o.None? && (db' == db || db' == ConflictRecorded(db, ev.report.clientOrderId, ev.report.status))
            else
              var marked := MarkProcessed(db, ev.eventKey);
              && ev.eventKey !in db.processed
              && (o.Some? ==> Forward(marked, o.value))
              && var db1 := if o.Some? then Updated(marked, o.value) else marked;
                 db' == if ev.fill.Some? then IngestFill(db1, ev.fill.value, now).0 else db1
  {
    o := None;
    if HandleEvent(db, ev, now).1.StreamApplied? {
      o := ReportIsUpdate(MarkProcessed(db, ev.eventKey), ev.report, now);
    }
  }

  lemma EventAdvances(db: Db, ev: StreamEvent, now: int)
    requires WellFormed(db)
    ensures OrdersAdvance(db, HandleEvent(db, ev, now).0)
  {
    var o := EventIsUpdate(db, ev, now);
    if o.Some? {
      ForwardAdvances(MarkProcessed(db, ev.eventKey), o.value);
    }
  }

  lemma ReportAdvances(db: Db, r: Report, now: int)
    requires WellFormed(db)
    ensures OrdersAdvance(db, ApplyReport(db, r, now).0)
  {
    var o := ReportIsUpdate(db, r, now);
    if o.Some? {
      ForwardAdvances(db, o.value);
    }
  }

  lemma RejectAdvances(db: Db, c: ClientOrderId, reason: string, now: int)
    requires WellFormed(db) && c in db.orders
    ensures OrdersAdvance(db, Reject(db, c, reason, now).0)
  {
    var o := RejectIsUpdate(db, c, reason, now);
    if o.Some? {
      ForwardAdvances(db, o.value);
    }
  }

  lemma FlagAdvances(db: Db, c: ClientOrderId)
    requires WellFormed(db) && c in db.orders
    ensures OrdersAdvance(db, FlagAmbiguous(db, c))
  {
    var o := FlagIsUpdate(db, c);
    ForwardAdvances(db, o);
  }

  lemma PersistAdvances(db: Db, i: Intent, now: int)
    requires WellFormed(db)
    ensures OrdersAdvance(db, PersistIntent(db, i, now).0)
  {
    forall c | c in db.orders
      ensures i.id !in db.intents ==> c != BotOrder(i.id)
    {
      assert RowFits(db, c);
    }
  }

  /** Executions and positions are other tables. */
  lemma OtherTablesAdvance(db: Db, s: Step)
    requires WellFormed(db) && (s.op.TakeFill? || s.op.MarkPosition? || s.op.SetStop? || s.op.RebuildPosition?)
    ensures OrdersAdvance(db, After(db, s))
  {
    assert After(db, s).orders == db.orders;
    hide After, WellFormed;
  }

  lemma StepAdvances(db: Db, s: Step)
    requires WellFormed(db)
    ensures OrdersAdvance(db, After(db, s))
  {
    hide HandleEvent, ApplyReport, Reject, PersistIntent, FlagAmbiguous, IngestFill, PositionMarked, StopSet, PositionRebuilt,
         WellFormed;
    match s.op {
      case Persist(i) => PersistAdvances(db, i, s.now);
      case TakeReport(r) => ReportAdvances(db, r, s.now);
      case Refuse(c, reason) => if c in db.orders { RejectAdvances(db, c, reason, s.now); }
      case Flag(c) => if c in db.orders { FlagAdvances(db, c); }
      case TakeEvent(ev) => EventAdvances(db, ev, s.now);
      case _ => OtherTablesAdvance(db, s);
    }
  }

  ghost predicate NeverBack(db: Db, db': Db) {
    forall c {:trigger db'.orders[c]} {:trigger c in db.orders} | c in db.orders ::
      && c in db'.orders
      && Later(db.orders[c], db'.orders[c])
      && db'.orders[c].version >= db.orders[c].version
  }

  /** Over any run, of any writers, no order loses quantity, leaves a terminal status, moves back in
      rank or changes its exchange id, and versions only grow. */
  lemma {:induction false} RunNeverGoesBack(db: Db, steps: seq<Step>)
    requires WellFormed(db)
    ensures NeverBack(db, Run(db, steps))
    decreases |steps|
  {
    if steps != [] {
      var rest := steps[..|steps| - 1];
      RunNeverGoesBack(db, rest);
      StepAdvances(Run(db, rest), steps[|steps| - 1]);
    }
  }

  // ------------------------------------------------------------------ one row per execution

  ghost predicate FillsUnique(db: Db) {
    forall i, j | 0 <= i < j < |db.fills| :: !SameExecution(db.fills[j], db.fills[i])
  }

  // ------------------------------------------------------------------ what no update changes

  /** The same orders, each for the same thing. */
  ghost predicate SameNames(db: Db, db': Db) {
    && db'.orders.Keys == db.orders.Keys && db'.created == db.created && db'.intents == db.intents
    && forall c | c in db.orders ::
         && db'.orders[c].symbol == db.orders[c].symbol && db'.orders[c].side == db.orders[c].side
         && db'.orders[c].purpose == db.orders[c].purpose && db'.orders[c].requested == db.orders[c].requested
  }

  lemma ReportKeepsNames(db: Db, r: Report, now: int)
    requires WellFormed(db)
    ensures SameNames(db, ApplyReport(db, r, now).0)
  {
    var located := Locate(db, Some(r.clientOrderId), r.exchangeOrderId);
    if located.Some? {
      LocatedFits(db, Some(r.clientOrderId), r.exchangeOrderId);
    }
  }

  lemma EventKeepsNames(db: Db, ev: StreamEvent, now: int)
    requires WellFormed(db)
    ensures SameNames(db, HandleEvent(db, ev, now).0)
  {
    ReportKeepsNames(MarkProcessed(db, ev.eventKey), ev.report, now);
    if ev.fill.Some? {
      FillKeepsNames(ApplyReport(MarkProcessed(db, ev.eventKey), ev.report, now).0, ev.fill.value, now);
    }
    hide ApplyReport, IngestFill, WellFormed;
  }

  lemma FillKeepsNames(db: Db, xf: ExchangeFill, now: int)
    requires WellFormed(db)
    ensures SameNames(db, IngestFill(db, xf, now).0)
  {
  }

  lemma RefusalKeepsNames(db: Db, c: ClientOrderId, reason: string, now: int)
    requires WellFormed(db) && c in db.orders
    ensures SameNames(db, Reject(db, c, reason, now).0) && SameNames(db, FlagAmbiguous(db, c))
  {
    assert RowFits(db, c);
  }

  /** Only a new intent makes a new order. */
  lemma StepKeepsNames(db: Db, step: Step)
    requires WellFormed(db) && !step.op.Persist?
    ensures SameNames(db, After(db, step))
  {
    hide ApplyReport, HandleEvent, IngestFill, Reject, FlagAmbiguous, WellFormed;
    match step.op {
      case TakeReport(r) => ReportKeepsNames(db, r, step.now);
      case Refuse(c, reason) =>
        if c in db.orders {
          RefusalKeepsNames(db, c, reason, step.now);
        }
      case Flag(c) =>
        if c in db.orders {
          RefusalKeepsNames(db, c, "", step.now);
        }
      case TakeFill(xf) => FillKeepsNames(db, xf, step.now);
      case TakeEvent(ev) => EventKeepsNames(db, ev, step.now);
      case _ =>
    }
  }

  /** Every order has been saved at least once. */
  ghost predicate Versioned(db: Db) {
    forall c | c in db.orders :: db.orders[c].version >= 1
  }

  lemma StepVersioned(db: Db, step: Step)
    requires WellFormed(db) && Versioned(db)
    ensures Versioned(After(db, step))
  {
    if step.op.Persist? {
      assert BotOrder(step.op.intent.id) in db.orders ==> RowFits(db, BotOrder(step.op.intent.id));
    } else {
      StepKeepsNames(db, step);
      StepAdvances(db, step);
      hide After;
    }
  }

  // ------------------------------------------------------------------ what is recorded of an execution

  /** The row tells the exchange's execution, of the order it belongs to. */
  predicate FillTells(f: Fill, xf: ExchangeFill, o: OrderRow) {
    && f.tradeId == xf.tradeId && f.eventKey == xf.eventKey
    && f.qty == xf.qty && f.price == xf.price && f.quoteQty == xf.quoteQty
    && f.commission == xf.commission && f.commissionAsset == xf.commissionAsset
    && f.order == o.clientOrderId && f.symbol == o.symbol && f.side == o.side
    && (xf.timeMs != 0 ==> f.time == xf.timeMs)
  }

  /** The two unique constraints, as the exchange names its executions. */
  predicate KeysOf(f: Fill, xf: ExchangeFill, c: ClientOrderId) {
    f.eventKey == xf.eventKey || (f.order == c && f.tradeId == xf.tradeId)
  }

  ghost predicate OnRecord(fills: seq<Fill>, xf: ExchangeFill, c: ClientOrderId) {
    exists f | f in fills :: KeysOf(f, xf, c)
  }

  /** An execution of a known order is recorded exactly when no row has its keys; then as one more row that tells it,
      at the exchange's time or, where it gives none, at the time of recording, and with its announcements. */
  lemma FillIsTold(db: Db, xf: ExchangeFill, c: ClientOrderId, now: int)
    requires WellFormed(db) && c in db.orders && Locate(db, xf.clientOrderId, xf.exchangeOrderId) == Some(c)
    ensures var (db', added) := IngestFill(db, xf, now);
            && added == !OnRecord(db.fills, xf, c)
            && (!added ==> db' == db)
            && (added ==>
                  && |db'.fills| == |db.fills| + 1 && db'.fills[..|db.fills|] == db.fills
                  && var f := db'.fills[|db.fills|];
                     && FillTells(f, xf, db.orders[c]) && (xf.timeMs == 0 ==> f.time == now)
                     && Queued(db'.outbox, FillKey(xf.eventKey)) && Queued(db'.outbox, PositionAfterFill(f.symbol, xf.eventKey))
                     && (AnomaliesOf(PositionOf(db, f.symbol), f) != [] ==> Queued(db'.outbox, AnomalyEvent(xf.eventKey))))
  {
    assert RowFits(db, c);
    var f := FillOf(db.orders[c], xf, now);
    assert forall g | g in db.fills :: SameExecution(f, g) == KeysOf(g, xf, c);
    if !Recorded(db.fills, f) {
      RecordedIsAnnounced(db, f);
    }
  }

  /** Under each of its keys, unless something was queued there already. */
  ghost predicate Tells(before: seq<Message>, after: seq<Message>, m: Message) {
    Queued(after, m.key) && (!Queued(before, m.key) ==> m in after)
  }

  /** The control plane is told of the execution and of the position behind it, and of an anomaly. */
  ghost predicate FillAnnounced(db: Db, db': Db, f: Fill) {
    && Tells(db.outbox, db'.outbox, Message(FillKey(f.eventKey), FillState(f)))
    && Tells(db.outbox, db'.outbox, Message(PositionAfterFill(f.symbol, f.eventKey), PositionState(PositionOf(db', f.symbol))))
    && (PositionOf(db, f.symbol).qty >= 0.0 && AnomaliesOf(PositionOf(db, f.symbol), f) != [] ==>
          Queued(db'.outbox, AnomalyEvent(f.eventKey)))
  }

  lemma EnqueueTells(outbox: seq<Message>, m: Message, n: Message)
    ensures Tells(outbox, Enqueue(outbox, m), m)
    ensures m in outbox ==> m in Enqueue(outbox, n)
    ensures Queued(outbox, m.key) ==> Queued(Enqueue(outbox, n), m.key)
    ensures m.key != n.key ==> Queued(Enqueue(outbox, n), m.key) == Queued(outbox, m.key)
  {
    if !Queued(outbox, m.key) {
      assert m in Enqueue(outbox, m);
    }
    assert forall x | x in outbox :: x in Enqueue(outbox, n);
    if Queued(outbox, m.key) {
      var x :| x in outbox && x.key == m.key;
      assert x in Enqueue(outbox, n);
    }
  }

  lemma BothTold(outbox: seq<Message>, m1: Message, m2: Message, m3: Message)
    requires m1.key != m2.key && m1.key != m3.key && m2.key != m3.key
    ensures var two := Enqueue(Enqueue(outbox, m1), m2);
            && Tells(outbox, two, m1) && Tells(outbox, two, m2)
            && Tells(outbox, Enqueue(two, m3), m1) && Tells(outbox, Enqueue(two, m3), m2) && Queued(Enqueue(two, m3), m3.key)
  {
    hide Enqueue;
    var one := Enqueue(outbox, m1);
    var two := Enqueue(one, m2);
    EnqueueTells(outbox, m1, m1);
    EnqueueTells(outbox, m2, m1);
    EnqueueTells(one, m2, m2);
    EnqueueTells(one, m1, m2);
    EnqueueTells(two, m3, m3);
    EnqueueTells(two, m1, m3);
    EnqueueTells(two, m2, m3);
  }

  lemma RecordedIsAnnounced(db: Db, f: Fill)
    requires WellFormed(db)
    ensures FillAnnounced(db, FillRecorded(db, f), f)
  {
    var p' := Apply(PositionOf(db, f.symbol), f);
    var m1, m2, m3 := Message(FillKey(f.eventKey), FillState(f)),
                      Message(PositionAfterFill(f.symbol, f.eventKey), PositionState(p')), Message(AnomalyEvent(f.eventKey), Notice);
    BothTold(db.outbox, m1, m2, m3);
    hide Queued, Tells, Enqueue, Apply, AnomaliesOf, WellFormed;
  }

  // ------------------------------------------------------------------ the position is explained by the fills

  datatype Core = Core(qty: real, average: real, realized: real, feesOther: map<string, real>)

  function CoreOf(p: PositionRow): Core {
    Core(p.qty, p.average, p.realized, p.feesOther)
  }

  lemma CoreRemarked(p: PositionRow)
    ensures CoreOf(Remarked(p)) == CoreOf(p)
  {
  }

  lemma CoreBought(p: PositionRow, q: PositionRow, f: Fill)
    requires p.qty + Received(f) != 0.0 && CoreOf(p) == CoreOf(q)
    ensures CoreOf(Bought(p, f)) == CoreOf(Bought(q, f))
  {
  }

  lemma CoreSold(p: PositionRow, q: PositionRow, f: Fill)
    requires CoreOf(p) == CoreOf(q)
    ensures CoreOf(Sold(p, f)) == CoreOf(Sold(q, f))
  {
    assert RealizedBy(p, f) == RealizedBy(q, f);
  }

  lemma CoreApplies(p: PositionRow, q: PositionRow, f: Fill)
    requires p.qty >= 0.0 && CoreOf(p) == CoreOf(q)
    ensures CoreOf(Apply(p, f)) == CoreOf(Apply(q, f))
  {
    var fees := TallyFee(p.feesOther, f);
    var p1, q1 := p.(feesOther := fees), q.(feesOther := fees);
    match f.side {
      case Buy =>
        if Received(f) > 0.0 {
          CoreBought(p1, q1, f);
          CoreRemarked(Bought(p1, f));
          CoreRemarked(Bought(q1, f));
        }
      case Sell =>
        CoreSold(p1, q1, f);
        CoreRemarked(Sold(p1, f));
        CoreRemarked(Sold(q1, f));
      case OtherSide(_) =>
    }
  }

  lemma CoreProfit(p: PositionRow, q: PositionRow, mark: real)
    requires CoreOf(p) == CoreOf(q)
    ensures ProfitAt(p, mark) == ProfitAt(q, mark)
  {
  }

  lemma {:induction false} CoreAppliesAll(p: PositionRow, q: PositionRow, fs: seq<Fill>)
    requires p.qty >= 0.0 && CoreOf(p) == CoreOf(q)
    ensures CoreOf(ApplyAll(p, fs)) == CoreOf(ApplyAll(q, fs))
    decreases |fs|
  {
    if fs != [] {
      CoreAppliesAll(p, q, fs[..|fs| - 1]);
      CoreApplies(ApplyAll(p, fs[..|fs| - 1]), ApplyAll(q, fs[..|fs| - 1]), fs[|fs| - 1]);
    }
  }

  ghost predicate ExplainedBy(db: Db, symbol: Symbol, gs: seq<Fill>) {
    && multiset(gs) == multiset(FillsOf(db.fills, symbol))
    && CoreOf(PositionOf(db, symbol)) == CoreOf(ApplyAll(EmptyPosition(symbol), gs))
  }

  /** Every recorded fill is in the position once, and nothing else is. */
  ghost predicate Explained(db: Db, symbol: Symbol) {
    exists gs :: ExplainedBy(db, symbol, gs)
  }

  lemma RecordedAppend(fills: seq<Fill>, f: Fill, c: ClientOrderId)
    ensures RecordedQty(fills + [f], c) == RecordedQty(fills, c) + (if f.order == c then f.qty else 0.0)
  {
  }

  lemma FillsOfAppend(fills: seq<Fill>, f: Fill, symbol: Symbol)
    ensures FillsOf(fills + [f], symbol) == FillsOf(fills, symbol) + (if f.symbol == symbol then [f] else [])
  {
    assert (fills + [f])[..|fills + [f]| - 1] == fills;
  }

  lemma FillExtendsExplanation(db: Db, f: Fill, symbol: Symbol, gs: seq<Fill>)
    requires WellFormed(db) && ExplainedBy(db, symbol, gs)
    ensures ExplainedBy(FillRecorded(db, f), symbol, if f.symbol == symbol then gs + [f] else gs)
  {
    FillsOfAppend(db.fills, f, symbol);
    if f.symbol == symbol {
      AppendFill(EmptyPosition(symbol), gs, f);
      CoreApplies(PositionOf(db, symbol), ApplyAll(EmptyPosition(symbol), gs), f);
    }
  }

  lemma FillKeepsExplained(db: Db, f: Fill, symbol: Symbol)
    requires WellFormed(db) && Explained(db, symbol)
    ensures Explained(FillRecorded(db, f), symbol)
  {
    var gs :| ExplainedBy(db, symbol, gs);
    FillExtendsExplanation(db, f, symbol, gs);
  }

  /** The position is the fold of its fills in the order in which they were recorded. */
  ghost predicate Incremental(db: Db, s: Symbol) {
    ExplainedBy(db, s, FillsOf(db.fills, s))
  }

  lemma NewFillKeepsRecordingOrder(db: Db, f: Fill, s: Symbol)
    requires WellFormed(db) && Incremental(db, s)
    ensures Incremental(FillRecorded(db, f), s)
  {
    FillExtendsExplanation(db, f, s, FillsOf(db.fills, s));
    FillsOfAppend(db.fills, f, s);
    assert FillsOf(db.fills, s) + [] == FillsOf(db.fills, s);
    hide FillsOf, ExplainedBy;
  }

  lemma FillKeepsRecordingOrder(db: Db, xf: ExchangeFill, now: int, s: Symbol)
    requires WellFormed(db) && Incremental(db, s)
    ensures Incremental(IngestFill(db, xf, now).0, s)
  {
    var located := Locate(db, xf.clientOrderId, xf.exchangeOrderId);
    if located.Some? {
      LocatedFits(db, xf.clientOrderId, xf.exchangeOrderId);
      hide Incremental, FillRecorded;
      NewFillKeepsRecordingOrder(db, FillOf(db.orders[located.value], xf, now), s);
    }
  }

  lemma EventKeepsRecordingOrder(db: Db, ev: StreamEvent, now: int, s: Symbol)
    requires WellFormed(db) && Incremental(db, s)
    ensures Incremental(HandleEvent(db, ev, now).0, s)
  {
    var o := EventIsUpdate(db, ev, now);
    if HandleEvent(db, ev, now).1.StreamApplied? && ev.fill.Some? {
      var marked := MarkProcessed(db, ev.eventKey);
      FillKeepsRecordingOrder(if o.Some? then Updated(marked, o.value) else marked, ev.fill.value, now, s);
    }
  }

  lemma OrderStepKeepsFills(db: Db, step: Step)
    requires WellFormed(db) && (step.op.Persist? || step.op.TakeReport? || step.op.Refuse? || step.op.Flag?)
    ensures After(db, step).fills == db.fills && After(db, step).positions == db.positions
  {
    if step.op.TakeReport? {
      var o := ReportIsUpdate(db, step.op.report, step.now);
    } else if step.op.Refuse? && step.op.order in db.orders {
      var o := RejectIsUpdate(db, step.op.order, step.op.reason, step.now);
    } else if step.op.Flag? && step.op.order in db.orders {
      var o := FlagIsUpdate(db, step.op.order);
    }
    hide ApplyReport, Reject, FlagAmbiguous, WellFormed;
  }

  /** Every transaction but a rebuild of that very position. */
  lemma StepKeepsRecordingOrder(db: Db, step: Step, s: Symbol)
    requires WellFormed(db) && Incremental(db, s) && step.op != RebuildPosition(s)
    ensures Incremental(After(db, step), s)
  {
    hide FillsOf, ApplyAll;
    match step.op {
      case TakeFill(xf) => FillKeepsRecordingOrder(db, xf, step.now, s);
      case TakeEvent(ev) => EventKeepsRecordingOrder(db, ev, step.now, s);
      case MarkPosition(_, _) =>
      case SetStop(_, _) =>
      case RebuildPosition(_) =>
      case _ => OrderStepKeepsFills(db, step);
    }
  }

  lemma {:induction false} InsertKeepsFills(fs: seq<Fill>, f: Fill)
    ensures multiset(InsertByTime(fs, f)) == multiset(fs) + multiset{f}
    decreases |fs|
  {
    if fs != [] && fs[|fs| - 1].time > f.time {
      InsertKeepsFills(fs[..|fs| - 1], f);
      assert fs == fs[..|fs| - 1] + [fs[|fs| - 1]];
    }
  }

  lemma {:induction false} ByTimeKeepsFills(fs: seq<Fill>)
    ensures multiset(ByTime(fs)) == multiset(fs)
    decreases |fs|
  {
    if fs != [] {
      ByTimeKeepsFills(fs[..|fs| - 1]);
      InsertKeepsFills(ByTime(fs[..|fs| - 1]), fs[|fs| - 1]);
      assert fs == fs[..|fs| - 1] + [fs[|fs| - 1]];
    }
  }

  ghost predicate SortedByTime(fs: seq<Fill>) {
    forall i, j | 0 <= i < j < |fs| :: fs[i].time <= fs[j].time
  }

  lemma {:induction false} InsertKeepsOrder(fs: seq<Fill>, f: Fill)
    requires SortedByTime(fs)
    ensures SortedByTime(InsertByTime(fs, f))
    ensures forall g | g in InsertByTime(fs, f) :: g in fs || g == f
    decreases |fs|
  {
    if fs != [] && fs[|fs| - 1].time > f.time {
      InsertKeepsOrder(fs[..|fs| - 1], f);
      forall g | g in InsertByTime(fs[..|fs| - 1], f)
        ensures g.time <= fs[|fs| - 1].time
      {
      }
    }
  }

  lemma {:induction false} ByTimeIsSorted(fs: seq<Fill>)
    ensures SortedByTime(ByTime(fs))
    decreases |fs|
  {
    if fs != [] {
      ByTimeIsSorted(fs[..|fs| - 1]);
      InsertKeepsOrder(ByTime(fs[..|fs| - 1]), fs[|fs| - 1]);
    }
  }

  lemma RebuildIsExplained(db: Db, symbol: Symbol)
    requires WellFormed(db)
    ensures ExplainedBy(PositionRebuilt(db, symbol), symbol, ByTime(FillsOf(db.fills, symbol)))
  {
    var fs := ByTime(FillsOf(db.fills, symbol));
    var existing := PositionOf(db, symbol);
    ByTimeKeepsFills(FillsOf(db.fills, symbol));
    CoreAppliesAll(EmptyPosition(symbol).(lastMark := existing.lastMark), EmptyPosition(symbol), fs);
  }

  /** Rebuilding is a fixpoint: a second rebuild of the same fills changes nothing. */
  lemma RebuildFixpoint(db: Db, symbol: Symbol)
    requires WellFormed(db)
    ensures PositionRebuilt(PositionRebuilt(db, symbol), symbol) == PositionRebuilt(db, symbol)
  {
    hide ApplyAll, ByTime, FillsOf, RowFits, Indexed;
    var once := PositionRebuilt(db, symbol);
    var p := PositionOf(once, symbol);
    var existing := PositionOf(db, symbol);
    var fs := ByTime(FillsOf(db.fills, symbol));
    assert p == Rebuilt(existing, fs) && p.lastMark == existing.lastMark && p.symbol == symbol;
    assert p.qty > 0.0 ==> p.stop == existing.stop;
    assert once.positions[symbol := p] == once.positions;
  }

  /** When the order of execution is clean, the incrementally kept position and the rebuilt one have
      the same quantity exactly when the fills were also recorded in a clean order; they then agree on
      commissions and on total P&L at every mark. */
  lemma RebuildAgreesExactly(db: Db, symbol: Symbol, recorded: seq<Fill>, mark: real)
    requires WellFormed(db) && ExplainedBy(db, symbol, recorded)
    requires Clean(EmptyPosition(symbol), ByTime(FillsOf(db.fills, symbol)))
    ensures var kept := PositionOf(db, symbol);
            var rebuilt := PositionOf(PositionRebuilt(db, symbol), symbol);
            && (kept.qty == rebuilt.qty <==> Clean(EmptyPosition(symbol), recorded))
            && (kept.qty == rebuilt.qty ==>
                  kept.feesOther == rebuilt.feesOther && ProfitAt(kept, mark) == ProfitAt(rebuilt, mark))
  {
    var fs := ByTime(FillsOf(db.fills, symbol));
    var empty := EmptyPosition(symbol);
    var a, b := ApplyAll(empty, recorded), ApplyAll(empty, fs);
    RebuildIsExplained(db, symbol);
    ByTimeKeepsFills(FillsOf(db.fills, symbol));
    SameQuantityExactly(empty, fs, recorded);
    if Clean(empty, recorded) {
      OrderIndependence(empty, recorded, fs, mark);
      CoreProfit(PositionOf(db, symbol), a, mark);
      CoreProfit(PositionOf(PositionRebuilt(db, symbol), symbol), b, mark);
    }
  }

  // ------------------------------------------------------------------ the outbox

  ghost predicate Announces(m: Message, o: OrderRow) {
    && m.key == OrderVersion(o.clientOrderId, o.version)
    && m.payload == OrderState(o)
  }

  ghost predicate KeysUnique(outbox: seq<Message>) {
    forall i, j | 0 <= i < j < |outbox| :: outbox[i].key != outbox[j].key
  }

  /** An order message tells of a version the order has had, and the order has only moved on since. */
  ghost predicate Truthful(db: Db, m: Message) {
    (m.key.OrderVersion? <==> m.payload.OrderState?) &&
    (m.key.OrderVersion? ==>
      && Announces(m, m.payload.row)
      && m.key.order in db.orders
      && 1 <= m.key.version <= db.orders[m.key.order].version
      && Later(m.payload.row, db.orders[m.key.order])
      && (m.key.version == db.orders[m.key.order].version ==> m.payload.row == db.orders[m.key.order]))
  }

  /** Older announcements of an order never run ahead of newer ones. */
  ghost predicate InOrder(m: Message, n: Message) {
    (&& m.key.OrderVersion? && n.key.OrderVersion? && m.key.order == n.key.order && m.key.version <= n.key.version
     && m.payload.OrderState? && n.payload.OrderState?) ==> Later(m.payload.row, n.payload.row)
  }

  /** One message per version 1..current of every order, carrying the state at that version. */
  ghost predicate OutboxComplete(db: Db) {
    && KeysUnique(db.outbox)
    && (forall m | m in db.outbox :: Truthful(db, m))
    && (forall m, n | m in db.outbox && n in db.outbox :: InOrder(m, n))
    && (forall c, v: int | c in db.orders && 1 <= v <= db.orders[c].version :: Queued(db.outbox, OrderVersion(c, v)))
  }

  lemma EnqueueKeeps(outbox: seq<Message>, m: Message)
    ensures KeysUnique(outbox) ==> KeysUnique(Enqueue(outbox, m))
    ensures forall x | x in Enqueue(outbox, m) :: x in outbox || (x == m && !Queued(outbox, m.key))
    ensures forall x | x in outbox :: x in Enqueue(outbox, m)
    ensures forall k | Queued(outbox, k) :: Queued(Enqueue(outbox, m), k)
    ensures Queued(Enqueue(outbox, m), m.key)
  {
    var outbox' := Enqueue(outbox, m);
    assert Queued(outbox', m.key) by {
      assert !Queued(outbox, m.key) ==> m in outbox';
    }
    forall k | Queued(outbox, k)
      ensures Queued(outbox', k)
    {
      var x :| x in outbox && x.key == k;
      assert x in outbox';
    }
  }

  lemma NoticeKeepsOutbox(db: Db, m: Message)
    requires OutboxComplete(db) && !m.key.OrderVersion? && !m.payload.OrderState?
    ensures OutboxComplete(Enqueued(db, m))
  {
    EnqueueKeeps(db.outbox, m);
    var db' := Enqueued(db, m);
    forall x | x in db'.outbox
      ensures Truthful(db', x)
    {
      if x in db.outbox {
        assert Truthful(db, x);
      }
    }
    forall x, y | x in db'.outbox && y in db'.outbox
      ensures InOrder(x, y)
    {
      if x in db.outbox && y in db.outbox {
        assert InOrder(x, y);
      }
    }
  }

  /** Tables the outbox does not talk about may change freely. */
  lemma OtherTablesKeepOutbox(db: Db, db': Db)
    requires OutboxComplete(db) && db'.orders == db.orders && db'.outbox == db.outbox
    ensures OutboxComplete(db')
  {
    forall m | m in db'.outbox
      ensures Truthful(db', m)
    {
      assert Truthful(db, m);
    }
  }

  lemma LaterTransitive(a: OrderRow, b: OrderRow, c: OrderRow)
    requires Later(a, b) && Later(b, c)
    ensures Later(a, c)
  {
  }

  lemma NextVersionIsNew(db: Db, c: ClientOrderId)
    requires OutboxComplete(db) && c in db.orders
    ensures !Queued(db.outbox, OrderVersion(c, db.orders[c].version + 1))
  {
    forall m | m in db.outbox
      ensures m.key != OrderVersion(c, db.orders[c].version + 1)
    {
      assert Truthful(db, m);
    }
  }

  lemma UpdateKeepsOutbox(db: Db, o: OrderRow)
    requires WellFormed(db) && Replaces(db, o) && OutboxComplete(db)
    requires o.version == db.orders[o.clientOrderId].version && Later(db.orders[o.clientOrderId], o)
    ensures OutboxComplete(Updated(db, o))
  {
    var c := o.clientOrderId;
    var row := o.(version := o.version + 1);
    var m := Message(OrderVersion(c, row.version), OrderState(row));
    var db' := Updated(db, o);
    EnqueueKeeps(db.outbox, m);
    NextVersionIsNew(db, c);
    assert m in db'.outbox;
    forall x | x in db'.outbox
      ensures Truthful(db', x)
    {
      if x in db.outbox {
        assert Truthful(db, x);
        if x.key.OrderVersion? && x.key.order == c {
          LaterTransitive(x.payload.row, db.orders[c], row);
        }
      }
    }
    forall x, y | x in db'.outbox && y in db'.outbox
      ensures InOrder(x, y)
    {
      if x in db.outbox && y in db.outbox {
        assert InOrder(x, y);
      } else if x in db.outbox {
        assert Truthful(db', x);
      } else if y in db.outbox {
        assert Truthful(db, y);
      }
    }
    forall d, v: int | d in db'.orders && 1 <= v <= db'.orders[d].version
      ensures Queued(db'.outbox, OrderVersion(d, v))
    {
      if !(d == c && v == row.version) {
        assert Queued(db.outbox, OrderVersion(d, v));
      }
    }
  }

  lemma InsertKeepsOutbox(db: Db, i: Intent, now: int)
    requires WellFormed(db) && OutboxComplete(db) && i.id !in db.intents
    ensures OutboxComplete(Inserted(db, i, now))
  {
    var db' := Inserted(db, i, now);
    forall c | c in db.orders
      ensures c != BotOrder(i.id)
    {
      assert RowFits(db, c);
    }
    forall m | m in db'.outbox
      ensures Truthful(db', m)
    {
      assert Truthful(db, m);
    }
  }

  lemma FillKeepsOutbox(db: Db, f: Fill)
    requires WellFormed(db) && OutboxComplete(db)
    ensures OutboxComplete(FillRecorded(db, f))
  {
    var p := PositionOf(db, f.symbol);
    var p' := Apply(p, f);
    var db1 := db.(fills := db.fills + [f], positions := db.positions[f.symbol := p']);
    OtherTablesKeepOutbox(db, db1);
    var m2 := Message(FillKey(f.eventKey), FillState(f));
    var m3 := Message(PositionAfterFill(f.symbol, f.eventKey), PositionState(p'));
    NoticeKeepsOutbox(db1, m2);
    NoticeKeepsOutbox(Enqueued(db1, m2), m3);
    NoticeKeepsOutbox(Enqueued(Enqueued(db1, m2), m3), Message(AnomalyEvent(f.eventKey), Notice));
  }

  // ------------------------------------------------------------------ every run

  ghost predicate Sound(db: Db) {
    && WellFormed(db)
    && FillsUnique(db)
    && OutboxComplete(db)
    && forall s: Symbol :: Explained(db, s)
  }

  lemma SameFillsSound(db: Db, db': Db)
    requires Sound(db) && WellFormed(db') && OutboxComplete(db')
    requires db'.fills == db.fills && db'.positions == db.positions
    ensures Sound(db')
  {
    forall s: Symbol
      ensures Explained(db', s)
    {
      assert Explained(db, s);
      var gs :| ExplainedBy(db, s, gs);
      FillsStay(db, db', s, gs);
    }
  }

  lemma FillsStay(db: Db, db': Db, s: Symbol, gs: seq<Fill>)
    requires ExplainedBy(db, s, gs) && db'.fills == db.fills && PositionOf(db', s) == PositionOf(db, s)
    ensures ExplainedBy(db', s, gs)
  {
  }

  lemma UpdateSound(db: Db, o: OrderRow)
    requires Sound(db) && Forward(db, o)
    ensures Sound(Updated(db, o))
  {
    UpdateKeepsOutbox(db, o);
    SameFillsSound(db, Updated(db, o));
  }

  lemma NoticeSound(db: Db, m: Message)
    requires Sound(db) && !m.key.OrderVersion? && !m.payload.OrderState?
    ensures Sound(Enqueued(db, m))
  {
    NoticeKeepsOutbox(db, m);
    SameFillsSound(db, Enqueued(db, m));
  }

  lemma FillSound(db: Db, xf: ExchangeFill, now: int)
    requires Sound(db)
    ensures Sound(IngestFill(db, xf, now).0)
  {
    var located := Locate(db, xf.clientOrderId, xf.exchangeOrderId);
    if IngestFill(db, xf, now).1 {
      LocatedFits(db, xf.clientOrderId, xf.exchangeOrderId);
      var f := FillOf(db.orders[located.value], xf, now);
      FillKeepsOutbox(db, f);
      forall s: Symbol
        ensures Explained(FillRecorded(db, f), s)
      {
        assert Explained(db, s);
        FillKeepsExplained(db, f, s);
      }
    }
  }

  lemma ReportSound(db: Db, r: Report, now: int)
    requires Sound(db)
    ensures Sound(ApplyReport(db, r, now).0)
  {
    var o := ReportIsUpdate(db, r, now);
    if o.Some? {
      UpdateSound(db, o.value);
    }
  }

  lemma EventSound(db: Db, ev: StreamEvent, now: int)
    requires Sound(db)
    ensures Sound(HandleEvent(db, ev, now).0)
  {
    var o := EventIsUpdate(db, ev, now);
    var result := HandleEvent(db, ev, now).1;
    if !result.StreamApplied? {
      NoticeSound(db, Message(ConflictEvent(ev.report.clientOrderId, ev.report.status), Notice));
    } else {
      var marked := MarkProcessed(db, ev.eventKey);
      OtherTablesKeepOutbox(db, marked);
      SameFillsSound(db, marked);
      if o.Some? {
        UpdateSound(marked, o.value);
      }
      var db1 := if o.Some? then Updated(marked, o.value) else marked;
      if ev.fill.Some? {
        FillSound(db1, ev.fill.value, now);
      }
    }
  }

  lemma PositionSound(db: Db, p: PositionRow)
    requires Sound(db) && p.qty >= 0.0
    requires exists gs :: multiset(gs) == multiset(FillsOf(db.fills, p.symbol))
                          && CoreOf(p) == CoreOf(ApplyAll(EmptyPosition(p.symbol), gs))
    ensures Sound(WithPosition(db, p))
  {
    var db' := WithPosition(db, p);
    OtherTablesKeepOutbox(db, db');
    forall s: Symbol
      ensures Explained(db', s)
    {
      if s == p.symbol {
        var gs :| multiset(gs) == multiset(FillsOf(db.fills, p.symbol))
                  && CoreOf(p) == CoreOf(ApplyAll(EmptyPosition(p.symbol), gs));
        assert ExplainedBy(db', s, gs);
      } else {
        assert Explained(db, s);
        var gs :| ExplainedBy(db, s, gs);
        FillsStay(db, db', s, gs);
      }
    }
  }

  lemma PersistSound(db: Db, i: Intent, now: int)
    requires Sound(db)
    ensures Sound(PersistIntent(db, i, now).0)
  {
    if i.id !in db.intents {
      InsertKeepsOutbox(db, i, now);
      SameFillsSound(db, Inserted(db, i, now));
      UpdateSound(Inserted(db, i, now), FreshRow(i, now));
    }
  }

  lemma RejectSound(db: Db, c: ClientOrderId, reason: string, now: int)
    requires Sound(db) && c in db.orders
    ensures Sound(Reject(db, c, reason, now).0)
  {
    var o := RejectIsUpdate(db, c, reason, now);
    if o.Some? {
      UpdateSound(db, o.value);
    }
  }

  lemma FlagSound(db: Db, c: ClientOrderId)
    requires Sound(db) && c in db.orders
    ensures Sound(FlagAmbiguous(db, c))
  {
    var o := FlagIsUpdate(db, c);
    UpdateSound(db, o);
    NoticeSound(Updated(db, o), Message(AmbiguousEvent(c), Notice));
  }

  /** Marks and stops are not part of what the fills explain. */
  lemma SameCoreSound(db: Db, p: PositionRow)
    requires Sound(db) && p.qty >= 0.0 && CoreOf(p) == CoreOf(PositionOf(db, p.symbol))
    ensures Sound(WithPosition(db, p))
  {
    assert Explained(db, p.symbol);
    var gs :| ExplainedBy(db, p.symbol, gs);
    PositionSound(db, p);
  }

  lemma RebuildSound(db: Db, symbol: Symbol)
    requires Sound(db)
    ensures Sound(PositionRebuilt(db, symbol))
  {
    RebuildIsExplained(db, symbol);
    PositionSound(db, Rebuilt(PositionOf(db, symbol), ByTime(FillsOf(db.fills, symbol))));
  }

  lemma TakeReportSound(db: Db, r: Report, now: int)
    requires Sound(db)
    ensures Sound(After(db, Step(TakeReport(r), now)))
  {
    ReportSound(db, r, now);
    var (db1, outcome) := ApplyReport(db, r, now);
    if outcome.Conflict? {
      NoticeSound(db1, Message(ConflictEvent(outcome.order, r.status), Notice));
    }
  }

  lemma OrderStepSound(db: Db, s: Step)
    requires Sound(db) && (s.op.Persist? || s.op.TakeReport? || s.op.Refuse? || s.op.Flag?)
    ensures Sound(After(db, s))
  {
    match s.op {
      case Persist(i) => PersistSound(db, i, s.now);
      case TakeReport(r) => TakeReportSound(db, r, s.now);
      case Refuse(c, reason) => if c in db.orders { RejectSound(db, c, reason, s.now); }
      case Flag(c) => if c in db.orders { FlagSound(db, c); }
    }
  }

  lemma FillStepSound(db: Db, s: Step)
    requires Sound(db) && (s.op.TakeFill? || s.op.TakeEvent?)
    ensures Sound(After(db, s))
  {
    match s.op {
      case TakeFill(xf) => FillSound(db, xf, s.now);
      case TakeEvent(ev) => EventSound(db, ev, s.now);
    }
  }

  lemma MarkSound(db: Db, symbol: Symbol, price: real)
    requires Sound(db)
    ensures Sound(PositionMarked(db, symbol, price))
  {
    SameCoreSound(db, Marked(PositionOf(db, symbol), price));
  }

  lemma StopSound(db: Db, symbol: Symbol, price: real)
    requires Sound(db)
    ensures Sound(StopSet(db, symbol, price))
  {
    SameCoreSound(db, PositionOf(db, symbol).(stop := Some(price)));
  }

  lemma PositionStepSound(db: Db, s: Step)
    requires Sound(db) && (s.op.MarkPosition? || s.op.SetStop? || s.op.RebuildPosition?)
    ensures Sound(After(db, s))
  {
    match s.op {
      case MarkPosition(symbol, price) => MarkSound(db, symbol, price);
      case SetStop(symbol, price) => StopSound(db, symbol, price);
      case RebuildPosition(symbol) => RebuildSound(db, symbol);
    }
  }

  lemma StepSound(db: Db, s: Step)
    requires Sound(db)
    ensures Sound(After(db, s))
  {
    match s.op {
      case TakeFill(_) => FillStepSound(db, s);
      case TakeEvent(_) => FillStepSound(db, s);
      case MarkPosition(_, _) => PositionStepSound(db, s);
      case SetStop(_, _) => PositionStepSound(db, s);
      case RebuildPosition(_) => PositionStepSound(db, s);
      case _ => OrderStepSound(db, s);
    }
  }

  /** Every state any run of the writers commits, from an empty ledger, is sound: no execution is
      recorded twice, every position is the fold of its recorded fills in some order, and the outbox
      holds exactly one truthful message per version of every order. */
  lemma {:induction false} EveryRunIsSound(steps: seq<Step>)
    ensures Sound(Run(EMPTY, steps))
    decreases |steps|
  {
    if steps == [] {
      forall s: Symbol
        ensures Explained(EMPTY, s)
      {
        assert ExplainedBy(EMPTY, s, []);
      }
    } else {
      EveryRunIsSound(steps[..|steps| - 1]);
      StepSound(Run(EMPTY, steps[..|steps| - 1]), steps[|steps| - 1]);
    }
  }
}
