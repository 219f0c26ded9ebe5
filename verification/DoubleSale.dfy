/** What happens where the trading worker trusts and is wrong: exactly when an exit is safe, and two runs of the
    code's own checks that sell more than is held (engine/application/trading_cycle.py). */
module DoubleSale {
  import opened Common
  import opened OrderModel
  import opened PositionModel
  import opened PositionLaws
  import opened Ledger
  import opened Opening
  import opened Submission
  import opened Attempts
  import opened SellExposure
  import opened CancelLaws
  import opened TradingCycle
  import Sizing

  // ------------------------------------------------------------------ exactly when a full exit is safe

  /** What a SELL order has executed beyond what is on record. */
  function MissingOf(db: Db, c: ClientOrderId): real {
    if c in db.orders && db.orders[c].side == Sell then db.orders[c].executed - RecordedQty(db.fills, c) else 0.0
  }

  function Missing(db: Db, cs: seq<ClientOrderId>): real
    decreases |cs|
  {
    if cs == [] then 0.0 else Missing(db, cs[..|cs| - 1]) + MissingOf(db, cs[|cs| - 1])
  }

  lemma {:induction false} EndedExposure(db: Db, cs: seq<ClientOrderId>)
    requires NothingLive(db)
    ensures ExposureOf(db, cs, None) == Missing(db, cs)
    decreases |cs|
  {
    if cs != [] {
      EndedExposure(db, cs[..|cs| - 1]);
    }
  }

  /** With nothing live, selling the tracked quantity rounded down to whole steps keeps the SELL orders within the
      position exactly when the executions that are not on record fit into the dust the rounding leaves. */
  lemma FullExitSafeExactly(db: Db, s: Symbol, i: Intent, now: int, stepSize: real)
    requires Tidy(db, s) && NothingLive(db) && i.id !in db.intents && i.side == Sell
    requires i.quantity == Sizing.FloorToStep(PositionOf(db, s).qty, stepSize)
    ensures Exposure(PersistIntent(db, i, now).0) <= PositionOf(PersistIntent(db, i, now).0, s).qty
       <==> Missing(db, db.created) <= PositionOf(db, s).qty - Sizing.FloorToStep(PositionOf(db, s).qty, stepSize)
  {
    var db' := PersistIntent(db, i, now).0;
    CreatedTables(db, i, now, db');
    CreatedExposure(db, s, i, now, db');
    EndedExposure(db, db.created);
  }

  // ------------------------------------------------------------------ an attempt that is free

  /** From a decision whose first attempt is free to its order. */
  lemma FirstAttemptRuns(w: World, s: Symbol, d: Decision, plan: Plan, now: int)
    requires WellFormed(w.db) && w.stage == Choosing(d, plan, 0) && !d.purpose.Entry? && IntentId(d, 0) !in w.db.intents
    ensures Runs(w, s, [LooksAtAttempt, Submits(now)], World(PersistIntent(w.db, OrderIntent(s, d, plan, 0), now).0, Idle))
  {
    assert OrderOf(d, 0) in w.db.orders ==> RowFits(w.db, OrderOf(d, 0));
    var chosen := Next(w, s, LooksAtAttempt);
    assert chosen == World(w.db, Chosen(d, plan, 0));
    OneAct(w, s, LooksAtAttempt);
    OneAct(chosen, s, Submits(now));
    RunsJoin(w, s, [LooksAtAttempt], chosen, [Submits(now)], Next(chosen, s, Submits(now)));
    assert [LooksAtAttempt] + [Submits(now)] == [LooksAtAttempt, Submits(now)];
  }

  // ------------------------------------------------------------------ a cancel that is believed

  /** An exit, from the moment no stop is live. */
  function ExitActs(db: Db, s: Symbol, purpose: Purpose, now: int): seq<Act> {
    [SeesStopsDown, ReadsForExit(purpose, PositionOf(db, s).qty)] + [LooksAtAttempt, Submits(now)]
  }

  lemma ExitReadRuns(w: World, s: Symbol, purpose: Purpose)
    requires WellFormed(w.db) && w.stage == Cleared && NoStopLive(w.db) && purpose in {Exit, StopExit} && PositionOf(w.db, s).qty > 0.0
    ensures var p := PositionOf(w.db, s);
            Runs(w, s, [SeesStopsDown, ReadsForExit(purpose, p.qty)],
                 World(w.db, Choosing(Decision(Epoch(p.openedAt), purpose), Plan(p.qty, p.openedAt, None), 0)))
  {
    var read := ReadsForExit(purpose, PositionOf(w.db, s).qty);
    OneAct(w, s, SeesStopsDown);
    RunsOn(w, s, [SeesStopsDown], World(w.db, StopsDown), read);
    assert [SeesStopsDown] + [read] == [SeesStopsDown, read];
  }

  lemma ExitRuns(w: World, s: Symbol, purpose: Purpose, now: int)
    requires Tidy(w.db, s) && w.stage == Cleared && NoStopLive(w.db) && purpose in {Exit, StopExit} && PositionOf(w.db, s).qty > 0.0
    requires IntentId(Decision(Epoch(PositionOf(w.db, s).openedAt), purpose), 0) !in w.db.intents
    ensures exists w' :: Runs(w, s, ExitActs(w.db, s, purpose, now), w')
                         && PositionOf(w'.db, s) == PositionOf(w.db, s)
                         && Exposure(w'.db) == Exposure(w.db) + PositionOf(w.db, s).qty
  {
    var p := PositionOf(w.db, s);
    var d, plan := Decision(Epoch(p.openedAt), purpose), Plan(p.qty, p.openedAt, None);
    var i := OrderIntent(s, d, plan, 0);
    assert i.side == Sell && i.quantity == p.qty;
    var w' := World(PersistIntent(w.db, i, now).0, Idle);
    CreatedTables(w.db, i, now, w'.db);
    assert PositionOf(w'.db, s) == p;
    assert WellFormed(w.db);
    hide Tidy, WellFormed, Created, PersistIntent, Allowed, Next;
    ExitReadRuns(w, s, purpose);
    FirstAttemptRuns(World(w.db, Choosing(d, plan, 0)), s, d, plan, now);
    hide Runs, Exposure, PositionOf, OrderIntent, NoStopLive;
    CreatedExposure(w.db, s, i, now, w'.db);
    RunsJoin(w, s, [SeesStopsDown, ReadsForExit(purpose, p.qty)], World(w.db, Choosing(d, plan, 0)), [LooksAtAttempt, Submits(now)], w');
  }

  /** The live order that a report ends is the only one there was. */
  lemma StopEnds(db: Db, db': Db, s: Symbol, c: ClientOrderId)
    requires Tidy(db, s) && OneLiveSell(db) && OnlyStopsLive(db) && Moves(db, db', s)
    requires c in db.orders && Live(db.orders[c]) && Terminal(db'.orders[c].status)
    ensures NothingLive(db')
  {
    forall x | x in db'.orders
      ensures !Live(db'.orders[x])
    {
      assert SellFits(db, s, x) && SellFits(db, s, c);
      if Live(db'.orders[x]) {
        LiveMoves(db, db', s, x);
      }
    }
  }

  lemma ExposureOfOne(db: Db, s: Symbol, c: ClientOrderId)
    requires Tidy(db, s) && c in db.orders
    ensures Unsold(db, c) <= Exposure(db)
  {
    SafeClaims(db, s);
    assert RowFits(db, c);
    ClaimWithin(db, db.created, None, c);
  }

  /** A stop is live. The exit cancels it; the acknowledgement names executions that are not on record, the refresh
      cannot reach the exchange, and the cancel returns the order as ended. The exit goes on: its order claims the
      whole position once more, and the SELL orders together claim more than is held. The quantity is the tracked one,
      which is what the exit sells when it is a whole number of steps and accepted by the exchange rules. */
  lemma CancelledExitOversells(w: World, s: Symbol, c: ClientOrderId, r: Report, fills: Reach<seq<ExchangeFill>>,
                               purpose: Purpose, now: int)
    requires Invariant(w, s) && w.stage == Cleared && purpose in {Exit, StopExit} && PositionOf(w.db, s).qty > 0.0
    requires c in w.db.orders && w.db.orders[c].status in {New, PartiallyFilled}
    requires About(w.db, c, Some(r)) && r.status == Canceled && OwnTrades(c, fills) && HonestReport(w.db, r)
    requires RecordedQty(w.db.fills, c) < r.executedQty
    requires IntentId(Decision(Epoch(PositionOf(w.db, s).openedAt), purpose), 0) !in w.db.intents
    ensures Cancelled(w.db, c, Some(r), Unreachable, fills, now) == (After(w.db, Step(TakeReport(r), now)), Returned)
    ensures exists w' :: Runs(w, s, [Other(Step(TakeReport(r), now))] + ExitActs(w.db, s, purpose, now), w')
                         && Exposure(w'.db) > PositionOf(w'.db, s).qty
  {
    assert SellFits(w.db, s, c) && w.db.orders[c].purpose.ProtectiveStop?;
    CancelLeavesUnrecorded(w.db, c, r, fills, now);
    var w1 := World(After(w.db, Step(TakeReport(r), now)), Cleared);
    CancelMoves(w.db, s, c, r, now);
    MovesTidy(w.db, w1.db, s);
    StopEnds(w.db, w1.db, s, c);
    ExposureOfOne(w1.db, s, c);
    assert RowMoves(w.db, w1.db, c);
    ExitRuns(w1, s, purpose, now);
    var acts := ExitActs(w1.db, s, purpose, now);
    var w' :| Runs(w1, s, acts, w') && PositionOf(w'.db, s) == PositionOf(w1.db, s)
              && Exposure(w'.db) == Exposure(w1.db) + PositionOf(w1.db, s).qty;
    OneAct(w, s, Other(Step(TakeReport(r), now)));
    RunsJoin(w, s, [Other(Step(TakeReport(r), now))], w1, acts, w');
  }

  lemma CancelMoves(db: Db, s: Symbol, c: ClientOrderId, r: Report, now: int)
    requires WellFormed(db) && c in db.orders && db.orders[c].status in {New, PartiallyFilled}
    requires r.clientOrderId == c && r.status == Canceled && HonestReport(db, r)
    ensures After(db, Step(TakeReport(r), now)) == ReportTaken(db, r, now).0
    ensures Moves(db, ReportTaken(db, r, now).0, s) && ReportTaken(db, r, now).0.positions == db.positions
  {
    OrderStepMoves(db, Step(TakeReport(r), now), s);
  }

  // ------------------------------------------------------------------ a rebuild that renames the position

  /** A live stop for the whole position, and what the exchange has to say about its end. */
  ghost predicate StopFills(db: Db, s: Symbol, c: ClientOrderId, r: Report, xf: ExchangeFill, now: int)
    requires WellFormed(db)
  {
    var q := PositionOf(db, s).qty;
    && c in db.orders && db.orders[c].side == Sell && db.orders[c].status == New && db.orders[c].requested == q
    && RecordedQty(db.fills, c) == 0.0
    && About(db, c, Some(r)) && r.status == Filled && r.executedQty == q && HonestReport(db, r)
    && xf.clientOrderId == Some(c) && xf.qty == q && xf.commissionAsset != Some(s.base)
    && !Recorded(db.fills, FillOf(db.orders[c], xf, now))
  }

  lemma StopReported(db: Db, s: Symbol, c: ClientOrderId, r: Report, xf: ExchangeFill, now: int)
    requires Tidy(db, s) && OneLiveSell(db) && OnlyStopsLive(db) && StopFills(db, s, c, r, xf, now)
    ensures var db' := After(db, Step(TakeReport(r), now));
            && Tidy(db', s) && NothingLive(db') && Moves(db, db', s) && c in db'.orders
            && db'.orders[c].side == Sell && db'.orders[c].executed == PositionOf(db, s).qty && db'.orders[c].symbol == s
            && SameKeysAs(db, db', c)
  {
    OrderStepMoves(db, Step(TakeReport(r), now), s);
    ReportLands(db, c, r, now);
    KnownRow(db.orders[c], r, now);
    SameNaming(db.orders[c], Some(r), now);
    var db' := After(db, Step(TakeReport(r), now));
    assert SellFits(db, s, c);
    MovesTidy(db, db', s);
    StopEnds(db, db', s, c);
  }

  ghost predicate SameKeysAs(db: Db, db': Db, c: ClientOrderId) {
    c in db.orders && c in db'.orders && db'.orders[c].clientOrderId == db.orders[c].clientOrderId
  }

  lemma StopFilled(db: Db, s: Symbol, c: ClientOrderId, xf: ExchangeFill, now: int)
    requires Tidy(db, s) && NothingLive(db) && c in db.orders && db.orders[c].side == Sell && db.orders[c].symbol == s
    requires xf.clientOrderId == Some(c) && xf.qty == PositionOf(db, s).qty == db.orders[c].executed && xf.qty >= 0.0
    requires xf.commissionAsset != Some(s.base) && RecordedQty(db.fills, c) == 0.0
    requires !Recorded(db.fills, FillOf(db.orders[c], xf, now))
    ensures var db' := After(db, Step(TakeFill(xf), now));
            && Tidy(db', s) && NothingLive(db') && db'.intents == db.intents && PositionOf(db', s).qty == 0.0
  {
    hide After, IngestFill, FillRecorded, Tidy, Lands, WellFormed, Recorded, RecordedQty, Apply;
    StopRecorded(db, s, c, xf, now);
    var f := FillOf(db.orders[c], xf, now);
    FillTidy(db, f, s);
    SellMovesPosition(PositionOf(db, s), f);
  }

  lemma StopRecorded(db: Db, s: Symbol, c: ClientOrderId, xf: ExchangeFill, now: int)
    requires Tidy(db, s) && NothingLive(db) && c in db.orders && db.orders[c].side == Sell && db.orders[c].symbol == s
    requires xf.clientOrderId == Some(c) && xf.qty == db.orders[c].executed && xf.qty >= 0.0
    requires xf.commissionAsset != Some(s.base) && RecordedQty(db.fills, c) == 0.0
    requires !Recorded(db.fills, FillOf(db.orders[c], xf, now))
    ensures var f := FillOf(db.orders[c], xf, now);
            WellFormed(db) && After(db, Step(TakeFill(xf), now)) == FillRecorded(db, f) && Lands(db, f, s)
  {
    assert RowFits(db, c);
    StopIngested(db, c, xf, now);
    hide After, FillRecorded, WellFormed, RowFits;
  }

  lemma StopIngested(db: Db, c: ClientOrderId, xf: ExchangeFill, now: int)
    requires WellFormed(db) && c in db.orders && xf.clientOrderId == Some(c)
    requires !Recorded(db.fills, FillOf(db.orders[c], xf, now))
    ensures After(db, Step(TakeFill(xf), now)) == FillRecorded(db, FillOf(db.orders[c], xf, now))
  {
    hide WellFormed, FillRecorded, Recorded;
  }

  /** What the ledger goes through: rebuilt, then the stop reported as filled, then its execution recorded. */
  function RebuiltDb(db: Db, s: Symbol, now: int): (db': Db)
    requires WellFormed(db)
    ensures WellFormed(db')
  {
    After(db, Step(RebuildPosition(s), now))
  }

  function ReportedDb(db: Db, s: Symbol, r: Report, now: int): (db': Db)
    requires WellFormed(db)
    ensures WellFormed(db')
  {
    After(RebuiltDb(db, s, now), Step(TakeReport(r), now))
  }

  function SoldDb(db: Db, s: Symbol, r: Report, xf: ExchangeFill, now: int): (db': Db)
    requires WellFormed(db)
    ensures WellFormed(db')
  {
    After(ReportedDb(db, s, r, now), Step(TakeFill(xf), now))
  }

  lemma StopSells(db: Db, s: Symbol, c: ClientOrderId, r: Report, xf: ExchangeFill, now: int)
    requires Tidy(db, s) && OneLiveSell(db) && OnlyStopsLive(db) && StopFills(db, s, c, r, xf, now)
    ensures var db' := After(After(db, Step(TakeReport(r), now)), Step(TakeFill(xf), now));
            Tidy(db', s) && NothingLive(db') && db'.intents == db.intents && PositionOf(db', s).qty == 0.0
  {
    StopReported(db, s, c, r, xf, now);
    var db2 := After(db, Step(TakeReport(r), now));
    SameRecordedKeys(db.fills, FillOf(db.orders[c], xf, now), FillOf(db2.orders[c], xf, now));
    hide Tidy, NothingLive, OnlyStopsLive, After;
    StopFilled(db2, s, c, xf, now);
  }

  /** What the exchange has to say about the stop does not depend on the position's opening time. */
  lemma StopStillFills(db: Db, db': Db, s: Symbol, c: ClientOrderId, r: Report, xf: ExchangeFill, now: int)
    requires WellFormed(db) && WellFormed(db') && StopFills(db, s, c, r, xf, now)
    requires db'.orders == db.orders && db'.fills == db.fills && db'.byExchangeId == db.byExchangeId
    requires PositionOf(db', s).qty == PositionOf(db, s).qty
    ensures StopFills(db', s, c, r, xf, now)
  {
  }

  lemma SoldBySteps(db: Db, s: Symbol, r: Report, xf: ExchangeFill, now: int)
    requires WellFormed(db)
    ensures RebuiltDb(db, s, now) == PositionRebuilt(db, s)
    ensures SoldDb(db, s, r, xf, now) == After(After(RebuiltDb(db, s, now), Step(TakeReport(r), now)), Step(TakeFill(xf), now))
  {
    assert After(db, Step(RebuildPosition(s), now)) == PositionRebuilt(db, s);
    hide After;
  }

  lemma StaleTables(db: Db, s: Symbol, c: ClientOrderId, r: Report, xf: ExchangeFill, now: int)
    requires Safe(db, s) && OnlyStopsLive(db) && PositionOf(db, s).qty > 0.0
    requires StopFills(db, s, c, r, xf, now) && Clean(EmptyPosition(s), Executed(db, s))
    ensures ReadsPositionOf(RebuiltDb(db, s, now), s, Plan(PositionOf(db, s).qty, OpenedAt(s, Executed(db, s)), None))
    ensures var db3 := SoldDb(db, s, r, xf, now);
            Tidy(db3, s) && NothingLive(db3) && db3.intents == db.intents && PositionOf(db3, s).qty == 0.0
  {
    SoldBySteps(db, s, r, xf, now);
    hide Safe, Clean, OpenedAt, Executed, After, RebuiltDb, SoldDb, PositionRebuilt, NothingLive, StopFills;
    RebuildRenames(db, s);
    StopStillFills(db, RebuiltDb(db, s, now), s, c, r, xf, now);
    StopSells(RebuiltDb(db, s, now), s, c, r, xf, now);
  }

  lemma StaleActsRun(w: World, s: Symbol, r: Report, xf: ExchangeFill, now: int)
    requires WellFormed(w.db) && w.stage == Cleared
    requires ReadsPositionOf(RebuiltDb(w.db, s, now), s, Plan(PositionOf(w.db, s).qty, OpenedAt(s, Executed(w.db, s)), None))
    requires NothingLive(SoldDb(w.db, s, r, xf, now))
    ensures var plan := Plan(PositionOf(w.db, s).qty, OpenedAt(s, Executed(w.db, s)), None);
            Runs(w, s, ReadActs(w.db, s, r, xf, now), World(SoldDb(w.db, s, r, xf, now), Choosing(StopDecision(plan.since), plan, 0)))
  {
    hide After, OpenedAt, Executed;
    var plan := Plan(PositionOf(w.db, s).qty, OpenedAt(s, Executed(w.db, s)), None);
    var rebuilt, report, fill := Other(Step(RebuildPosition(s), now)), Other(Step(TakeReport(r), now)), Other(Step(TakeFill(xf), now));
    var w1 := World(RebuiltDb(w.db, s, now), Cleared);
    OneAct(w, s, rebuilt);
    RunsOn(w, s, [rebuilt], w1, ReadsPosition(plan));
    RunsOn(w, s, [rebuilt] + [ReadsPosition(plan)], World(w1.db, Holding(plan)), report);
    RunsOn(w, s, [rebuilt] + [ReadsPosition(plan)] + [report], World(ReportedDb(w.db, s, r, now), Holding(plan)), fill);
    RunsOn(w, s, [rebuilt] + [ReadsPosition(plan)] + [report] + [fill], World(SoldDb(w.db, s, r, xf, now), Holding(plan)), SeesNoStop);
  }

  /** A stop for the whole position is live, and a rebuild gives the position another opening time. The worker reads
      the position; before it lists the live stops, the stop is filled and recorded. No stop is live then, the name
      it looks under is free, and a second stop for the whole quantity goes out against nothing. */
  lemma StaleReadOversells(w: World, s: Symbol, c: ClientOrderId, r: Report, xf: ExchangeFill, now: int)
    requires Invariant(w, s) && w.stage == Cleared && PositionOf(w.db, s).qty > 0.0
    requires StopFills(w.db, s, c, r, xf, now) && Clean(EmptyPosition(s), Executed(w.db, s))
    requires IntentId(StopDecision(OpenedAt(s, Executed(w.db, s))), 0) !in w.db.intents
    ensures exists w' :: Runs(w, s, StaleActs(w.db, s, r, xf, now), w')
                         && PositionOf(w'.db, s).qty == 0.0 && Exposure(w'.db) >= PositionOf(w.db, s).qty
  {
    assert WellFormed(w.db);
    hide Clean, StopFills, Executed, OpenedAt, Runs, Tidy, NothingLive, After, SoldDb, Next;
    var plan := Plan(PositionOf(w.db, s).qty, OpenedAt(s, Executed(w.db, s)), None);
    StaleTables(w.db, s, c, r, xf, now);
    StaleActsRun(w, s, r, xf, now);
    var w5 := World(SoldDb(w.db, s, r, xf, now), Choosing(StopDecision(plan.since), plan, 0));
    StaleStopRuns(w5, s, plan, now);
    var w' :| Runs(w5, s, [LooksAtAttempt, Submits(now)], w') && PositionOf(w'.db, s) == PositionOf(w5.db, s)
              && Exposure(w'.db) >= plan.qty;
    RunsJoin(w, s, ReadActs(w.db, s, r, xf, now), w5, [LooksAtAttempt, Submits(now)], w');
  }

  function ReadActs(db: Db, s: Symbol, r: Report, xf: ExchangeFill, now: int): seq<Act>
    requires WellFormed(db)
  {
    [Other(Step(RebuildPosition(s), now))] + [ReadsPosition(Plan(PositionOf(db, s).qty, OpenedAt(s, Executed(db, s)), None))]
    + [Other(Step(TakeReport(r), now))] + [Other(Step(TakeFill(xf), now))] + [SeesNoStop]
  }

  function StaleActs(db: Db, s: Symbol, r: Report, xf: ExchangeFill, now: int): seq<Act>
    requires WellFormed(db)
  {
    ReadActs(db, s, r, xf, now) + [LooksAtAttempt, Submits(now)]
  }

  lemma SameRecordedKeys(fills: seq<Fill>, f: Fill, g: Fill)
    requires f.order == g.order && f.tradeId == g.tradeId && f.eventKey == g.eventKey
    ensures Recorded(fills, f) == Recorded(fills, g)
  {
    assert forall h | h in fills :: SameExecution(f, h) == SameExecution(g, h);
  }

  lemma StaleStopRuns(w: World, s: Symbol, plan: Plan, now: int)
    requires Tidy(w.db, s) && w.stage == Choosing(StopDecision(plan.since), plan, 0)
    requires IntentId(StopDecision(plan.since), 0) !in w.db.intents
    ensures exists w' :: Runs(w, s, [LooksAtAttempt, Submits(now)], w') && PositionOf(w'.db, s) == PositionOf(w.db, s)
                         && Exposure(w'.db) >= plan.qty
  {
    var i := OrderIntent(s, StopDecision(plan.since), plan, 0);
    FirstAttemptRuns(w, s, StopDecision(plan.since), plan, now);
    var w' := World(PersistIntent(w.db, i, now).0, Idle);
    CreatedTables(w.db, i, now, w'.db);
    CreatedExposure(w.db, s, i, now, w'.db);
    SafeClaims(w.db, s);
    ExposureNonNegative(w.db, w.db.created, None);
  }
}
