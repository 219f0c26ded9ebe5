/** Two runs from an empty ledger, each of its steps one that the code allows, that sell more than is held: up to a
    live stop everything is as the exposure theorem wants it, and then one thing is trusted that is not so
    (engine/application/trading_cycle.py, engine/application/order_service.py). */
module Episode {
  import opened Common
  import opened OrderModel
  import opened PositionModel
  import opened PositionLaws
  import opened Ledger
  import opened LedgerLaws
  import opened Opening
  import opened Submission
  import opened Attempts
  import opened SellExposure
  import opened CancelLaws
  import opened TradingCycle
  import opened DoubleSale

  // ------------------------------------------------------------------ the two orders and what is said of them

  const BUYING := Decision("x", Entry)
  const GUARDING := StopDecision(Some(2))
  const ENTRY: ClientOrderId := OrderOf(BUYING, 0)
  const STOP: ClientOrderId := OrderOf(GUARDING, 0)
  const HELD: Plan := Plan(2.0, Some(2), None)

  /** One unit of the entry. */
  function Trade(name: string, time: int): ExchangeFill {
    ExchangeFill(name, Some("E"), Some(ENTRY), 1.0, 1.0, 1.0, 0.0, None, time, name)
  }

  function Said(c: ClientOrderId, id: string, status: Status, executed: real): Report {
    Report(c, Some(id), status, executed, executed, None, None)
  }

  lemma Ids()
    ensures ENTRY != STOP && IntentId(BUYING, 0) != IntentId(GUARDING, 0)
    ensures IntentId(Decision(Epoch(Some(2)), Exit), 0) !in {IntentId(BUYING, 0), IntentId(GUARDING, 0)}
    ensures IntentId(StopDecision(Some(1)), 0) !in {IntentId(BUYING, 0), IntentId(GUARDING, 0)}
  {
    var exit, renamed := Decision(Epoch(Some(2)), Exit), StopDecision(Some(1));
    assert Decimal(1) == "1" && Decimal(2) == "2";
    if IntentId(BUYING, 0) == IntentId(GUARDING, 0) {
      IntentIdInjective(BUYING, 0, GUARDING, 0);
    }
    if IntentId(exit, 0) == IntentId(BUYING, 0) {
      IntentIdInjective(exit, 0, BUYING, 0);
    }
    if IntentId(exit, 0) == IntentId(GUARDING, 0) {
      IntentIdInjective(exit, 0, GUARDING, 0);
    }
    if IntentId(renamed, 0) == IntentId(BUYING, 0) {
      IntentIdInjective(renamed, 0, BUYING, 0);
    }
    if IntentId(renamed, 0) == IntentId(GUARDING, 0) {
      IntentIdInjective(renamed, 0, GUARDING, 0);
    }
  }

  /** One more trusted act at the end of a run. */
  lemma {:induction false} ReachesOn(a: World, s: Symbol, acts: seq<Act>, b: World, act: Act)
    requires WellFormed(a.db) && Reaches(a, s, acts, b) && Enabled(b, s, act)
    ensures Reaches(a, s, acts + [act], Next(b, s, act))
    decreases |acts|
  {
    hide Next, Allowed, Trusted;
    if acts == [] {
      assert [act][1..] == [] && acts + [act] == [act];
      assert Reaches(Next(b, s, act), s, [], Next(b, s, act));
    } else {
      ReachesOn(Next(a, s, acts[0]), s, acts[1..], b, act);
      assert (acts + [act])[1..] == acts[1..] + [act];
    }
  }

  // ------------------------------------------------------------------ the entry goes out

  lemma EntrySubmitted(s: Symbol) returns (acts: seq<Act>, w: World)
    ensures Reaches(START, s, acts, w) && w.stage == Entered(ENTRY) && EntryOut(w.db, s)
  {
    acts := [];
    w := START;
    ReachesOn(START, s, acts, w, SeesNothingInFlight);
    acts, w := acts + [SeesNothingInFlight], Next(w, s, SeesNothingInFlight);
    ReachesOn(START, s, acts, w, DecidesEntry("x", 2.0));
    acts, w := acts + [DecidesEntry("x", 2.0)], Next(w, s, DecidesEntry("x", 2.0));
    ReachesOn(START, s, acts, w, LooksAtAttempt);
    acts, w := acts + [LooksAtAttempt], Next(w, s, LooksAtAttempt);
    assert w == World(EMPTY, Chosen(BUYING, Plan(2.0, None, None), 0));
    ReachesOn(START, s, acts, w, Submits(0));
    CreatedTables(EMPTY, OrderIntent(s, BUYING, Plan(2.0, None, None), 0), 0, Next(w, s, Submits(0)).db);
    acts, w := acts + [Submits(0)], Next(w, s, Submits(0));
  }

  ghost predicate EntryOut(db: Db, s: Symbol) {
    && WellFormed(db) && db.orders.Keys == {ENTRY} && db.created == [ENTRY] && db.intents == {IntentId(BUYING, 0)}
    && EntryRow(db.orders[ENTRY], s) && db.orders[ENTRY].status == Submitting && db.orders[ENTRY].executed == 0.0
    && db.orders[ENTRY].exchangeOrderId.None? && db.byExchangeId == map[] && db.fills == [] && db.positions == map[]
  }

  predicate EntryRow(o: OrderRow, s: Symbol) {
    o.clientOrderId == ENTRY && o.symbol == s && o.side == Buy && o.purpose == Entry && o.requested == 2.0
  }

  // ------------------------------------------------------------------ its two executions arrive, the later one first

  function EntryFill(s: Symbol, name: string, time: int): Fill {
    Fill(ENTRY, name, s, Buy, 1.0, 1.0, 1.0, 0.0, None, time, name)
  }

  ghost predicate EntryExecuted(db: Db, s: Symbol) {
    && WellFormed(db) && db.orders.Keys == {ENTRY} && db.created == [ENTRY] && db.intents == {IntentId(BUYING, 0)}
    && EntryRow(db.orders[ENTRY], s) && db.orders[ENTRY].status == Submitting && db.orders[ENTRY].executed == 0.0
    && db.orders[ENTRY].exchangeOrderId.None? && db.byExchangeId == map[]
    && db.fills == [EntryFill(s, "late", 2), EntryFill(s, "early", 1)]
    && PositionOf(db, s).qty == 2.0 && PositionOf(db, s).openedAt == Some(2)
  }

  lemma UnitRecorded(db: Db, s: Symbol, name: string, time: int)
    requires WellFormed(db) && ENTRY in db.orders && EntryRow(db.orders[ENTRY], s) && time != 0
    requires !Recorded(db.fills, EntryFill(s, name, time))
    ensures IngestFill(db, Trade(name, time), 0).0 == FillRecorded(db, EntryFill(s, name, time))
    ensures HonestFill(db, Trade(name, time), 0)
  {
  }

  lemma FillAllowed(w: World, s: Symbol, name: string, time: int)
    requires WellFormed(w.db) && ENTRY in w.db.orders && EntryRow(w.db.orders[ENTRY], s) && time != 0
    requires !Recorded(w.db.fills, EntryFill(s, name, time))
    ensures Enabled(w, s, Other(Step(TakeFill(Trade(name, time)), 0)))
    ensures Next(w, s, Other(Step(TakeFill(Trade(name, time)), 0))) == World(FillRecorded(w.db, EntryFill(s, name, time)), w.stage)
  {
    UnitRecorded(w.db, s, name, time);
  }

  lemma BothFill(db: Db, s: Symbol)
    requires EntryOut(db, s)
    ensures !Recorded(db.fills, EntryFill(s, "late", 2))
    ensures var db1 := FillRecorded(db, EntryFill(s, "late", 2));
            !Recorded(db1.fills, EntryFill(s, "early", 1)) && EntryExecuted(FillRecorded(db1, EntryFill(s, "early", 1)), s)
  {
    var db1 := FillRecorded(db, EntryFill(s, "late", 2));
    assert db1.fills == [EntryFill(s, "late", 2)];
    assert PositionOf(db1, s).qty == 1.0 && PositionOf(db1, s).openedAt == Some(2);
  }

  lemma EntryFills(s: Symbol) returns (acts: seq<Act>, w: World)
    ensures Reaches(START, s, acts, w) && w.stage == Entered(ENTRY) && EntryExecuted(w.db, s)
  {
    acts, w := EntrySubmitted(s);
    BothFill(w.db, s);
    var w1 := World(FillRecorded(w.db, EntryFill(s, "late", 2)), w.stage);
    FillAllowed(w, s, "late", 2);
    FillAllowed(w1, s, "early", 1);
    hide Allowed, Trusted, Next, Reaches, EntryOut, EntryExecuted, FillRecorded;
    ReachesOn(START, s, acts, w, Other(Step(TakeFill(Trade("late", 2)), 0)));
    acts := acts + [Other(Step(TakeFill(Trade("late", 2)), 0))];
    ReachesOn(START, s, acts, w1, Other(Step(TakeFill(Trade("early", 1)), 0)));
    acts, w := acts + [Other(Step(TakeFill(Trade("early", 1)), 0))], World(FillRecorded(w1.db, EntryFill(s, "early", 1)), w.stage);
  }

  // ------------------------------------------------------------------ the entry is reported as filled

  lemma FirstMerge(o: OrderRow, r: Report)
    requires o.status == Submitting && o.exchangeOrderId.None? && o.executed == 0.0 <= r.executedQty
    requires Present(r.exchangeOrderId) && r.status in {New, Filled}
    ensures var m := Merge(o, r, 0);
            && m.Merged? && m.changed
            && m.row == o.(exchangeOrderId := r.exchangeOrderId, status := r.status, executed := r.executedQty,
                           cumQuote := m.row.cumQuote, average := m.row.average, terminalAt := m.row.terminalAt,
                           acknowledgedAt := m.row.acknowledgedAt, lastUpdateMs := m.row.lastUpdateMs, rejectReason := m.row.rejectReason)
  {
  }

  /** The first report of an order, under an id nothing else has. */
  lemma FirstReport(db: Db, c: ClientOrderId, id: string, status: Status, executed: real)
    requires WellFormed(db) && c in db.orders && id != "" && id !in db.byExchangeId
    requires db.orders[c].status == Submitting && db.orders[c].exchangeOrderId.None? && db.orders[c].executed == 0.0 <= executed
    requires status in {New, Filled}
    ensures var db' := After(db, Step(TakeReport(Said(c, id, status, executed)), 0));
            && db'.orders.Keys == db.orders.Keys && db'.orders == db.orders[c := db'.orders[c]]
            && db'.orders[c] == db.orders[c].(exchangeOrderId := Some(id), status := status, executed := executed,
                                  cumQuote := db'.orders[c].cumQuote, average := db'.orders[c].average,
                                  terminalAt := db'.orders[c].terminalAt, acknowledgedAt := db'.orders[c].acknowledgedAt,
                                  lastUpdateMs := db'.orders[c].lastUpdateMs, rejectReason := db'.orders[c].rejectReason,
                                  version := db'.orders[c].version)
            && db'.byExchangeId == db.byExchangeId[id := c] && db'.created == db.created && db'.intents == db.intents
            && db'.fills == db.fills && db'.positions == db.positions
  {
    assert RowFits(db, c);
    FirstMerge(db.orders[c], Said(c, id, status, executed));
    hide Merge;
  }

  ghost predicate EntryDone(db: Db, s: Symbol) {
    && WellFormed(db) && db.orders.Keys == {ENTRY} && db.created == [ENTRY] && db.intents == {IntentId(BUYING, 0)}
    && EntryRow(db.orders[ENTRY], s) && db.orders[ENTRY].status == Filled && db.byExchangeId == map["E" := ENTRY]
    && db.fills == [EntryFill(s, "late", 2), EntryFill(s, "early", 1)]
    && PositionOf(db, s).qty == 2.0 && PositionOf(db, s).openedAt == Some(2)
  }

  lemma EntryReported(db: Db, s: Symbol)
    requires EntryExecuted(db, s)
    ensures EntryDone(After(db, Step(TakeReport(Said(ENTRY, "E", Filled, 2.0)), 0)), s)
    ensures HonestReport(db, Said(ENTRY, "E", Filled, 2.0))
  {
    BothRecorded(s);
    FirstReport(db, ENTRY, "E", Filled, 2.0);
    hide After;
  }

  lemma BothRecorded(s: Symbol)
    ensures RecordedQty([EntryFill(s, "late", 2), EntryFill(s, "early", 1)], ENTRY) == 2.0
    ensures RecordedQty([EntryFill(s, "late", 2), EntryFill(s, "early", 1)], STOP) == 0.0
  {
    Ids();
    assert [] + [EntryFill(s, "late", 2)] == [EntryFill(s, "late", 2)];
    assert [EntryFill(s, "late", 2)] + [EntryFill(s, "early", 1)] == [EntryFill(s, "late", 2), EntryFill(s, "early", 1)];
    RecordedAppend([], EntryFill(s, "late", 2), ENTRY);
    RecordedAppend([], EntryFill(s, "late", 2), STOP);
    RecordedAppend([EntryFill(s, "late", 2)], EntryFill(s, "early", 1), ENTRY);
    RecordedAppend([EntryFill(s, "late", 2)], EntryFill(s, "early", 1), STOP);
  }

  lemma EntryFilled(s: Symbol) returns (acts: seq<Act>, w: World)
    ensures Reaches(START, s, acts, w) && w.stage == Cleared && EntryDone(w.db, s)
  {
    acts, w := EntryFills(s);
    var report := Other(Step(TakeReport(Said(ENTRY, "E", Filled, 2.0)), 0));
    EntryReported(w.db, s);
    ReportAllowed(w, s, Said(ENTRY, "E", Filled, 2.0));
    EntrySeen(World(After(w.db, report.step), w.stage), s);
    hide After, EntryDone, EntryExecuted, Allowed, Trusted, Next, Reaches;
    ReachesOn(START, s, acts, w, report);
    ReachesOn(START, s, acts + [report], Next(w, s, report), SeesEntryFilled);
    acts, w := acts + [report] + [SeesEntryFilled], World(After(w.db, report.step), Cleared);
  }

  lemma EntrySeen(w: World, s: Symbol)
    requires EntryDone(w.db, s) && w.stage == Entered(ENTRY)
    ensures Enabled(w, s, SeesEntryFilled) && Next(w, s, SeesEntryFilled) == World(w.db, Cleared)
  {
  }

  // ------------------------------------------------------------------ the stop is placed and accepted

  ghost predicate StopRow(o: OrderRow, s: Symbol) {
    o.clientOrderId == STOP && o.symbol == s && o.side == Sell && o.purpose == ProtectiveStop && o.requested == 2.0 && o.executed == 0.0
  }

  ghost predicate BothOrders(db: Db, s: Symbol) {
    && WellFormed(db) && db.orders.Keys == {ENTRY, STOP} && db.created == [ENTRY, STOP]
    && db.intents == {IntentId(BUYING, 0), IntentId(GUARDING, 0)}
    && EntryRow(db.orders[ENTRY], s) && db.orders[ENTRY].status == Filled && StopRow(db.orders[STOP], s)
    && db.fills == [EntryFill(s, "late", 2), EntryFill(s, "early", 1)]
    && PositionOf(db, s).qty == 2.0 && PositionOf(db, s).openedAt == Some(2)
  }

  ghost predicate StopOut(db: Db, s: Symbol) {
    && BothOrders(db, s) && db.orders[STOP].status == Submitting && db.orders[STOP].exchangeOrderId.None?
    && db.byExchangeId == map["E" := ENTRY]
  }

  ghost predicate StopLive(db: Db, s: Symbol) {
    && BothOrders(db, s) && db.orders[STOP].status == New && db.orders[STOP].exchangeOrderId == Some("S")
    && db.byExchangeId == map["E" := ENTRY, "S" := STOP]
  }

  lemma StopCreated(db: Db, s: Symbol)
    requires EntryDone(db, s)
    ensures StopOut(PersistIntent(db, OrderIntent(s, GUARDING, HELD, 0), 0).0, s)
  {
    Ids();
    CreatedTables(db, OrderIntent(s, GUARDING, HELD, 0), 0, PersistIntent(db, OrderIntent(s, GUARDING, HELD, 0), 0).0);
  }

  lemma PositionRead(db: Db, s: Symbol)
    requires EntryDone(db, s)
    ensures Enabled(World(db, Cleared), s, ReadsPosition(HELD)) && Enabled(World(db, Holding(HELD)), s, SeesNoStop)
    ensures Next(World(db, Cleared), s, ReadsPosition(HELD)) == World(db, Holding(HELD))
    ensures Next(World(db, Holding(HELD)), s, SeesNoStop) == World(db, Choosing(GUARDING, HELD, 0))
  {
    ExposureOfNothing(db, db.created, None);
  }

  lemma StopChosen(db: Db, s: Symbol)
    requires EntryDone(db, s)
    ensures Enabled(World(db, Choosing(GUARDING, HELD, 0)), s, LooksAtAttempt)
    ensures Enabled(World(db, Chosen(GUARDING, HELD, 0)), s, Submits(0))
    ensures Next(World(db, Choosing(GUARDING, HELD, 0)), s, LooksAtAttempt) == World(db, Chosen(GUARDING, HELD, 0))
    ensures Next(World(db, Chosen(GUARDING, HELD, 0)), s, Submits(0)) == World(PersistIntent(db, OrderIntent(s, GUARDING, HELD, 0), 0).0, Idle)
  {
    Ids();
  }

  lemma StopSubmitted(s: Symbol) returns (acts: seq<Act>, w: World)
    ensures Reaches(START, s, acts, w) && w.stage == Idle && StopOut(w.db, s)
  {
    acts, w := EntryFilled(s);
    var db := w.db;
    PositionRead(db, s);
    StopChosen(db, s);
    StopCreated(db, s);
    assert WellFormed(db);
    hide EntryDone, StopOut, PersistIntent, Allowed, Trusted, Next, Reaches;
    ReachesOn(START, s, acts, World(db, Cleared), ReadsPosition(HELD));
    ReachesOn(START, s, acts + [ReadsPosition(HELD)], World(db, Holding(HELD)), SeesNoStop);
    acts := acts + [ReadsPosition(HELD)] + [SeesNoStop];
    ReachesOn(START, s, acts, World(db, Choosing(GUARDING, HELD, 0)), LooksAtAttempt);
    ReachesOn(START, s, acts + [LooksAtAttempt], World(db, Chosen(GUARDING, HELD, 0)), Submits(0));
    acts, w := acts + [LooksAtAttempt] + [Submits(0)], Next(World(db, Chosen(GUARDING, HELD, 0)), s, Submits(0));
  }

  lemma StopReportedLive(db: Db, s: Symbol)
    requires StopOut(db, s)
    ensures StopLive(After(db, Step(TakeReport(Said(STOP, "S", New, 0.0)), 0)), s)
    ensures HonestReport(db, Said(STOP, "S", New, 0.0))
  {
    Ids();
    FirstReport(db, STOP, "S", New, 0.0);
    hide After;
  }

  lemma StopSeen(db: Db, s: Symbol)
    requires StopLive(db, s)
    ensures Enabled(World(db, Idle), s, SeesNothingInFlight) && Next(World(db, Idle), s, SeesNothingInFlight) == World(db, Cleared)
  {
  }

  /** A trusted run to a live stop for all that is held. */
  lemma StopAccepted(s: Symbol) returns (acts: seq<Act>, w: World)
    ensures Reaches(START, s, acts, w) && w.stage == Cleared && StopLive(w.db, s) && Invariant(w, s)
  {
    acts, w := StopSubmitted(s);
    var report := Other(Step(TakeReport(Said(STOP, "S", New, 0.0)), 0));
    StopReportedLive(w.db, s);
    ReportAllowed(w, s, Said(STOP, "S", New, 0.0));
    StopSeen(After(w.db, report.step), s);
    StartIsSafe(s);
    hide StopOut, StopLive, After, Allowed, Trusted, Reaches, Next, Invariant;
    ReachesOn(START, s, acts, w, report);
    ReachesOn(START, s, acts + [report], Next(w, s, report), SeesNothingInFlight);
    acts, w := acts + [report] + [SeesNothingInFlight], World(Next(w, s, report).db, Cleared);
    RunKeeps(START, s, acts, w);
  }

  lemma ReportAllowed(w: World, s: Symbol, r: Report)
    requires WellFormed(w.db) && HonestReport(w.db, r)
    ensures Enabled(w, s, Other(Step(TakeReport(r), 0)))
    ensures Next(w, s, Other(Step(TakeReport(r), 0))) == World(After(w.db, Step(TakeReport(r), 0)), w.stage)
  {
  }

  lemma StartIsSafe(s: Symbol)
    ensures Invariant(START, s)
  {
  }

  // ------------------------------------------------------------------ and then one thing is trusted that is not so

  lemma StopRecordedNothing(db: Db, s: Symbol)
    requires StopLive(db, s)
    ensures RecordedQty(db.fills, STOP) == 0.0
  {
    BothRecorded(s);
  }

  const HALF_SOLD := Said(STOP, "S", Canceled, 1.0)
  const ALL_SOLD := Said(STOP, "S", Filled, 2.0)
  const SALE: ExchangeFill := ExchangeFill("sold", Some("S"), Some(STOP), 2.0, 1.0, 2.0, 0.0, None, 3, "sold")

  lemma CancelFits(db: Db, s: Symbol)
    requires StopLive(db, s)
    ensures About(db, STOP, Some(HALF_SOLD)) && HonestReport(db, HALF_SOLD) && RecordedQty(db.fills, STOP) < HALF_SOLD.executedQty
    ensures IntentId(Decision(Epoch(PositionOf(db, s).openedAt), Exit), 0) !in db.intents
    ensures PositionOf(db, s).qty > 0.0 && STOP in db.orders && db.orders[STOP].status == New
  {
    StopRecordedNothing(db, s);
    Ids();
  }

  lemma CancelledFromHere(w: World, s: Symbol) returns (more: seq<Act>, w': World)
    requires StopLive(w.db, s) && Invariant(w, s) && w.stage == Cleared
    ensures Runs(w, s, more, w') && Exposure(w'.db) > PositionOf(w'.db, s).qty
  {
    CancelFits(w.db, s);
    assert WellFormed(w.db) && OwnTrades(STOP, Answered([]));
    hide *;
    CancelledExitOversells(w, s, STOP, HALF_SOLD, Answered([]), Exit, 0);
    more := [Other(Step(TakeReport(HALF_SOLD), 0))] + ExitActs(w.db, s, Exit, 0);
    w' :| Runs(w, s, more, w') && Exposure(w'.db) > PositionOf(w'.db, s).qty;
  }

  lemma AcceptedRuns(s: Symbol) returns (acts: seq<Act>, w: World)
    ensures WellFormed(START.db) && Runs(START, s, acts, w) && WellFormed(w.db)
    ensures Invariant(w, s) && w.stage == Cleared && StopLive(w.db, s)
  {
    acts, w := StopAccepted(s);
    hide Runs, Reaches, StopLive, Invariant;
    TrustedRuns(START, s, acts, w);
  }

  /** The exit cancels the stop, which has sold half; the acknowledgement says so, the refresh fails, and the exit
      sells the whole position once more. */
  lemma CancelledExitHappens(s: Symbol)
    ensures exists acts, w :: Runs(START, s, acts, w) && Exposure(w.db) > PositionOf(w.db, s).qty
  {
    hide *;
    var acts, w := AcceptedRuns(s);
    var more, w' := CancelledFromHere(w, s);
    RunsJoin(START, s, acts, w, more, w');
  }

  lemma EarlyComesFirst(s: Symbol)
    ensures ByTime(FillsOf([EntryFill(s, "late", 2), EntryFill(s, "early", 1)], s)) == [EntryFill(s, "early", 1), EntryFill(s, "late", 2)]
  {
    var late, early := EntryFill(s, "late", 2), EntryFill(s, "early", 1);
    FillsOfAppend([], late, s);
    FillsOfAppend([] + [late], early, s);
    assert [] + [late] + [early] == [late, early] == [late] + [early];
    SortsTwo(early, late);
  }

  lemma {:induction false} BuysAreClean(p: PositionRow, fs: seq<Fill>)
    requires p.qty >= 0.0 && forall f | f in fs :: f.side == Buy && Received(f) > 0.0
    ensures Clean(p, fs)
    decreases |fs|
  {
    if fs != [] {
      assert fs[|fs| - 1] in fs && forall f | f in fs[..|fs| - 1] :: f in fs;
      BuysAreClean(p, fs[..|fs| - 1]);
    }
  }

  lemma EarlyOpens(s: Symbol)
    ensures OpenedAt(s, [EntryFill(s, "early", 1), EntryFill(s, "late", 2)]) == Some(1)
  {
    var late, early := EntryFill(s, "late", 2), EntryFill(s, "early", 1);
    assert [early] + [late] == [early, late];
    TwoBuys(s, early, late);
    OpenedByFirst(s, [early, late]);
  }

  lemma ExecutedInOrder(db: Db, s: Symbol)
    requires StopLive(db, s)
    ensures Executed(db, s) == [EntryFill(s, "early", 1), EntryFill(s, "late", 2)]
    ensures Clean(EmptyPosition(s), Executed(db, s)) && OpenedAt(s, Executed(db, s)) == Some(1)
  {
    EarlyComesFirst(s);
    EarlyOpens(s);
    BuysAreClean(EmptyPosition(s), [EntryFill(s, "early", 1), EntryFill(s, "late", 2)]);
    hide Clean, OpenedAt, ByTime, FillsOf;
  }

  lemma StaleFits(db: Db, s: Symbol)
    requires StopLive(db, s)
    ensures StopFills(db, s, STOP, ALL_SOLD, SALE, 0) && PositionOf(db, s).qty == 2.0
    ensures IntentId(StopDecision(Some(1)), 0) !in db.intents
  {
    StopRecordedNothing(db, s);
    Ids();
  }

  lemma StaleStart(s: Symbol) returns (acts: seq<Act>, w: World)
    ensures WellFormed(START.db) && Runs(START, s, acts, w) && WellFormed(w.db) && Invariant(w, s) && w.stage == Cleared
    ensures PositionOf(w.db, s).qty == 2.0 && StopFills(w.db, s, STOP, ALL_SOLD, SALE, 0)
    ensures Clean(EmptyPosition(s), Executed(w.db, s))
    ensures IntentId(StopDecision(OpenedAt(s, Executed(w.db, s))), 0) !in w.db.intents
  {
    hide *;
    acts, w := AcceptedRuns(s);
    StaleFits(w.db, s);
    ExecutedInOrder(w.db, s);
  }

  /** A rebuild renames the position, the stop is filled between two reads of the worker, and another stop goes
      out. */
  lemma StaleReadHappens(s: Symbol)
    ensures exists acts, w :: Runs(START, s, acts, w) && Exposure(w.db) >= 2.0 && PositionOf(w.db, s).qty == 0.0
  {
    hide *;
    var acts, w := StaleStart(s);
    StaleReadOversells(w, s, STOP, ALL_SOLD, SALE, 0);
    var w' :| Runs(w, s, StaleActs(w.db, s, ALL_SOLD, SALE, 0), w') && PositionOf(w'.db, s).qty == 0.0
              && Exposure(w'.db) >= PositionOf(w.db, s).qty;
    RunsJoin(START, s, acts, w, StaleActs(w.db, s, ALL_SOLD, SALE, 0), w');
  }
}
