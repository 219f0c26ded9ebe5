/** What the trading worker's own checks are enough for, whatever the exchange, the other writers and the rebuilds do:
    attempts follow one another, and one SELL order is live at a time (engine/application/trading_cycle.py). */
module Discipline {
  import opened Common
  import opened OrderModel
  import opened Ledger
  import opened LedgerLaws
  import opened Attempts
  import opened SellExposure
  import opened TradingCycle

  // ------------------------------------------------------------------ attempts that are over

  /** The attempt has ended other than by being filled; `empty` asks besides that it has executed nothing. */
  predicate Over(db: Db, d: Decision, j: nat, empty: bool)
    requires j < 10
  {
    && OrderOf(d, j) in db.orders
    && db.orders[OrderOf(d, j)].status in {Rejected, Canceled, Expired}
    && (empty ==> db.orders[OrderOf(d, j)].executed == 0.0)
  }

  predicate OverBelow(db: Db, d: Decision, k: nat, empty: bool)
    requires k <= 10
  {
    forall j | 0 <= j < k :: Over(db, d, j, empty)
  }

  /** No report says of an order that has ended that more was executed than is known. */
  ghost predicate FinalReport(db: Db, r: Report)
    requires WellFormed(db)
  {
    var located := Locate(db, Some(r.clientOrderId), r.exchangeOrderId);
    located.Some? && located.value in db.orders && Terminal(db.orders[located.value].status) ==>
      r.executedQty <= db.orders[located.value].executed
  }

  ghost predicate FinalStep(db: Db, step: Step)
    requires WellFormed(db)
  {
    match step.op
    case TakeReport(r) => FinalReport(db, r)
    case TakeEvent(ev) => FinalReport(db, ev.report)
    case _ => true
  }

  lemma FinalReportKeeps(db: Db, r: Report, now: int, c: ClientOrderId)
    requires WellFormed(db) && FinalReport(db, r) && c in db.orders && Terminal(db.orders[c].status)
    ensures var db' := ApplyReport(db, r, now).0; c in db'.orders && db'.orders[c].executed == db.orders[c].executed
  {
    var located := Locate(db, Some(r.clientOrderId), r.exchangeOrderId);
    if located.Some? {
      LocatedFits(db, Some(r.clientOrderId), r.exchangeOrderId);
      MergeMoves(db.orders[located.value], r, now);
    }
  }

  lemma FinalEventKeeps(db: Db, ev: StreamEvent, now: int, c: ClientOrderId)
    requires WellFormed(db) && FinalReport(db, ev.report) && c in db.orders && Terminal(db.orders[c].status)
    ensures var db' := HandleEvent(db, ev, now).0; c in db'.orders && db'.orders[c].executed == db.orders[c].executed
  {
    FinalReportKeeps(MarkProcessed(db, ev.eventKey), ev.report, now, c);
    hide ApplyReport, Terminal;
  }

  lemma OthersKeepExecuted(db: Db, step: Step, c: ClientOrderId)
    requires WellFormed(db) && c in db.orders && !step.op.Persist? && !step.op.TakeReport? && !step.op.TakeEvent?
    ensures var db' := After(db, step); c in db'.orders && db'.orders[c].executed == db.orders[c].executed
  {
    assert RowFits(db, c);
    if step.op.Refuse? && step.op.order in db.orders {
      assert RowFits(db, step.op.order);
    } else if step.op.Flag? && step.op.order in db.orders {
      assert RowFits(db, step.op.order);
    }
  }

  lemma FinalStepKeeps(db: Db, step: Step, c: ClientOrderId)
    requires WellFormed(db) && FinalStep(db, step) && !step.op.Persist? && c in db.orders && Terminal(db.orders[c].status)
    ensures var db' := After(db, step); c in db'.orders && db'.orders[c].executed == db.orders[c].executed
  {
    hide ApplyReport, HandleEvent, FinalReport;
    match step.op {
      case TakeReport(r) => FinalReportKeeps(db, r, step.now, c);
      case TakeEvent(ev) => FinalEventKeeps(db, ev, step.now, c);
      case _ => OthersKeepExecuted(db, step, c);
    }
  }

  /** What is over stays over, without any trust; and empty, where reports on ended orders are final. */
  lemma OverStays(db: Db, step: Step, d: Decision, j: nat, empty: bool)
    requires WellFormed(db) && !step.op.Persist? && j < 10 && Over(db, d, j, empty)
    requires empty ==> FinalStep(db, step)
    ensures Over(After(db, step), d, j, empty)
  {
    var c := OrderOf(d, j);
    StepAdvances(db, step);
    if empty {
      FinalStepKeeps(db, step, c);
    }
    hide After;
    assert c in db.orders;
  }

  // ------------------------------------------------------------------ one attempt after the other

  ghost predicate InTurn(db: Db, d: Decision, k: nat, empty: bool)
    requires k < 10
  {
    IntentId(d, k) in db.intents ==> k < MaxAttempts(d.purpose) && OverBelow(db, d, k, empty)
  }

  ghost predicate AllInTurn(db: Db, empty: bool) {
    forall d, k: nat {:trigger InTurn(db, d, k, empty)} | k < 10 :: InTurn(db, d, k, empty)
  }

  /** The worker has looked at every attempt below the one it stands at. */
  ghost predicate StageInTurn(db: Db, stage: Stage, empty: bool) {
    match stage
    case Choosing(d, _, k) => k <= MaxAttempts(d.purpose) && OverBelow(db, d, k, empty)
    case Chosen(d, _, k) => k < MaxAttempts(d.purpose) && OverBelow(db, d, k, empty)
    case _ => true
  }

  lemma OverBelowStays(db: Db, step: Step, d: Decision, k: nat, empty: bool)
    requires WellFormed(db) && !step.op.Persist? && k <= 10 && OverBelow(db, d, k, empty)
    requires empty ==> FinalStep(db, step)
    ensures OverBelow(After(db, step), d, k, empty)
  {
    hide Over, After;
    forall j | 0 <= j < k
      ensures Over(After(db, step), d, j, empty)
    {
      OverStays(db, step, d, j, empty);
    }
  }

  lemma OtherInTurn(w: World, s: Symbol, step: Step, empty: bool)
    requires WellFormed(w.db) && AllInTurn(w.db, empty) && StageInTurn(w.db, w.stage, empty) && !step.op.Persist?
    requires empty ==> FinalStep(w.db, step)
    ensures AllInTurn(After(w.db, step), empty) && StageInTurn(After(w.db, step), w.stage, empty)
  {
    StepKeepsNames(w.db, step);
    hide After, OverBelow, FinalStep;
    forall d, k: nat | k < 10
      ensures InTurn(After(w.db, step), d, k, empty)
    {
      assert InTurn(w.db, d, k, empty);
      if IntentId(d, k) in w.db.intents {
        OverBelowStays(w.db, step, d, k, empty);
      }
    }
    match w.stage {
      case Choosing(d, _, k) => OverBelowStays(w.db, step, d, k, empty);
      case Chosen(d, _, k) => OverBelowStays(w.db, step, d, k, empty);
      case _ =>
    }
  }

  lemma CreatedInTurn(db: Db, s: Symbol, d: Decision, plan: Plan, k: nat, now: int, db': Db, empty: bool, e: Decision, j: nat)
    requires AllInTurn(db, empty) && k < MaxAttempts(d.purpose) && OverBelow(db, d, k, empty) && j < 10
    requires Created(db, OrderIntent(s, d, plan, k), now, db')
    ensures InTurn(db', e, j, empty)
  {
    CreatedTables(db, OrderIntent(s, d, plan, k), now, db');
    assert InTurn(db, e, j, empty);
    if IntentId(e, j) == IntentId(d, k) {
      IntentIdInjective(e, j, d, k);
    }
    assert forall x: nat | x < 10 :: Over(db, e, x, empty) ==> Over(db', e, x, empty);
  }

  lemma SubmitInTurn(w: World, s: Symbol, now: int, empty: bool)
    requires WellFormed(w.db) && AllInTurn(w.db, empty) && StageInTurn(w.db, w.stage, empty) && Allowed(w, s, Submits(now))
    ensures AllInTurn(Next(w, s, Submits(now)).db, empty)
  {
    var (d, plan, k) := (w.stage.decision, w.stage.plan, w.stage.attempt);
    var i := OrderIntent(s, d, plan, k);
    var db' := PersistIntent(w.db, i, now).0;
    if i.id !in w.db.intents {
      hide PersistIntent, OverBelow;
      forall e, j: nat | j < 10
        ensures InTurn(db', e, j, empty)
      {
        CreatedInTurn(w.db, s, d, plan, k, now, db', empty, e, j);
      }
    }
  }

  lemma StepInTurn(w: World, s: Symbol, a: Act, empty: bool)
    requires WellFormed(w.db) && AllInTurn(w.db, empty) && StageInTurn(w.db, w.stage, empty) && Allowed(w, s, a)
    requires empty && a.Other? ==> FinalStep(w.db, a.step)
    ensures AllInTurn(Next(w, s, a).db, empty) && StageInTurn(Next(w, s, a).db, Next(w, s, a).stage, empty)
  {
    hide After, PersistIntent, AllInTurn, FinalStep;
    match a {
      case Other(step) => OtherInTurn(w, s, step, empty);
      case Submits(now) => SubmitInTurn(w, s, now, empty);
      case _ =>
    }
  }

  /** A run in which no report says of an order that has ended that more was executed than is known. */
  ghost predicate ReportsFinal(w: World, s: Symbol, acts: seq<Act>)
    requires WellFormed(w.db)
    decreases |acts|
  {
    acts != [] && Allowed(w, s, acts[0]) ==>
      && (acts[0].Other? ==> FinalStep(w.db, acts[0].step))
      && ReportsFinal(Next(w, s, acts[0]), s, acts[1..])
  }

  lemma {:induction false} RunInTurn(w: World, s: Symbol, acts: seq<Act>, w': World, empty: bool)
    requires WellFormed(w.db) && AllInTurn(w.db, empty) && StageInTurn(w.db, w.stage, empty)
    requires Runs(w, s, acts, w') && (empty ==> ReportsFinal(w, s, acts))
    ensures WellFormed(w'.db) && AllInTurn(w'.db, empty)
    decreases |acts|
  {
    hide Next, AllInTurn, StageInTurn, Allowed;
    if acts != [] {
      StepInTurn(w, s, acts[0], empty);
      RunInTurn(Next(w, s, acts[0]), s, acts[1..], w', empty);
    }
  }

  lemma OrderInTurn(db: Db, d: Decision, k: nat, empty: bool)
    requires WellFormed(db) && AllInTurn(db, empty) && k < 10 && OrderOf(d, k) in db.orders
    ensures k < MaxAttempts(d.purpose) && OverBelow(db, d, k, empty)
  {
    assert RowFits(db, OrderOf(d, k));
    assert InTurn(db, d, k, empty);
  }

  lemma StartInTurn(empty: bool)
    ensures WellFormed(START.db) && AllInTurn(START.db, empty) && StageInTurn(START.db, START.stage, empty)
  {
  }

  /** In every run of the worker's own checks a decision has at most one order, or three if it is not an entry, and each
      attempt has an order only after all earlier ones have ended as rejected, canceled or expired. */
  lemma AttemptsFollowEnded(s: Symbol, acts: seq<Act>, w: World, d: Decision, k: nat)
    requires Runs(START, s, acts, w) && k < 10 && OrderOf(d, k) in w.db.orders
    ensures k < (if d.purpose == Entry then 1 else 3)
    ensures forall j: nat | j < k :: OrderOf(d, j) in w.db.orders && w.db.orders[OrderOf(d, j)].status in {Rejected, Canceled, Expired}
  {
    StartInTurn(false);
    RunInTurn(START, s, acts, w, false);
    OrderInTurn(w.db, d, k, false);
    hide Runs;
    forall j: nat | j < k
      ensures OrderOf(d, j) in w.db.orders && w.db.orders[OrderOf(d, j)].status in {Rejected, Canceled, Expired}
    {
      assert Over(w.db, d, j, false);
    }
  }

  /** Where, besides, reports on ended orders carry final quantities, the earlier attempts have executed nothing, so at
      most one attempt of a decision has executed anything. */
  lemma RetriesAreDisciplined(s: Symbol, acts: seq<Act>, w: World, d: Decision, k: nat)
    requires Runs(START, s, acts, w) && ReportsFinal(START, s, acts) && k < 10 && OrderOf(d, k) in w.db.orders
    ensures k < (if d.purpose == Entry then 1 else 3) && SpentBelow(w.db, d, k)
    ensures forall j: nat | j < 10 && j != k && OrderOf(d, j) in w.db.orders ::
              w.db.orders[OrderOf(d, j)].executed == 0.0 || w.db.orders[OrderOf(d, k)].executed == 0.0
  {
    StartInTurn(true);
    RunInTurn(START, s, acts, w, true);
    OrderInTurn(w.db, d, k, true);
    hide Runs, ReportsFinal, AllInTurn, WellFormed;
    forall j | 0 <= j < k
      ensures Spent(w.db, d, j)
    {
      assert Over(w.db, d, j, true);
    }
    forall j: nat | j < 10 && j != k && OrderOf(d, j) in w.db.orders
      ensures w.db.orders[OrderOf(d, j)].executed == 0.0 || w.db.orders[OrderOf(d, k)].executed == 0.0
    {
      OrderInTurn(w.db, d, j, true);
      hide OrderOf;
      assert j < k ==> Over(w.db, d, j, true);
      assert k < j ==> Over(w.db, d, k, true);
    }
  }

  /** Trusted runs are such runs. */
  lemma {:induction false} TrustedReportsFinal(w: World, s: Symbol, acts: seq<Act>, w': World)
    requires WellFormed(w.db) && Reaches(w, s, acts, w')
    ensures ReportsFinal(w, s, acts)
    decreases |acts|
  {
    if acts != [] {
      if acts[0].Other? {
        HonestIsFinal(w, s, acts[0]);
      }
      hide Next, Allowed, Trusted, FinalStep;
      TrustedReportsFinal(Next(w, s, acts[0]), s, acts[1..], w');
    }
  }

  lemma HonestIsFinal(w: World, s: Symbol, a: Act)
    requires WellFormed(w.db) && Trusted(w, s, a) && a.Other?
    ensures FinalStep(w.db, a.step)
  {
  }

  /** So in every state of a trusted run too. */
  lemma TrustedRetriesAreDisciplined(s: Symbol, acts: seq<Act>, w: World, d: Decision, k: nat)
    requires Reaches(START, s, acts, w) && k < 10 && OrderOf(d, k) in w.db.orders
    ensures k < (if d.purpose == Entry then 1 else 3) && SpentBelow(w.db, d, k)
    ensures forall j: nat | j < 10 && j != k && OrderOf(d, j) in w.db.orders ::
              w.db.orders[OrderOf(d, j)].executed == 0.0 || w.db.orders[OrderOf(d, k)].executed == 0.0
  {
    TrustedRuns(START, s, acts, w);
    TrustedReportsFinal(START, s, acts, w);
    RetriesAreDisciplined(s, acts, w, d, k);
  }

  /** It is needed: a report that names executions of an ended attempt, of the status it has, makes it one that has
      executed, whatever came after it; and nothing else the exchange may say of it does. */
  lemma EmptyStaysExactly(db: Db, d: Decision, j: nat, r: Report, now: int)
    requires WellFormed(db) && j < 10 && Over(db, d, j, true) && r.clientOrderId == OrderOf(d, j)
    requires !(Present(r.exchangeOrderId) && r.exchangeOrderId.value in db.byExchangeId
               && db.byExchangeId[r.exchangeOrderId.value] != OrderOf(d, j))
    ensures Over(After(db, Step(TakeReport(r), now)), d, j, true)
       <==> Contradicts(db.orders[OrderOf(d, j)], r.status) || r.executedQty <= 0.0
  {
    var c := OrderOf(d, j);
    hide OrderOf;
    EndedReported(db, c, r, now);
    hide After, Contradicts, WellFormed;
  }

  lemma EndedReported(db: Db, c: ClientOrderId, r: Report, now: int)
    requires WellFormed(db) && c in db.orders && db.orders[c].status in {Rejected, Canceled, Expired} && db.orders[c].executed == 0.0
    requires r.clientOrderId == c
    requires !(Present(r.exchangeOrderId) && r.exchangeOrderId.value in db.byExchangeId && db.byExchangeId[r.exchangeOrderId.value] != c)
    ensures var db' := After(db, Step(TakeReport(r), now));
            && c in db'.orders && db'.orders[c].status == db.orders[c].status
            && db'.orders[c].executed == if Contradicts(db.orders[c], r.status) then 0.0 else Max(0.0, r.executedQty)
  {
    assert RowFits(db, c);
    var m := Merge(db.orders[c], r, now);
    EmptyMerge(db.orders[c], r, now);
    if m.Merged? && m.changed {
      assert !IdTaken(db, m.row);
      assert Updated(db, m.row).orders[c] == m.row.(version := m.row.version + 1);
    }
    hide Merge;
  }

  lemma EmptyMerge(o: OrderRow, r: Report, now: int)
    requires o.status in {Rejected, Canceled, Expired} && o.executed == 0.0
    ensures var m := Merge(o, r, now);
            && m.Merged? == !Contradicts(o, r.status)
            && (m.Merged? ==> m.row.status == o.status && m.row.executed == Max(0.0, r.executedQty)
                              && m.row.clientOrderId == o.clientOrderId
                              && m.row.exchangeOrderId in {o.exchangeOrderId, r.exchangeOrderId}
                              && (m.row.exchangeOrderId != o.exchangeOrderId ==> Present(r.exchangeOrderId)))
  {
  }

  // ------------------------------------------------------------------ one SELL at a time

  ghost predicate SidesFit(db: Db) {
    forall c | c in db.orders :: db.orders[c].side == SideOf(db.orders[c].purpose)
  }

  predicate InFlight(o: OrderRow) {
    Live(o) && !o.purpose.ProtectiveStop?
  }

  /** At most one order that is not a stop is live. */
  ghost predicate OneInFlight(db: Db) {
    forall c, d {:trigger db.orders[c], db.orders[d]} | c in db.orders && d in db.orders ::
      InFlight(db.orders[c]) && InFlight(db.orders[d]) ==> c == d
  }

  ghost predicate StageLive(db: Db, stage: Stage) {
    match stage
    case Idle => true
    case Cleared => OnlyStopsLive(db)
    case Holding(_) => OnlyStopsLive(db)
    case StopsDown => NothingLive(db)
    case Choosing(d, _, _) => if d.purpose.Entry? then OnlyStopsLive(db) else NothingLive(db)
    case Chosen(d, _, _) => if d.purpose.Entry? then OnlyStopsLive(db) else NothingLive(db)
    case Entered(c) => forall x | x in db.orders && x != c :: Live(db.orders[x]) ==> db.orders[x].purpose.ProtectiveStop?
  }

  ghost predicate OneAtATime(w: World) {
    WellFormed(w.db) && SidesFit(w.db) && OneLiveSell(w.db) && OneInFlight(w.db) && StageLive(w.db, w.stage)
  }

  /** The same orders, and none is live that was not. */
  ghost predicate Narrows(db: Db, db': Db) {
    && db'.orders.Keys == db.orders.Keys
    && forall c {:trigger db'.orders[c]} | c in db.orders ::
         && db'.orders[c].side == db.orders[c].side && db'.orders[c].purpose == db.orders[c].purpose
         && (Live(db'.orders[c]) ==> Live(db.orders[c]))
  }

  lemma StepNarrows(db: Db, step: Step)
    requires WellFormed(db) && !step.op.Persist?
    ensures Narrows(db, After(db, step))
  {
    StepKeepsNames(db, step);
    StepAdvances(db, step);
    var db' := After(db, step);
    hide After;
    forall c | c in db.orders
      ensures Live(db'.orders[c]) ==> Live(db.orders[c])
    {
    }
  }

  lemma NarrowedLive(db: Db, db': Db)
    requires Narrows(db, db')
    ensures SidesFit(db) ==> SidesFit(db')
    ensures OneLiveSell(db) ==> OneLiveSell(db')
    ensures OneInFlight(db) ==> OneInFlight(db')
  {
    hide Live, SideOf;
  }

  lemma NarrowedStage(db: Db, db': Db, stage: Stage)
    requires Narrows(db, db') && StageLive(db, stage)
    ensures StageLive(db', stage)
  {
    hide Live;
  }

  lemma OtherOneAtATime(w: World, step: Step)
    requires OneAtATime(w) && !step.op.Persist?
    ensures OneAtATime(World(After(w.db, step), w.stage))
  {
    StepNarrows(w.db, step);
    hide After, Narrows, WellFormed, SidesFit, OneLiveSell, OneInFlight, StageLive;
    NarrowedLive(w.db, After(w.db, step));
    NarrowedStage(w.db, After(w.db, step), w.stage);
  }

  /** One more live order, of the side that fits its purpose. */
  lemma OneMoreLive(db: Db, db': Db, c: ClientOrderId, row: OrderRow)
    requires c !in db.orders && db'.orders == db.orders[c := row] && row.side == SideOf(row.purpose)
    requires SidesFit(db) && OneLiveSell(db) && OneInFlight(db) && (if row.purpose.Entry? then OnlyStopsLive(db) else NothingLive(db))
    ensures SidesFit(db') && OneLiveSell(db') && OneInFlight(db')
    ensures forall x | x in db'.orders && x != c :: Live(db'.orders[x]) ==> db'.orders[x].purpose.ProtectiveStop?
  {
    hide Live;
  }

  lemma SubmitOneAtATime(w: World, s: Symbol, now: int)
    requires OneAtATime(w) && Allowed(w, s, Submits(now))
    ensures OneAtATime(Next(w, s, Submits(now)))
  {
    var i := OrderIntent(s, w.stage.decision, w.stage.plan, w.stage.attempt);
    var db' := PersistIntent(w.db, i, now).0;
    if i.id !in w.db.intents {
      CreatedTables(w.db, i, now, db');
      hide PersistIntent, WellFormed, SidesFit, OneLiveSell, OneInFlight, OnlyStopsLive, NothingLive;
      OneMoreLive(w.db, db', BotOrder(i.id), FreshRow(i, now).(version := 1));
    }
  }

  lemma StepOneAtATime(w: World, s: Symbol, a: Act)
    requires OneAtATime(w) && Allowed(w, s, a)
    ensures OneAtATime(Next(w, s, a))
  {
    hide After, PersistIntent;
    match a {
      case Other(step) => OtherOneAtATime(w, step);
      case Submits(now) => SubmitOneAtATime(w, s, now);
      case _ =>
    }
  }

  lemma {:induction false} RunOneAtATime(w: World, s: Symbol, acts: seq<Act>, w': World)
    requires OneAtATime(w) && Runs(w, s, acts, w')
    ensures OneAtATime(w')
    decreases |acts|
  {
    if acts != [] {
      StepOneAtATime(w, s, acts[0]);
      hide Next, Allowed, OneAtATime;
      RunOneAtATime(Next(w, s, acts[0]), s, acts[1..], w');
    }
  }

  /** In every run of the worker's own checks at most one SELL order is live, so never an exit beside a stop, and at
      most one order that is not a stop, so never two decisions in flight. */
  lemma OneSellIsLive(s: Symbol, acts: seq<Act>, w: World)
    requires Runs(START, s, acts, w)
    ensures OneLiveSell(w.db) && OneInFlight(w.db)
  {
    RunOneAtATime(START, s, acts, w);
  }
}
