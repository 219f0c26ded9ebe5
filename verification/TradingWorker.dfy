/** The order-placing methods of the trading cycle, in place (engine/application/trading_cycle.py): what has been
    checked when an order goes out. */
module TradingWorker {
  import opened Common
  import opened OrderModel
  import opened PositionModel
  import opened Ledger
  import LedgerLaws
  import opened LedgerService
  import opened Submission
  import opened Attempts
  import Reconciliation
  import ReconciliationTheorems
  import SellExposure
  import opened ServiceRuns
  import Sizing

  /** What the exchange says to one cancel and to the refresh behind it. */
  datatype CancelAnswer = CancelAnswer(acknowledged: Option<Report>, query: Reach<Option<Report>>, fills: Reach<seq<ExchangeFill>>)

  /** What it says to one submission. */
  datatype SubmitAnswer = SubmitAnswer(outcome: Outcome, query: Reach<Option<Report>>, fills: Reach<seq<ExchangeFill>>,
                                       later: int, grace: nat)

  const NO_ANSWER: CancelAnswer := CancelAnswer(None, Unreachable, Unreachable)

  datatype Placed = Nothing | Waiting | Raised | Dust | Exhausted | Existing(attempt: nat) | Sent(attempt: nat)

  // ------------------------------------------------------------------ terminal orders stay terminal

  ghost predicate StaysDown(a: Db, b: Db) {
    && b.orders.Keys == a.orders.Keys && b.created == a.created
    && forall c | c in a.orders :: (Terminal(a.orders[c].status) ==> Terminal(b.orders[c].status))
                                   && b.orders[c].purpose == a.orders[c].purpose && b.orders[c].symbol == a.orders[c].symbol
  }

  lemma ReportStaysDown(db: Db, r: Report, now: int)
    requires WellFormed(db)
    ensures StaysDown(db, ReportTaken(db, r, now).0)
  {
    LedgerLaws.ReportKeepsNames(db, r, now);
    LedgerLaws.ReportAdvances(db, r, now);
    hide ApplyReport, WellFormed;
  }

  lemma {:induction false} FillsStayDown(db: Db, xfs: seq<ExchangeFill>, now: int)
    requires WellFormed(db)
    ensures StaysDown(db, IngestAll(db, xfs, now))
    decreases |xfs|
  {
    if xfs != [] {
      FillsStayDown(db, xfs[..|xfs| - 1], now);
    }
  }

  lemma RefreshStaysDown(db: Db, c: ClientOrderId, query: Reach<Option<Report>>, fills: Reach<seq<ExchangeFill>>, now: int)
    requires WellFormed(db)
    ensures StaysDown(db, Refreshed(db, c, query, fills, now).0)
  {
    if query.Answered? && query.value.Some? {
      ReportStaysDown(db, query.value.value, now);
      if fills.Answered? {
        FillsStayDown(ReportTaken(db, query.value.value, now).0, fills.value, now);
      }
    } else if fills.Answered? {
      FillsStayDown(db, fills.value, now);
    }
  }

  lemma CancelStaysDown(db: Db, c: ClientOrderId, a: CancelAnswer, now: int)
    requires WellFormed(db)
    ensures StaysDown(db, Cancelled(db, c, a.acknowledged, a.query, a.fills, now).0)
  {
    if a.acknowledged.Some? {
      ReportStaysDown(db, a.acknowledged.value, now);
      RefreshStaysDown(ReportTaken(db, a.acknowledged.value, now).0, c, a.query, a.fills, now);
    } else {
      RefreshStaysDown(db, c, a.query, a.fills, now);
    }
  }

  /** No protective stop of the instrument is live. */
  ghost predicate StopsDown(db: Db, symbol: Symbol) {
    forall c | c in db.orders && db.orders[c].symbol == symbol && db.orders[c].purpose.ProtectiveStop? ::
      Terminal(db.orders[c].status)
  }

  ghost predicate DownAmong(db: Db, rows: seq<OrderRow>) {
    forall o | o in rows && o.purpose.ProtectiveStop? ::
      o.clientOrderId in db.orders && Terminal(db.orders[o.clientOrderId].status)
  }

  /** The list that was read first covers every stop that is live later. */
  lemma ListCoversStops(a: Db, b: Db, symbol: Symbol)
    requires WellFormed(a) && StaysDown(a, b) && DownAmong(b, Reconciliation.NonTerminal(a, a.created, symbol))
    ensures StopsDown(b, symbol)
  {
    ReconciliationTheorems.NonTerminalListed(a, a.created, symbol);
    forall c | c in b.orders && b.orders[c].symbol == symbol && b.orders[c].purpose.ProtectiveStop?
      ensures Terminal(b.orders[c].status)
    {
      assert RowFits(a, c);
    }
  }

  lemma StaysDownItself(a: Db)
    ensures StaysDown(a, a)
  {
  }

  lemma StaysDownOn(a: Db, b: Db, c: Db)
    requires StaysDown(a, b) && StaysDown(b, c)
    ensures StaysDown(a, c)
  {
  }

  lemma NoneAmong(db: Db)
    ensures DownAmong(db, [])
  {
  }

  lemma OneMoreDown(a: Db, b: Db, rows: seq<OrderRow>, n: nat)
    requires n < |rows| && StaysDown(a, b) && DownAmong(a, rows[..n])
    requires rows[n].purpose.ProtectiveStop? ==>
               rows[n].clientOrderId in b.orders && Terminal(b.orders[rows[n].clientOrderId].status)
    ensures DownAmong(b, rows[..n + 1])
  {
  }

  lemma ListedStays(a: Db, b: Db, symbol: Symbol, o: OrderRow)
    requires WellFormed(a) && StaysDown(a, b) && o in Reconciliation.NonTerminal(a, a.created, symbol)
    ensures o.clientOrderId in b.orders
    ensures b.orders[o.clientOrderId].purpose == o.purpose && b.orders[o.clientOrderId].symbol == symbol
  {
    ReconciliationTheorems.NonTerminalListed(a, a.created, symbol);
  }

  lemma LiveStop(db: Db, c: ClientOrderId, symbol: Symbol)
    requires c in db.orders && db.orders[c].symbol == symbol && db.orders[c].purpose.ProtectiveStop?
    ensures !Terminal(db.orders[c].status) ==> !StopsDown(db, symbol)
  {
  }

  lemma ListedIsLive(db: Db, symbol: Symbol, o: OrderRow)
    requires WellFormed(db) && o in Reconciliation.NonTerminal(db, db.created, symbol) && o.purpose.ProtectiveStop?
    ensures !StopsDown(db, symbol)
  {
    ReconciliationTheorems.NonTerminalListed(db, db.created, symbol);
  }

  /** One cancel of a stop that was listed as live, and how it ended. */
  function CancelledStop(db: Db, c: ClientOrderId, answers: map<ClientOrderId, CancelAnswer>, now: int): (Db, Ended)
    requires WellFormed(db)
  {
    var a := if c in answers then answers[c] else NO_ANSWER;
    Cancelled(db, c, a.acknowledged, a.query, a.fills, now)
  }

  /** The last stop that was tried: the cancel has raised, or the stop is seen to be live still. */
  ghost predicate Stuck(before: Db, mid: Db, c: ClientOrderId, after: Db, answers: map<ClientOrderId, CancelAnswer>, now: int, failed: Placed) {
    && WellFormed(before) && WellFormed(mid) && Commits(before, mid) && c in mid.orders && mid.orders[c].purpose.ProtectiveStop?
    && after == CancelledStop(mid, c, answers, now).0
    && (if failed.Raised? then !CancelledStop(mid, c, answers, now).1.Returned?
        else CancelledStop(mid, c, answers, now).1.Returned? && c in after.orders && !Terminal(after.orders[c].status))
  }

  /** Which of the worker's own checks lets a submission go on, and which attempt it stops at. */
  ghost predicate Places(db: Db, d: Decision, placed: Placed) {
    match placed
    case Exhausted => SpentBelow(db, d, if d.purpose == Entry then 1 else 3)
    case Existing(k) => FirstFree(db, d, k) && IntentId(d, k) in db.intents
    case Sent(k) => FirstFree(db, d, k) && IntentId(d, k) !in db.intents
    case _ => false
  }

  ghost predicate FirstFree(db: Db, d: Decision, k: nat) {
    k < (if d.purpose == Entry then 1 else 3) && SpentBelow(db, d, k) && !Spent(db, d, k)
  }

  class TradingWorker {
    const store: Store
    const orders: OrderService
    const chooser: IntentChooser
    const symbol: Symbol
    const rules: Sizing.SymbolRules

    constructor (orders: OrderService, chooser: IntentChooser, symbol: Symbol, rules: Sizing.SymbolRules)
      requires chooser.store == orders.store
      ensures this.orders == orders && store == orders.store && this.chooser == chooser && this.symbol == symbol
      ensures this.rules == rules
    {
      this.orders, this.store, this.chooser := orders, orders.store, chooser;
      this.symbol, this.rules := symbol, rules;
    }

    ghost predicate Ready()
      reads this, store, orders, chooser
    {
      store == orders.store && store == chooser.store && WellFormed(store.Tables()) && store.depth == 0
    }

    /** One order for one decision, under the first attempt that is not used up. An attempt that has an order
        already goes out no second time. */
    method Submit(d: Decision, side: Side, qty: real, now: int, a: SubmitAnswer) returns (placed: Placed)
      requires Ready()
      modifies store
      ensures Ready()
      ensures Places(old(store.Tables()), d, placed)
      ensures !placed.Sent? ==> store.Tables() == old(store.Tables())
      ensures placed.Sent? ==>
                && placed.attempt < 10
                && var i := Intent(IntentId(d, placed.attempt), symbol, side, d.purpose, Sizing.FloorToStep(qty, rules.stepSize));
                   store.Tables() == Submitted(old(store.Tables()), i, now, a.outcome, a.query, a.fills, a.later, a.grace).0
    {
      var attempt := chooser.NextIntentId(d);
      if attempt.None? {
        return Exhausted;
      }
      var k := attempt.value;
      var i := Intent(IntentId(d, k), symbol, side, d.purpose, Sizing.FloorToStep(qty, rules.stepSize));
      var _, sent := orders.SubmitIntent(i, now, a.outcome, a.query, a.fills, a.later, a.grace);
      placed := if sent then Sent(k) else Existing(k);
    }

    method CancelStop(c: ClientOrderId, a: CancelAnswer, now: int) returns (failed: Placed)
      requires Ready() && c in store.orders
      modifies store
      ensures Ready() && StaysDown(old(store.Tables()), store.Tables()) && failed in {Nothing, Waiting, Raised}
      ensures Commits(old(store.Tables()), store.Tables())
      ensures var (db', ended) := Cancelled(old(store.Tables()), c, a.acknowledged, a.query, a.fills, now);
              store.Tables() == db' && (failed.Raised? <==> !ended.Returned?)
      ensures failed.Nothing? ==> Terminal(store.orders[c].status)
      ensures failed.Waiting? ==> !Terminal(store.orders[c].status)
    {
      CancelStaysDown(store.Tables(), c, a, now);
      CancelCommits(store.Tables(), c, a.acknowledged, a.query, a.fills, now);
      var ended := orders.Cancel(c, a.acknowledged, a.query, a.fills, now);
      if !ended.Returned? {
        return Raised;
      }
      return if Terminal(store.orders[c].status) then Nothing else Waiting;
    }

    /** Cancels every live stop; each must be seen to have ended, or nothing is sold. */
    method CancelStops(answers: map<ClientOrderId, CancelAnswer>, now: int) returns (failed: Placed)
      requires Ready()
      modifies store
      ensures Ready() && StaysDown(old(store.Tables()), store.Tables()) && Commits(old(store.Tables()), store.Tables())
      ensures failed in {Nothing, Waiting, Raised}
      ensures failed.Nothing? ==> StopsDown(store.Tables(), symbol)
      ensures failed.Waiting? ==> !StopsDown(store.Tables(), symbol)
      ensures !failed.Nothing? ==> exists mid, c :: Stuck(old(store.Tables()), mid, c, store.Tables(), answers, now, failed)
      ensures StopsDown(old(store.Tables()), symbol) ==> failed.Nothing? && store.Tables() == old(store.Tables())
    {
      ghost var before := store.Tables();
      var rows := Reconciliation.NonTerminal(store.Tables(), store.created, symbol);
      hide StaysDown, WellFormed, DownAmong, StopsDown, Commits;
      StaysDownItself(before);
      CommitsNothing(before);
      NoneAmong(before);
      assert rows[..0] == [];
      for n := 0 to |rows|
        invariant Ready() && StaysDown(before, store.Tables()) && DownAmong(store.Tables(), rows[..n])
        invariant Commits(before, store.Tables())
        invariant StopsDown(before, symbol) ==> store.Tables() == before
      {
        var o := rows[n];
        ghost var mid := store.Tables();
        ListedStays(before, mid, symbol, o);
        if o.purpose == ProtectiveStop {
          ListedIsLive(before, symbol, o);
          failed := CancelStop(o.clientOrderId, if o.clientOrderId in answers then answers[o.clientOrderId] else NO_ANSWER, now);
          StaysDownOn(before, mid, store.Tables());
          CommitsOn(before, mid, store.Tables());
          if failed != Nothing {
            assert Stuck(before, mid, o.clientOrderId, store.Tables(), answers, now, failed);
            ListedStays(before, store.Tables(), symbol, o);
            LiveStop(store.Tables(), o.clientOrderId, symbol);
            return;
          }
        }
        StaysDownItself(mid);
        OneMoreDown(mid, store.Tables(), rows, n);
      }
      assert rows[..|rows|] == rows;
      ListCoversStops(before, store.Tables(), symbol);
      return Nothing;
    }

    /** Sells the whole tracked position, unless a cancel raises or leaves its stop live. `seen` is the ledger when the
        position was read: no stop is live in it, and what goes out, if the exchange takes it and an attempt is left, is
        what it tracks, rounded down. */
    method SellAll(purpose: Purpose, price: real, answers: map<ClientOrderId, CancelAnswer>, now: int, a: SubmitAnswer)
      returns (placed: Placed, ghost seen: Db)
      requires Ready() && purpose in {Exit, StopExit}
      modifies store
      ensures Ready() && WellFormed(seen) && Commits(old(store.Tables()), seen)
      ensures StopsDown(old(store.Tables()), symbol) ==> seen == old(store.Tables()) && !placed.Waiting? && !placed.Raised?
      ensures placed.Waiting? || placed.Raised? ==>
                exists mid, c :: Stuck(old(store.Tables()), mid, c, store.Tables(), answers, now, placed)
      ensures !placed.Waiting? && !placed.Raised? ==>
                && StopsDown(seen, symbol)
                && var p := PositionOf(seen, symbol);
                   if Sizing.Tradeable(rules, Sizing.FloorToStep(p.qty, rules.stepSize), price) then
                     Places(seen, Decision(SellExposure.Epoch(p.openedAt), purpose), placed)
                   else placed == Dust
      ensures placed.Sent? ==>
                && placed.attempt < 10
                && var p := PositionOf(seen, symbol);
                   var d := Decision(SellExposure.Epoch(p.openedAt), purpose);
                   var qty := Sizing.FloorToStep(p.qty, rules.stepSize);
                   && 0.0 < qty <= p.qty
                   && store.Tables() == Submitted(seen, Intent(IntentId(d, placed.attempt), symbol, Sell, purpose, qty), now,
                                                  a.outcome, a.query, a.fills, a.later, a.grace).0
      ensures !placed.Sent? ==> store.Tables() == seen
    {
      placed := CancelStops(answers, now);
      seen := store.Tables();
      if !placed.Nothing? {
        return;
      }
      var p := PositionOf(store.Tables(), symbol);
      var qty := Sizing.FloorToStep(p.qty, rules.stepSize);
      if !Sizing.Tradeable(rules, qty, price) {
        return Dust, seen;
      }
      Sizing.RoundingIsIdempotent(p.qty, rules.stepSize);
      if rules.stepSize > 0.0 {
        Sizing.RoundsDown(p.qty, rules.stepSize);
      }
      placed := Submit(Decision(SellExposure.Epoch(p.openedAt), purpose), Sell, qty, now, a);
    }

    /** A stop at the exchange for a position that was read before: exactly while none is live, the position has a stop
        price, the exchange takes its quantity, and an attempt is left. */
    method EnsureProtectiveStop(position: PositionRow, limit: real, now: int, a: SubmitAnswer) returns (placed: Placed)
      requires Ready()
      modifies store
      ensures Ready()
      ensures if !StopsDown(old(store.Tables()), symbol) || position.stop.None? then placed == Nothing
              else if !Sizing.Tradeable(rules, Sizing.FloorToStep(position.qty, rules.stepSize), limit) then placed == Dust
              else Places(old(store.Tables()), SellExposure.StopDecision(position.openedAt), placed)
      ensures placed.Sent? ==>
                && placed.attempt < 10
                && var d := SellExposure.StopDecision(position.openedAt);
                   var qty := Sizing.FloorToStep(position.qty, rules.stepSize);
                   store.Tables() == Submitted(old(store.Tables()),
                                                  Intent(IntentId(d, placed.attempt), symbol, Sell, ProtectiveStop, qty), now,
                                                  a.outcome, a.query, a.fills, a.later, a.grace).0
      ensures !placed.Sent? ==> store.Tables() == old(store.Tables())
    {
      var rows := Reconciliation.NonTerminal(store.Tables(), store.created, symbol);
      if (exists k | 0 <= k < |rows| :: rows[k].purpose == ProtectiveStop) || position.stop.None? {
        if k :| 0 <= k < |rows| && rows[k].purpose == ProtectiveStop {
          ListedIsLive(store.Tables(), symbol, rows[k]);
        }
        return Nothing;
      }
      ListCoversStops(store.Tables(), store.Tables(), symbol);
      var qty := Sizing.FloorToStep(position.qty, rules.stepSize);
      if !Sizing.Tradeable(rules, qty, limit) {
        return Dust;
      }
      Sizing.RoundingIsIdempotent(position.qty, rules.stepSize);
      placed := Submit(SellExposure.StopDecision(position.openedAt), Sell, qty, now, a);
    }
  }
}
