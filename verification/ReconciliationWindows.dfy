/** How far back a reconciliation run looks: which orders it lists, and which trades are asked for over successive
    runs (engine/application/reconciliation_service.py, engine/infrastructure/store.py). */
module ReconciliationWindows {
  import opened Common
  import opened OrderModel
  import opened Ledger
  import opened ReconState
  import opened Reconciliation
  import opened ReconciliationLaws
  import opened ReconciliationLoops
  import opened ReconciliationTheorems

  // ------------------------------------------------------------------ orders

  /** The places of the orders of the symbol that were created behind the `k`-th. */
  ghost function Behind(db: Db, cs: seq<ClientOrderId>, symbol: Symbol, k: int): set<int> {
    set j | 0 <= j < |cs| && k < j && cs[j] in db.orders && db.orders[cs[j]].symbol == symbol
  }

  lemma OneMoreBehind(db: Db, cs: seq<ClientOrderId>, symbol: Symbol, k: int)
    requires cs != [] && -1 <= k < |cs| - 1 && forall c | c in cs :: c in db.orders
    ensures forall c | c in cs[..|cs| - 1] :: c in db.orders
    ensures |Behind(db, cs, symbol, k)| ==
            |Behind(db, cs[..|cs| - 1], symbol, k)| + (if db.orders[cs[|cs| - 1]].symbol == symbol then 1 else 0)
  {
    var n, rest := |cs| - 1, cs[..|cs| - 1];
    assert forall c | c in rest :: c in cs;
    assert Behind(db, cs, symbol, k) ==
           Behind(db, rest, symbol, k) + if db.orders[cs[n]].symbol == symbol then {n} else {};
  }

  /** Newest first: an order stands behind exactly those of its symbol that were created later. */
  lemma {:induction false} DescendingAt(db: Db, cs: seq<ClientOrderId>, symbol: Symbol, k: nat)
    requires k < |cs| && (forall c | c in cs :: c in db.orders) && db.orders[cs[k]].symbol == symbol
    ensures var place := |Behind(db, cs, symbol, k)|;
            place < |Descending(db, cs, symbol)| && Descending(db, cs, symbol)[place] == db.orders[cs[k]]
    decreases |cs|
  {
    var rest := cs[..|cs| - 1];
    assert forall c | c in rest :: c in cs;
    if k == |cs| - 1 {
      assert Behind(db, cs, symbol, k) == {};
    } else {
      OneMoreBehind(db, cs, symbol, k);
      DescendingAt(db, rest, symbol, k);
    }
  }

  lemma {:induction false} DescendingCounts(db: Db, cs: seq<ClientOrderId>, symbol: Symbol)
    requires forall c | c in cs :: c in db.orders
    ensures |Descending(db, cs, symbol)| == |Behind(db, cs, symbol, -1)|
    decreases |cs|
  {
    if cs == [] {
      assert Behind(db, cs, symbol, -1) == {};
    } else {
      OneMoreBehind(db, cs, symbol, -1);
      DescendingCounts(db, cs[..|cs| - 1], symbol);
    }
  }

  /** A run looks at the hundred newest orders of its symbol: all of them, none else, newest first. */
  lemma NewestExactly(db: Db, symbol: Symbol)
    requires WellFormed(db)
    ensures var all := |Behind(db, db.created, symbol, -1)|;
            |Newest(db, symbol)| == if all < 100 then all else 100
    ensures forall k | 0 <= k < |db.created| && db.orders[db.created[k]].symbol == symbol ::
              var place := |Behind(db, db.created, symbol, k)|;
              place < 100 ==> place < |Newest(db, symbol)| && Newest(db, symbol)[place] == db.orders[db.created[k]]
    ensures forall o | o in Newest(db, symbol) :: ListedIn(db, o) && o.symbol == symbol
  {
    DescendingCounts(db, db.created, symbol);
    forall k | 0 <= k < |db.created| && db.orders[db.created[k]].symbol == symbol
      ensures var place := |Behind(db, db.created, symbol, k)|;
              place < 100 ==> place < |Newest(db, symbol)| && Newest(db, symbol)[place] == db.orders[db.created[k]]
    {
      DescendingAt(db, db.created, symbol, k);
    }
    DescendingListed(db, db.created, symbol);
    DescendingOfSymbol(db, db.created, symbol);
  }

  lemma {:induction false} DescendingOfSymbol(db: Db, cs: seq<ClientOrderId>, symbol: Symbol)
    requires forall c | c in cs :: c in db.orders
    ensures forall o | o in Descending(db, cs, symbol) :: o.symbol == symbol
    decreases |cs|
  {
    if cs != [] {
      assert forall c | c in cs[..|cs| - 1] :: c in cs;
      DescendingOfSymbol(db, cs[..|cs| - 1], symbol);
    }
  }

  /** An order that ended no longer ago than the horizon, that the exchange has given an id, and that was not given up
      as not found. */
  ghost predicate EndedRecently(o: OrderRow, horizon: int) {
    && o.status in {Filled, Canceled, Rejected, Expired} && Present(o.exchangeOrderId)
    && o.terminalAt.Some? && horizon <= o.terminalAt.value
    && (o.rejectReason.Some? ==> !("NOT_FOUND" <= o.rejectReason.value))
  }

  lemma VerifiableExactly(o: OrderRow, horizon: int)
    ensures Verifiable(o, horizon) <==> EndedRecently(o, horizon)
  {
  }

  /** The places before the `k`-th that hold such an order. */
  ghost function EndedBefore(rows: seq<OrderRow>, horizon: int, k: nat): set<int> {
    set j | 0 <= j < |rows| && j < k && EndedRecently(rows[j], horizon)
  }

  lemma {:induction false} FilterSplits(a: seq<OrderRow>, b: seq<OrderRow>, horizon: int)
    ensures FilterVerifiable(a + b, horizon) == FilterVerifiable(a, horizon) + FilterVerifiable(b, horizon)
    decreases |a|
  {
    hide Verifiable;
    if a == [] {
      assert a + b == b;
    } else {
      var first := if Verifiable(a[0], horizon) then [a[0]] else [];
      FilterSplits(a[1..], b, horizon);
      assert (a + b)[1..] == a[1..] + b && (a + b)[0] == a[0];
      assert FilterVerifiable(a + b, horizon) == first + FilterVerifiable(a[1..] + b, horizon);
      assert FilterVerifiable(a, horizon) == first + FilterVerifiable(a[1..], horizon);
    }
  }

  lemma {:induction false} FilterCounts(rows: seq<OrderRow>, horizon: int, k: nat)
    requires k <= |rows|
    ensures |FilterVerifiable(rows[..k], horizon)| == |EndedBefore(rows, horizon, k)|
    decreases k
  {
    hide Verifiable, EndedRecently;
    if k == 0 {
      assert EndedBefore(rows, horizon, k) == {};
    } else {
      FilterCounts(rows, horizon, k - 1);
      VerifiableExactly(rows[k - 1], horizon);
      FilterSplits(rows[..k - 1], [rows[k - 1]], horizon);
      assert rows[..k] == rows[..k - 1] + [rows[k - 1]];
      assert EndedBefore(rows, horizon, k) ==
             EndedBefore(rows, horizon, k - 1) + if EndedRecently(rows[k - 1], horizon) then {k - 1} else {};
    }
  }

  lemma FilteredAt(rows: seq<OrderRow>, horizon: int, k: nat)
    requires k < |rows| && EndedRecently(rows[k], horizon)
    ensures var place := |EndedBefore(rows, horizon, k)|;
            place < |FilterVerifiable(rows, horizon)| && FilterVerifiable(rows, horizon)[place] == rows[k]
  {
    FilterCounts(rows, horizon, k);
    FilterSplits(rows[..k], rows[k..], horizon);
    assert rows == rows[..k] + rows[k..];
  }

  /** Of these it verifies the twenty newest that have ended recently, and no order that has not. */
  lemma VerifiesExactly(db: Db, env: Env)
    requires WellFormed(db)
    ensures |ToVerify(db, env)| <= 20
    ensures forall k | 0 <= k < |Newest(db, env.symbol)| && EndedRecently(Newest(db, env.symbol)[k], env.now - env.lookback) ::
              var place := |EndedBefore(Newest(db, env.symbol), env.now - env.lookback, k)|;
              place < 20 ==> place < |ToVerify(db, env)| && ToVerify(db, env)[place] == Newest(db, env.symbol)[k]
    ensures forall o | o in ToVerify(db, env) :: o in Newest(db, env.symbol) && EndedRecently(o, env.now - env.lookback)
  {
    hide Newest, FilterVerifiable, EndedBefore;
    var rows, horizon := Newest(db, env.symbol), env.now - env.lookback;
    forall k | 0 <= k < |rows| && EndedRecently(rows[k], horizon)
      ensures var place := |EndedBefore(rows, horizon, k)|;
              place < 20 ==> place < |ToVerify(db, env)| && ToVerify(db, env)[place] == rows[k]
    {
      FilteredAt(rows, horizon, k);
    }
    FilterListed(rows, horizon);
  }

  // ------------------------------------------------------------------ what HEALTHY says about each order

  /** After a run that ends HEALTHY every order of the symbol that fewer than a hundred later ones follow has its
      executed quantity on record, up to the tolerance. */
  lemma HealthyExplains(db: Db, env: Env, previous: State, operatorAck: bool)
    requires WellFormed(db) && AnswersAgree(env.view)
    requires Reconciled(db, env, previous, operatorAck).1.Healthy?
    ensures env.view.stepSize.Answered?
    ensures var db' := Reconciled(db, env, previous, operatorAck).0;
            forall k | 0 <= k < |db'.created| && db'.orders[db'.created[k]].symbol == env.symbol
                       && |Behind(db', db'.created, env.symbol, k)| < 100 ::
              var o := db'.orders[db'.created[k]];
              var missing := o.executed - RecordedQty(db'.fills, o.clientOrderId);
              o.executed > 0.0 && o.status != Submitting ==>
                || -0.00000001 <= missing <= 0.00000001
                || -env.view.stepSize.value <= missing <= env.view.stepSize.value
  {
    hide Reconciled, Newest, AfterOpen, AnswersAgree, NothingPending, OpenOrdersKnown, RecoverDone, TradeKnown, PositionTrusted;
    hide TerminalsConfirmed;
    HealthyIsSound(db, env, previous, operatorAck);
    var db' := Reconciled(db, env, previous, operatorAck).0;
    NewestExactly(db', env.symbol);
    var tolerance := if env.view.stepSize.value < 0.00000001 then 0.00000001 else env.view.stepSize.value;
    forall k | 0 <= k < |db'.created| && db'.orders[db'.created[k]].symbol == env.symbol
               && |Behind(db', db'.created, env.symbol, k)| < 100
      ensures var o := db'.orders[db'.created[k]];
              o.executed > 0.0 && o.status != Submitting ==> Explains(db', o, tolerance)
    {
      assert db'.orders[db'.created[k]] in Newest(db', env.symbol);
    }
  }

  /** And of the orders of the symbol that ended recently the twenty newest are confirmed by the exchange. */
  lemma HealthyConfirms(db: Db, env: Env, previous: State, operatorAck: bool)
    requires WellFormed(db) && AnswersAgree(env.view)
    requires Reconciled(db, env, previous, operatorAck).1.Healthy?
    ensures var db', rows := Reconciled(db, env, previous, operatorAck).0, Newest(AfterOpen(db, env).db, env.symbol);
            forall k | 0 <= k < |rows| && EndedRecently(rows[k], env.now - env.lookback)
                       && |EndedBefore(rows, env.now - env.lookback, k)| < 20 ::
              Confirmed(db', env, rows[k].clientOrderId)
  {
    hide Reconciled, Newest, AfterOpen, AnswersAgree, NothingPending, OpenOrdersKnown, RecoverDone, TradeKnown, PositionTrusted;
    hide ExecutedExplained, Confirmed, EndedRecently, EndedBefore;
    HealthyIsSound(db, env, previous, operatorAck);
    VerifiesExactly(AfterOpen(db, env).db, env);
  }

  // ------------------------------------------------------------------ trades over successive runs

  /** One run that has ended HEALTHY. */
  datatype Pass = Pass(start: Db, env: Env, previous: State, operatorAck: bool)

  ghost predicate EndedHealthy(p: Pass) {
    WellFormed(p.start) && AnswersAgree(p.env.view) && Reconciled(p.start, p.env, p.previous, p.operatorAck).1.Healthy?
  }

  /** Successive successes: each finds the time of the one before as the last success. What other writers did to the
      ledger in between, and what the exchange answers by then, is arbitrary. */
  ghost predicate Successive(passes: seq<Pass>) {
    && (forall k | 0 <= k < |passes| :: EndedHealthy(passes[k]))
    && (forall k | 0 < k < |passes| :: passes[k].previous.lastSuccess == Some(passes[k - 1].env.now))
  }

  /** The trade is in the ledger, or known to be nobody's of ours, once the pass is over. */
  ghost predicate Accounted(p: Pass, xf: ExchangeFill) {
    WellFormed(p.start) &&
    var db' := Reconciled(p.start, p.env, p.previous, p.operatorAck).0;
    RecoverDone(db', p.env, xf) && TradeKnown(db', p.env, xf)
  }

  /** Two successes in a row leave no gap: what the second is told of, inside its lookback, was accounted for by the
      second if it was executed after the first, or up to ten minutes before it and seen late. */
  lemma NoGapBetween(first: Pass, second: Pass, xf: ExchangeFill)
    requires Successive([first, second])
    requires second.env.view.trades.Answered? ==> xf in second.env.view.trades.value
    requires second.env.now - second.env.lookback <= xf.timeMs && first.env.now - 600000 <= xf.timeMs
    ensures Accounted(second, xf)
  {
    hide AnswersAgree, RecoverDone, TradeKnown, Reconciled;
    assert [first, second][1] == second && [first, second][0] == first;
    HealthyIsSound(second.start, second.env, second.previous, second.operatorAck);
  }

  /** Every instant since the first success is asked for exactly if the second comes within the lookback and the ten
      minutes of overlap do not have to reach further; otherwise the time before the horizon is never asked for. */
  lemma GapExactly(env: Env, last: int)
    requires last <= env.now
    ensures (forall xf: ExchangeFill | last <= xf.timeMs :: TradesSince([xf], Since(env, Some(last))) == [xf])
            <==> env.now - last <= env.lookback
  {
    forall xf: ExchangeFill
      ensures TradesSince([xf], Since(env, Some(last))) == [xf] <==> Since(env, Some(last)) <= xf.timeMs
    {
      assert [xf][..0] == [] && [] + [xf] == [xf];
    }
    if env.now - last > env.lookback {
      var xf := ExchangeFill("", None, None, 0.0, 0.0, 0.0, 0.0, None, last, "");
      assert TradesSince([xf], Since(env, Some(last))) != [xf];
    }
  }

  /** The trade falls between the start of one success and the start of the next, which accounts for it. */
  ghost predicate HasItsRun(passes: seq<Pass>, k: int, xf: ExchangeFill) {
    && 0 < k < |passes| && passes[k - 1].env.now <= xf.timeMs <= passes[k].env.now
    && passes[k].env.view.trades.Answered?
    && (xf in passes[k].env.view.trades.value ==> Accounted(passes[k], xf))
  }

  lemma RunTakes(passes: seq<Pass>, k: nat, xf: ExchangeFill)
    requires Successive(passes) && 0 < k < |passes|
    requires passes[k].env.now - passes[k - 1].env.now <= passes[k].env.lookback
    requires passes[k - 1].env.now <= xf.timeMs <= passes[k].env.now
    ensures HasItsRun(passes, k, xf)
  {
    hide AnswersAgree, RecoverDone, TradeKnown, Reconciled;
    var p := passes[k];
    assert EndedHealthy(p) && p.previous.lastSuccess == Some(passes[k - 1].env.now);
    HealthyIsSound(p.start, p.env, p.previous, p.operatorAck);
  }

  /** Where the time steps over a bound. */
  lemma {:induction false} Between(passes: seq<Pass>, n: nat, time: int) returns (k: nat)
    requires 0 < n < |passes| && passes[0].env.now <= time <= passes[n].env.now
    ensures 0 < k <= n && passes[k - 1].env.now <= time <= passes[k].env.now
    decreases n
  {
    if passes[n - 1].env.now <= time {
      k := n;
    } else {
      k := Between(passes, n - 1, time);
    }
  }

  /** Over any number of successes: a trade executed between the first and the last falls between two that follow each
      other and is accounted for by the later, if each came within its lookback after the one before. */
  lemma EveryTradeHasItsRun(passes: seq<Pass>, xf: ExchangeFill)
    requires Successive(passes) && |passes| >= 2
    requires forall k | 0 < k < |passes| :: passes[k].env.now - passes[k - 1].env.now <= passes[k].env.lookback
    requires passes[0].env.now <= xf.timeMs <= passes[|passes| - 1].env.now
    ensures exists k :: HasItsRun(passes, k, xf)
  {
    hide EndedHealthy, HasItsRun;
    var k := Between(passes, |passes| - 1, xf.timeMs);
    RunTakes(passes, k, xf);
  }
}
