/** When a reconciliation run completes: it fails only where the exchange does not answer, gives one of its ids to two
    orders, or contradicts the ledger in a way that has no finding (engine/application/reconciliation_service.py). */
module Completion {
  import opened Common
  import opened OrderModel
  import opened Ledger
  import opened Submission
  import opened Reconciliation
  import opened ReconciliationLaws
  import opened ReconciliationLoops
  import opened ReconciliationTheorems

  // ------------------------------------------------------------------ what the exchange has to do

  /** No two orders have the same id there. */
  ghost predicate IdsApart(v: View) {
    forall c, d, r: Report, s: Report {:trigger AnswersOrder(v, c, r), AnswersOrder(v, d, s)} |
      AnswersOrder(v, c, r) && AnswersOrder(v, d, s) && Present(r.exchangeOrderId) && r.exchangeOrderId == s.exchangeOrderId :: c == d
  }

  /** And the ledger has none of them under another order. */
  ghost predicate Owned(db: Db, v: View) {
    forall c, r: Report {:trigger AnswersOrder(v, c, r)} |
      AnswersOrder(v, c, r) && Present(r.exchangeOrderId) && r.exchangeOrderId.value in db.byExchangeId ::
      db.byExchangeId[r.exchangeOrderId.value] == c
  }

  /** Only an order whose submission is open may go without an answer; an acknowledged one is not unknown after the grace
      period. */
  ghost predicate ServesOrder(db: Db, env: Env, c: ClientOrderId)
    requires c in db.orders
  {
    var o := db.orders[c];
    && QueryFills(env.view, c).Answered?
    && (Query(env.view, c) == Unreachable ==> !Terminal(o.status) && NeedsResolution(o))
    && (o.ambiguous && o.status in {New, PartiallyFilled} && Query(env.view, c) == Answered(None) ==> Age(o, env.now) < env.grace)
  }

  /** The order of a trade can be asked for, and its report does not contradict the ledger. */
  ghost predicate ServesTrade(db: Db, env: Env, xf: ExchangeFill) {
    && QueryByExchangeId(env.view, xf.exchangeOrderId).Answered?
    && (QueryByExchangeId(env.view, xf.exchangeOrderId).value.Some? ==>
          var r := QueryByExchangeId(env.view, xf.exchangeOrderId).value.value;
          r.clientOrderId in db.orders ==> !Contradicts(db.orders[r.clientOrderId], r.status))
  }

  ghost predicate Serves(db: Db, env: Env) {
    && env.view.stepSize.Answered? && env.view.open.Answered? && env.view.trades.Answered? && env.view.baseTotal.Answered?
    && AnswersAgree(env.view) && IdsApart(env.view) && Owned(db, env.view)
    && (forall c {:trigger ServesOrder(db, env, c)} | c in db.orders :: ServesOrder(db, env, c))
    && (forall xf | xf in env.view.trades.value :: ServesTrade(db, env, xf))
  }

  // ------------------------------------------------------------------ it goes on doing it

  lemma OwnedStays(a: Db, b: Db, v: View)
    requires WellFormed(a) && Grows(a, b, v) && IdsApart(v) && Owned(a, v)
    ensures Owned(b, v)
  {
    forall c, r: Report | AnswersOrder(v, c, r) && Present(r.exchangeOrderId) && r.exchangeOrderId.value in b.byExchangeId
      ensures b.byExchangeId[r.exchangeOrderId.value] == c
    {
      var x := r.exchangeOrderId.value;
      if x !in a.byExchangeId {
        var d := b.byExchangeId[x];
        assert Indexed(b, x);
        assert RowGrows(a, b, v, d) && RowFits(a, d);
        var s := Query(v, d).value.value;
        assert AnswersOrder(v, d, s);
      }
    }
  }

  lemma ServesOrderStays(a: Db, b: Db, env: Env, c: ClientOrderId)
    requires Grows(a, b, env.view) && c in a.orders && ServesOrder(a, env, c)
    ensures c in b.orders && ServesOrder(b, env, c)
  {
    assert RowGrows(a, b, env.view, c);
  }

  lemma ServesTradeStays(a: Db, b: Db, env: Env, xf: ExchangeFill)
    requires Grows(a, b, env.view) && AnswersAgree(env.view) && ServesTrade(a, env, xf)
    ensures ServesTrade(b, env, xf)
  {
    var answer := QueryByExchangeId(env.view, xf.exchangeOrderId);
    if answer.value.Some? && answer.value.value.clientOrderId in a.orders {
      var r := answer.value.value;
      assert AnswersId(env.view, xf.exchangeOrderId.value, r);
      assert RowGrows(a, b, env.view, r.clientOrderId);
    }
  }

  lemma ServesStays(a: Db, b: Db, env: Env)
    requires WellFormed(a) && Grows(a, b, env.view) && Serves(a, env)
    ensures Serves(b, env)
  {
    hide ServesOrder, ServesTrade, Grows, AnswersAgree, IdsApart, Owned;
    OwnedStays(a, b, env.view);
    KeysStay(a, b, env.view);
    forall c | c in b.orders
      ensures ServesOrder(b, env, c)
    {
      assert ServesOrder(a, env, c);
      ServesOrderStays(a, b, env, c);
    }
    forall xf | xf in env.view.trades.value
      ensures ServesTrade(b, env, xf)
    {
      ServesTradeStays(a, b, env, xf);
    }
  }

  lemma KeysStay(a: Db, b: Db, v: View)
    requires Grows(a, b, v)
    ensures a.orders.Keys == b.orders.Keys
  {
  }

  // ------------------------------------------------------------------ every step goes through

  /** The store takes what the exchange says of an order. */
  lemma ReportGoesIn(db: Db, c: ClientOrderId, r: Report, now: int, v: View)
    requires WellFormed(db) && c in db.orders && AnswersAgree(v) && Owned(db, v) && AnswersOrder(v, c, r)
    ensures var (db', ended) := ReportTaken(db, r, now);
            !ended.RaisedError? && c in db'.orders && (!Contradicts(db.orders[c], r.status) ==> ended.Returned?)
  {
    assert OneAnswer(v, c, r);
    assert RowFits(db, c);
    var m := Merge(db.orders[c], r, now);
    if m.Merged? {
      assert !IdTaken(db, m.row);
    }
  }

  /** An order that the exchange does not know is given up, unless it waits, was acknowledged, or has ended meanwhile. */
  lemma UnknownGoesThrough(start: Db, p: Progress, o: OrderRow, env: Env)
    requires WellFormed(p.db) && Grows(start, p.db, env.view) && !p.raised && Query(env.view, o.clientOrderId) == Answered(None)
    requires ListedIn(start, o) && !Terminal(o.status) && ServesOrder(start, env, o.clientOrderId)
    ensures !CheckOpen(p, o, env).raised
  {
    var c := o.clientOrderId;
    assert RowGrows(start, p.db, env.view, c);
    var fills := QueryFills(env.view, c);
    if NeedsResolution(o) && Age(o, env.now) >= env.grace {
      assert !(o.ambiguous && o.status in {New, PartiallyFilled});
      assert o.status == IntentCreated || o.status == Submitting;
      assert RejectVerdict(p.db.orders[c].status) != IllegalTransition;
      assert Resolve(p.db, o, Answered(None), fills, env.now, env.grace).1 == Resolved;
    } else if NeedsResolution(o) {
      assert Resolve(p.db, o, Answered(None), fills, env.now, env.grace) == (p.db, Pending);
    } else {
      assert Refreshed(p.db, c, Answered(None), fills, env.now).1 == Returned;
    }
  }

  lemma OpenGoesThrough(start: Db, p: Progress, o: OrderRow, env: Env)
    requires WellFormed(p.db) && Grows(start, p.db, env.view) && Serves(p.db, env) && !p.raised
    requires ListedIn(start, o) && !Terminal(o.status) && ServesOrder(start, env, o.clientOrderId)
    ensures !CheckOpen(p, o, env).raised
  {
    var c := o.clientOrderId;
    assert RowGrows(start, p.db, env.view, c);
    match Query(env.view, c) {
      case Unreachable =>
      case Answered(None) => UnknownGoesThrough(start, p, o, env);
      case Answered(Some(r)) =>
        assert AnswersOrder(env.view, c, r);
        ReportGoesIn(p.db, c, r, env.now, env.view);
        if NeedsResolution(o) {
          ResolveIsRefresh(p.db, o, env, r);
        }
    }
  }

  lemma {:induction false} AllOpenGoThrough(start: Db, p: Progress, rows: seq<OrderRow>, env: Env)
    requires WellFormed(p.db) && Grows(start, p.db, env.view) && WellFormed(start) && Serves(start, env) && !p.raised
    requires forall o | o in rows :: ListedIn(start, o) && !Terminal(o.status)
    ensures !CheckAllOpen(p, rows, env).raised
    decreases |rows|
  {
    hide CheckOpen, Serves, Grows, AnswersAgree, ServesOrder;
    if rows != [] {
      var rest, last := rows[..|rows| - 1], rows[|rows| - 1];
      assert last in rows && forall o | o in rest :: o in rows;
      AllOpenGoThrough(start, p, rest, env);
      var mid := CheckAllOpen(p, rest, env);
      ServesAgree(start, env);
      AllOpenChecked(start, p, rest, env);
      GrowsOn(start, p.db, mid.db, env.view);
      ServesStays(start, mid.db, env);
      ServesItsOrder(start, env, last.clientOrderId);
      OpenGoesThrough(start, mid, last, env);
    }
  }

  lemma ServesAgree(db: Db, env: Env)
    requires Serves(db, env)
    ensures AnswersAgree(env.view)
    ensures env.view.stepSize.Answered? && env.view.open.Answered? && env.view.trades.Answered? && env.view.baseTotal.Answered?
  {
  }

  lemma ServesItsOrder(db: Db, env: Env, c: ClientOrderId)
    requires Serves(db, env) && c in db.orders
    ensures ServesOrder(db, env, c)
  {
  }

  lemma VerifyGoesThrough(start: Db, p: Progress, o: OrderRow, env: Env)
    requires WellFormed(p.db) && Grows(start, p.db, env.view) && Serves(p.db, env) && !p.raised
    requires ListedIn(start, o) && Terminal(o.status) && ServesOrder(start, env, o.clientOrderId)
    ensures !VerifyTerminal(p, o, env).raised
  {
    var c := o.clientOrderId;
    assert RowGrows(start, p.db, env.view, c);
    if Query(env.view, c).value.Some? {
      var r := Query(env.view, c).value.value;
      assert AnswersOrder(env.view, c, r);
      ReportGoesIn(p.db, c, r, env.now, env.view);
    }
  }

  lemma {:induction false} AllVerifiedGoThrough(start: Db, p: Progress, rows: seq<OrderRow>, env: Env)
    requires WellFormed(p.db) && Grows(start, p.db, env.view) && WellFormed(start) && Serves(start, env) && !p.raised
    requires forall o | o in rows :: ListedIn(start, o) && Terminal(o.status)
    ensures !VerifyAll(p, rows, env).raised
    decreases |rows|
  {
    hide VerifyTerminal, Serves, Grows, AnswersAgree, ServesOrder;
    if rows != [] {
      var rest, last := rows[..|rows| - 1], rows[|rows| - 1];
      assert last in rows && forall o | o in rest :: o in rows;
      AllVerifiedGoThrough(start, p, rest, env);
      var mid := VerifyAll(p, rest, env);
      ServesAgree(start, env);
      AllVerified(start, p, rest, env);
      GrowsOn(start, p.db, mid.db, env.view);
      ServesStays(start, mid.db, env);
      ServesItsOrder(start, env, last.clientOrderId);
      VerifyGoesThrough(start, mid, last, env);
    }
  }

  lemma TradeGoesThrough(p: Progress, xf: ExchangeFill, env: Env)
    requires WellFormed(p.db) && Serves(p.db, env) && xf in env.view.trades.value && !p.raised
    ensures !RecoverFill(p, xf, env).raised
  {
    assert ServesTrade(p.db, env, xf);
    var answer := QueryByExchangeId(env.view, xf.exchangeOrderId);
    if answer.value.Some? && answer.value.value.clientOrderId in p.db.orders {
      var r := answer.value.value;
      assert AnswersId(env.view, xf.exchangeOrderId.value, r);
      assert AnswersOrder(env.view, r.clientOrderId, r);
      ReportGoesIn(p.db, r.clientOrderId, r, env.now, env.view);
    }
  }

  lemma {:induction false} AllTradesGoThrough(p: Progress, xfs: seq<ExchangeFill>, env: Env)
    requires WellFormed(p.db) && Serves(p.db, env) && !p.raised && env.view.trades.Answered?
    requires forall xf | xf in xfs :: xf in env.view.trades.value && xf.clientOrderId.None?
    ensures !RecoverAll(p, xfs, env).raised
    decreases |xfs|
  {
    hide RecoverFill, Serves, Grows, AnswersAgree;
    if xfs != [] {
      var rest, last := xfs[..|xfs| - 1], xfs[|xfs| - 1];
      assert last in xfs && forall xf | xf in rest :: xf in xfs;
      AllTradesGoThrough(p, rest, env);
      ServesAgree(p.db, env);
      AllRecovered(p, rest, env);
      ServesStays(p.db, RecoverAll(p, rest, env).db, env);
      TradeGoesThrough(RecoverAll(p, rest, env), last, env);
    }
  }

  lemma ExplainGoesThrough(p: Progress, o: OrderRow, env: Env, tolerance: real)
    requires WellFormed(p.db) && !p.raised && QueryFills(env.view, o.clientOrderId).Answered?
    ensures !ExplainExecuted(p, o, env, tolerance).raised
  {
  }

  lemma {:induction false} AllExplainedGoThrough(p: Progress, rows: seq<OrderRow>, env: Env, tolerance: real)
    requires WellFormed(p.db) && !p.raised && forall o | o in rows :: QueryFills(env.view, o.clientOrderId).Answered?
    ensures !ExplainAll(p, rows, env, tolerance).raised
    decreases |rows|
  {
    hide ExplainExecuted;
    if rows != [] {
      var rest, last := rows[..|rows| - 1], rows[|rows| - 1];
      assert last in rows && forall o | o in rest :: o in rows;
      AllExplainedGoThrough(p, rest, env, tolerance);
      ExplainGoesThrough(ExplainAll(p, rest, env, tolerance), last, env, tolerance);
    }
  }

  // ------------------------------------------------------------------ the run

  lemma OpenCompletes(db: Db, env: Env)
    requires WellFormed(db) && Serves(db, env)
    ensures !AfterOpen(db, env).raised && Serves(AfterOpen(db, env).db, env)
  {
    hide Serves, Grows, AnswersAgree, CheckAllOpen, OpenDone, OpenResolved;
    GrowsNot(db, env.view);
    NonTerminalListed(db, db.created, env.symbol);
    AllOpenGoThrough(db, Progress(db, [], 0, false), NonTerminal(db, db.created, env.symbol), env);
    ServesAgree(db, env);
    OpenStage(db, env);
    ServesStays(db, AfterOpen(db, env).db, env);
  }

  lemma VerifyCompletes(db: Db, env: Env)
    requires WellFormed(db) && Serves(db, env)
    ensures !AfterVerify(db, env).raised && Serves(AfterVerify(db, env).db, env)
  {
    hide Serves, Grows, AnswersAgree, VerifyAll, ToVerify, AfterOpen, VerifyDone, Confirmed;
    OpenCompletes(db, env);
    var p := AfterOpen(db, env);
    GrowsNot(p.db, env.view);
    ToVerifyListed(p.db, env);
    AllVerifiedGoThrough(p.db, p, ToVerify(p.db, env), env);
    ServesAgree(db, env);
    VerifyStage(db, env);
    ServesStays(p.db, AfterVerify(db, env).db, env);
  }

  lemma RecoverCompletes(db: Db, env: Env, lastSuccess: Option<int>)
    requires WellFormed(db) && Serves(db, env) && env.view.open.Answered?
    ensures !AfterRecover(db, env, lastSuccess).raised && Serves(AfterRecover(db, env, lastSuccess).db, env)
  {
    hide Serves, Grows, AnswersAgree, RecoverAll, CheckAllKnown, AfterVerify, TradesSince, RecoverDone, TradeKnown;
    VerifyCompletes(db, env);
    ServesAgree(db, env);
    var p := AfterVerify(db, env);
    AllKnown(p, env.view.open.value);
    WindowTrades(env, lastSuccess);
    AllTradesGoThrough(CheckAllKnown(p, env.view.open.value), TradesSince(env.view.trades.value, Since(env, lastSuccess)), env);
    RecoverStage(db, env, lastSuccess);
    ServesStays(p.db, AfterRecover(db, env, lastSuccess).db, env);
  }

  lemma WindowTrades(env: Env, lastSuccess: Option<int>)
    requires AnswersAgree(env.view) && env.view.trades.Answered?
    ensures forall xf | xf in TradesSince(env.view.trades.value, Since(env, lastSuccess)) ::
              xf in env.view.trades.value && xf.clientOrderId.None?
  {
    SinceListed(env.view.trades.value, Since(env, lastSuccess));
  }

  /** A run that the exchange serves completes, whatever the ledger holds and whatever it finds: so a run that ends DEGRADED
      was not served. */
  lemma ServedRunCompletes(db: Db, env: Env, lastSuccess: Option<int>)
    requires WellFormed(db) && Serves(db, env)
    ensures !RunBody(db, env, lastSuccess).raised
  {
    hide Serves, Grows, AnswersAgree, AfterRecover, ExplainAll, Newest, ServesOrder;
    ServesAgree(db, env);
    RecoverCompletes(db, env, lastSuccess);
    var p := AfterRecover(db, env, lastSuccess);
    NewestListed(p.db, env.symbol);
    forall o | o in Newest(p.db, env.symbol)
      ensures QueryFills(env.view, o.clientOrderId).Answered?
    {
      FillsAnswered(p.db, env, o.clientOrderId);
    }
    AllExplainedGoThrough(p, Newest(p.db, env.symbol), env, Tolerance(env.view.stepSize.value));
  }

  lemma FillsAnswered(db: Db, env: Env, c: ClientOrderId)
    requires Serves(db, env) && c in db.orders
    ensures QueryFills(env.view, c).Answered?
  {
    assert ServesOrder(db, env, c);
  }
}
