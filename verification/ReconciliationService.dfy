/** The reconciliation run as the engine performs it: loops over stored orders and trades that write the tables,
    collect mismatches and rewrite the saved state (engine/application/reconciliation_service.py). */
module ReconciliationRun {
  import opened Common
  import opened OrderModel
  import opened Ledger
  import opened LedgerService
  import opened ReconState
  import opened Submission
  import opened Reconciliation

  /** A raised error ends a loop. */
  lemma OpenEnds(p: Progress, rows: seq<OrderRow>, env: Env, k: nat)
    requires WellFormed(p.db) && k <= |rows| && CheckAllOpen(p, rows[..k], env).raised
    ensures CheckAllOpen(p, rows, env) == CheckAllOpen(p, rows[..k], env)
    decreases |rows|
  {
    if k == |rows| {
      assert rows[..k] == rows;
    } else {
      assert rows[..|rows| - 1][..k] == rows[..k];
      OpenEnds(p, rows[..|rows| - 1], env, k);
    }
  }

  lemma VerifyEnds(p: Progress, rows: seq<OrderRow>, env: Env, k: nat)
    requires WellFormed(p.db) && k <= |rows| && VerifyAll(p, rows[..k], env).raised
    ensures VerifyAll(p, rows, env) == VerifyAll(p, rows[..k], env)
    decreases |rows|
  {
    if k == |rows| {
      assert rows[..k] == rows;
    } else {
      assert rows[..|rows| - 1][..k] == rows[..k];
      VerifyEnds(p, rows[..|rows| - 1], env, k);
    }
  }

  lemma RecoverEnds(p: Progress, xfs: seq<ExchangeFill>, env: Env, k: nat)
    requires WellFormed(p.db) && k <= |xfs| && RecoverAll(p, xfs[..k], env).raised
    ensures RecoverAll(p, xfs, env) == RecoverAll(p, xfs[..k], env)
    decreases |xfs|
  {
    if k == |xfs| {
      assert xfs[..k] == xfs;
    } else {
      assert xfs[..|xfs| - 1][..k] == xfs[..k];
      RecoverEnds(p, xfs[..|xfs| - 1], env, k);
    }
  }

  lemma ExplainEnds(p: Progress, rows: seq<OrderRow>, env: Env, tolerance: real, k: nat)
    requires WellFormed(p.db) && k <= |rows| && ExplainAll(p, rows[..k], env, tolerance).raised
    ensures ExplainAll(p, rows, env, tolerance) == ExplainAll(p, rows[..k], env, tolerance)
    decreases |rows|
  {
    if k == |rows| {
      assert rows[..k] == rows;
    } else {
      assert rows[..|rows| - 1][..k] == rows[..k];
      ExplainEnds(p, rows[..|rows| - 1], env, tolerance, k);
    }
  }

  class ReconciliationService {
    const store: Store
    const orders: OrderService
    const positions: PositionService
    var mismatches: seq<Mismatch>
    var pendingAmbiguous: nat
    var saved: State

    constructor (orders: OrderService, positions: PositionService, saved: State)
      requires positions.store == orders.store
      ensures this.orders == orders && store == orders.store && this.positions == positions && this.saved == saved
    {
      this.orders, this.store, this.positions, this.saved := orders, orders.store, positions, saved;
      mismatches, pendingAmbiguous := [], 0;
    }

    function At(raised: bool): Progress
      reads this, store
    {
      Progress(store.Tables(), mismatches, pendingAmbiguous, raised)
    }

    ghost predicate Ready()
      reads this, store, orders, positions
    {
      store == orders.store && store == positions.store && WellFormed(store.Tables()) && store.depth == 0
    }

    method Note(kind: Kind, order: Option<ClientOrderId>)
      modifies this`mismatches
      ensures mismatches == old(mismatches) + [Mismatch(kind, order)]
    {
      mismatches := mismatches + [Mismatch(kind, order)];
    }

    /** A conflict is a finding, any other error ends the run. */
    method Settle(ended: Ended, c: ClientOrderId) returns (raised: bool)
      modifies this`mismatches
      ensures raised == ended.RaisedError?
      ensures mismatches == if ended.RaisedConflict? then old(mismatches) + [Mismatch(StateConflict, Some(c))] else old(mismatches)
    {
      if ended.RaisedConflict? {
        Note(StateConflict, Some(c));
      }
      raised := ended.RaisedError?;
    }

    method CheckOpenOrder(o: OrderRow, env: Env) returns (raised: bool)
      requires Ready()
      modifies store, this`mismatches, this`pendingAmbiguous
      ensures Ready() && At(raised) == CheckOpen(old(At(false)), o, env)
    {
      var c := o.clientOrderId;
      if c !in store.orders {
        return true;
      }
      if o.ambiguous || o.status == Submitting {
        var resolution := orders.ResolveAmbiguous(o, Query(env.view, c), QueryFills(env.view, c), env.now, env.grace);
        match resolution {
          case Resolved => return false;
          case Pending =>
            pendingAmbiguous := pendingAmbiguous + 1;
            Note(AmbiguousPending, Some(c));
            return false;
          case Failed(ended) => raised := Settle(ended, c);
        }
      } else {
        var ended := orders.Refresh(c, Query(env.view, c), QueryFills(env.view, c), env.now);
        raised := Settle(ended, c);
      }
    }

    method CheckOpenOrders(rows: seq<OrderRow>, env: Env) returns (raised: bool)
      requires Ready()
      modifies store, this`mismatches, this`pendingAmbiguous
      ensures Ready() && At(raised) == CheckAllOpen(old(At(false)), rows, env)
    {
      raised := false;
      ghost var p := At(false);
      for i := 0 to |rows|
        invariant Ready() && !raised && At(false) == CheckAllOpen(p, rows[..i], env)
      {
        assert rows[..i + 1][..i] == rows[..i];
        raised := CheckOpenOrder(rows[i], env);
        if raised {
          OpenEnds(p, rows, env, i + 1);
          return;
        }
      }
      assert rows[..|rows|] == rows;
    }

    method VerifyTerminalOrder(o: OrderRow, env: Env) returns (raised: bool)
      requires Ready()
      modifies store, this`mismatches, this`pendingAmbiguous
      ensures Ready() && At(raised) == VerifyTerminal(old(At(false)), o, env)
    {
      var c := o.clientOrderId;
      var answer := Query(env.view, c);
      if answer.Unreachable? {
        return true;
      }
      if answer.value.None? {
        Note(TerminalMissing, Some(c));
        return false;
      }
      var r := answer.value.value;
      if r.status == o.status && r.executedQty == o.executed {
        return false;
      }
      var ended := orders.TakeReport(r, env.now);
      if !ended.Returned? {
        raised := Settle(ended, c);
        return;
      }
      if c !in store.orders {
        return true;
      }
      if r.executedQty < store.orders[c].executed {
        Note(ExceedsExchange, Some(c));
      }
      return false;
    }

    method VerifyTerminalOrders(rows: seq<OrderRow>, env: Env) returns (raised: bool)
      requires Ready()
      modifies store, this`mismatches, this`pendingAmbiguous
      ensures Ready() && At(raised) == VerifyAll(old(At(false)), rows, env)
    {
      raised := false;
      ghost var p := At(false);
      for i := 0 to |rows|
        invariant Ready() && !raised && At(false) == VerifyAll(p, rows[..i], env)
      {
        assert rows[..i + 1][..i] == rows[..i];
        raised := VerifyTerminalOrder(rows[i], env);
        if raised {
          VerifyEnds(p, rows, env, i + 1);
          return;
        }
      }
      assert rows[..|rows|] == rows;
    }

    method CheckExchangeOrders(reports: seq<Report>)
      requires Ready()
      modifies this`mismatches
      ensures Ready() && At(false) == CheckAllKnown(old(At(false)), reports)
    {
      ghost var p := At(false);
      for i := 0 to |reports|
        invariant Ready() && At(false) == CheckAllKnown(p, reports[..i])
      {
        assert reports[..i + 1][..i] == reports[..i];
        var c := reports[i].clientOrderId;
        if c !in store.orders {
          Note(if c.BotOrder? then UnknownOpenOrder else ForeignOpenOrder, Some(c));
        }
      }
      assert reports[..|reports|] == reports;
    }

    method RecoverTrade(xf: ExchangeFill, env: Env) returns (raised: bool)
      requires Ready()
      modifies store, this`mismatches, this`pendingAmbiguous
      ensures Ready() && At(raised) == RecoverFill(old(At(false)), xf, env)
    {
      if !(Present(xf.exchangeOrderId) && xf.exchangeOrderId.value in store.byExchangeId) {
        var answer := QueryByExchangeId(env.view, xf.exchangeOrderId);
        if answer.Unreachable? {
          return true;
        }
        if answer.value.None? {
          Note(ForeignFill, None);
          return false;
        }
        var r := answer.value.value;
        if r.clientOrderId !in store.orders {
          Note(if r.clientOrderId.BotOrder? then UnknownBotFill else ForeignFill, Some(r.clientOrderId));
          return false;
        }
        var ended := orders.TakeReport(r, env.now);
        if !ended.Returned? {
          return true;
        }
      }
      var _ := orders.IngestFill(xf, env.now);
      return false;
    }

    method RecoverTrades(xfs: seq<ExchangeFill>, env: Env) returns (raised: bool)
      requires Ready()
      modifies store, this`mismatches, this`pendingAmbiguous
      ensures Ready() && At(raised) == RecoverAll(old(At(false)), xfs, env)
    {
      raised := false;
      ghost var p := At(false);
      for i := 0 to |xfs|
        invariant Ready() && !raised && At(false) == RecoverAll(p, xfs[..i], env)
      {
        assert xfs[..i + 1][..i] == xfs[..i];
        raised := RecoverTrade(xfs[i], env);
        if raised {
          RecoverEnds(p, xfs, env, i + 1);
          return;
        }
      }
      assert xfs[..|xfs|] == xfs;
    }

    /** Sums the recorded executions of an order. */
    method FillQuantity(c: ClientOrderId) returns (have: real)
      ensures have == RecordedQty(store.fills, c)
    {
      have := 0.0;
      for i := 0 to |store.fills|
        invariant have == RecordedQty(store.fills[..i], c)
      {
        assert store.fills[..i + 1][..i] == store.fills[..i];
        if store.fills[i].order == c {
          have := have + store.fills[i].qty;
        }
      }
      assert store.fills[..|store.fills|] == store.fills;
    }

    method ExplainOrder(o: OrderRow, env: Env, tolerance: real) returns (raised: bool)
      requires Ready()
      modifies store, this`mismatches, this`pendingAmbiguous
      ensures Ready() && At(raised) == ExplainExecuted(old(At(false)), o, env, tolerance)
    {
      if o.executed <= 0.0 || o.status == Submitting {
        return false;
      }
      var c := o.clientOrderId;
      var have := FillQuantity(c);
      if have - o.executed > tolerance || o.executed - have > tolerance {
        var ended := orders.IngestOrderFills(c, QueryFills(env.view, c), env.now);
        if !ended.Returned? {
          return true;
        }
        have := FillQuantity(c);
        if have - o.executed > tolerance || o.executed - have > tolerance {
          Note(FillsIncomplete, Some(c));
        }
      }
      return false;
    }

    method ExplainOrders(rows: seq<OrderRow>, env: Env, tolerance: real) returns (raised: bool)
      requires Ready()
      modifies store, this`mismatches, this`pendingAmbiguous
      ensures Ready() && At(raised) == ExplainAll(old(At(false)), rows, env, tolerance)
    {
      raised := false;
      ghost var p := At(false);
      for i := 0 to |rows|
        invariant Ready() && !raised && At(false) == ExplainAll(p, rows[..i], env, tolerance)
      {
        assert rows[..i + 1][..i] == rows[..i];
        raised := ExplainOrder(rows[i], env, tolerance);
        if raised {
          ExplainEnds(p, rows, env, tolerance, i + 1);
          return;
        }
      }
      assert rows[..|rows|] == rows;
    }

    method CheckBalances(env: Env, tolerance: real) returns (raised: bool)
      requires Ready()
      modifies store, this`mismatches
      ensures Ready() && At(raised) == CheckPosition(old(At(false)), env, tolerance)
    {
      if env.view.baseTotal.Unreachable? {
        return true;
      }
      var before := PositionOf(store.Tables(), env.symbol);
      var rebuilt, anomalies := positions.RebuildPosition(env.symbol);
      if before.qty - rebuilt.qty > tolerance || rebuilt.qty - before.qty > tolerance {
        Note(PositionCorrected, None);
      }
      mismatches := mismatches + seq(|anomalies|, i => Mismatch(AnomalousPosition, None));
      if rebuilt.qty - env.view.baseTotal.value > tolerance {
        Note(BalanceBelowPosition, None);
      }
      return false;
    }

    /** The steps of a run, in their order, until one raises. */
    method Examine(env: Env, lastSuccess: Option<int>) returns (raised: bool)
      requires Ready()
      modifies store, this`mismatches, this`pendingAmbiguous
      ensures Ready() && At(raised) == RunBody(old(store.Tables()), env, lastSuccess)
    {
      mismatches, pendingAmbiguous := [], 0;
      ghost var db := store.Tables();
      if env.view.stepSize.Unreachable? || env.view.open.Unreachable? {
        return true;
      }
      var tolerance := Tolerance(env.view.stepSize.value);
      raised := CheckOpenOrders(NonTerminal(store.Tables(), store.created, env.symbol), env);
      if raised {
        EndsOpen(db, env, lastSuccess);
        return;
      }
      raised := VerifyTerminalOrders(ToVerify(store.Tables(), env), env);
      if raised {
        EndsVerify(db, env, lastSuccess);
        return;
      }
      CheckExchangeOrders(env.view.open.value);
      if env.view.trades.Unreachable? {
        return true;
      }
      raised := RecoverTrades(TradesSince(env.view.trades.value, Since(env, lastSuccess)), env);
      if raised {
        return;
      }
      raised := ExplainOrders(Newest(store.Tables(), env.symbol), env, tolerance);
      if raised {
        return;
      }
      raised := CheckBalances(env, tolerance);
    }

    lemma EndsOpen(db: Db, env: Env, lastSuccess: Option<int>)
      requires WellFormed(db) && env.view.stepSize.Answered? && env.view.open.Answered? && AfterOpen(db, env).raised
      ensures RunBody(db, env, lastSuccess) == AfterOpen(db, env)
    {
      var rows := ToVerify(AfterOpen(db, env).db, env);
      assert rows[..0] == [];
      VerifyEnds(AfterOpen(db, env), rows, env, 0);
      EndsVerify(db, env, lastSuccess);
    }

    lemma EndsVerify(db: Db, env: Env, lastSuccess: Option<int>)
      requires WellFormed(db) && env.view.stepSize.Answered? && env.view.open.Answered? && AfterVerify(db, env).raised
      ensures RunBody(db, env, lastSuccess) == AfterVerify(db, env)
    {
      KnownEnds(AfterVerify(db, env), env.view.open.value);
    }

    static lemma KnownEnds(p: Progress, reports: seq<Report>)
      requires p.raised
      ensures CheckAllKnown(p, reports) == p
      decreases |reports|
    {
      if reports != [] {
        KnownEnds(p, reports[..|reports| - 1]);
      }
    }

    method SetState(status: ReconStatus, success: bool, now: int)
      modifies this`saved
      ensures saved == old(saved).(status := status, updatedAt := Some(now),
                                   lastSuccess := if success then Some(now) else old(saved).lastSuccess)
    {
      var s := saved.(status := status);
      if success {
        s := s.(lastSuccess := Some(now));
      }
      saved := s.(updatedAt := Some(now));
    }

    /** A whole run: marked as running, examined, and concluded by the worst that was found. */
    method Run(env: Env, operatorAck: bool) returns (status: ReconStatus)
      requires Ready()
      modifies store, this`mismatches, this`pendingAmbiguous, this`saved
      ensures Ready()
      ensures (store.Tables(), status) == Reconciled(old(store.Tables()), env, old(saved), operatorAck)
      ensures saved == old(saved).(status := status, updatedAt := Some(env.now),
                                   lastSuccess := if status.Healthy? then Some(env.now) else old(saved).lastSuccess)
    {
      hide RunBody;
      var previous := saved;
      SetState(Reconciling, false, env.now);
      var raised := Examine(env, previous.lastSuccess);
      status := Healthy;
      if raised {
        status := Degraded;
      } else if exists k | 0 <= k < |mismatches| :: Critical(mismatches[k].kind) {
        status := Halted;
      } else if pendingAmbiguous > 0 {
        status := Reconciling;
      } else if previous.status == Halted && !operatorAck {
        status := Halted;
      }
      SetState(status, status == Healthy, env.now);
    }
  }
}
