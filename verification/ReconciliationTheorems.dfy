/** What a run that ends HEALTHY has established, and that running again changes nothing. */
module ReconciliationTheorems {
  import opened Common
  import opened OrderModel
  import opened PositionModel
  import opened Ledger
  import LedgerLaws
  import opened ReconState
  import opened Submission
  import opened Reconciliation
  import opened ReconciliationLaws
  import opened ReconciliationLoops

  // ------------------------------------------------------------------ executed quantities and their fills

  /** Executions that name their order add nothing to another one. */
  lemma {:induction false} OthersUnchanged(db: Db, xfs: seq<ExchangeFill>, now: int, own: ClientOrderId, c: ClientOrderId)
    requires WellFormed(db) && own in db.orders && c != own && forall xf | xf in xfs :: xf.clientOrderId == Some(own)
    ensures RecordedQty(IngestAll(db, xfs, now).fills, c) == RecordedQty(db.fills, c)
    decreases |xfs|
  {
    if xfs != [] {
      var rest, last := xfs[..|xfs| - 1], xfs[|xfs| - 1];
      assert forall xf | xf in rest :: xf in xfs;
      OthersUnchanged(db, rest, now, own, c);
      OtherUnchanged(IngestAll(db, rest, now), last, now, own, c);
    }
  }

  lemma OtherUnchanged(db: Db, xf: ExchangeFill, now: int, own: ClientOrderId, c: ClientOrderId)
    requires WellFormed(db) && own in db.orders && c != own && xf.clientOrderId == Some(own)
    ensures RecordedQty(IngestFill(db, xf, now).0.fills, c) == RecordedQty(db.fills, c)
  {
    assert RowFits(db, own);
    LedgerLaws.RecordedAppend(db.fills, FillOf(db.orders[own], xf, now), c);
  }

  /** The executed quantity is on record, or all the executions there are have been taken. */
  ghost predicate ExplainDone(db: Db, env: Env, o: OrderRow, tolerance: real) {
    !MustBeExplained(o) || Explains(db, o, tolerance) || OrderFillsTaken(db, env.view, o.clientOrderId)
  }

  lemma ExplainStep(p: Progress, o: OrderRow, env: Env, tolerance: real)
    requires WellFormed(p.db) && AnswersAgree(env.view) && ListedIn(p.db, o) && !ExplainExecuted(p, o, env, tolerance).raised
    ensures var p' := ExplainExecuted(p, o, env, tolerance);
            && Grows(p.db, p'.db, env.view) && p'.db.orders == p.db.orders && More(p, p')
            && ExplainDone(p'.db, env, o, tolerance)
            && (NoFindings(p') && MustBeExplained(o) ==> Explains(p'.db, o, tolerance))
  {
    var c := o.clientOrderId;
    if !MustBeExplained(o) || Explains(p.db, o, tolerance) {
      GrowsNot(p.db, env.view);
    } else {
      OrderFillsGrow(p.db, c, env.now, env.view);
      var db := OrderFillsIngested(p.db, c, QueryFills(env.view, c), env.now).0;
      if !Explains(db, o, tolerance) {
        NotedIsCritical(p.(db := db), FillsIncomplete, Some(c));
      }
    }
  }

  /** Explaining one order does not undo another. */
  lemma ExplainKeeps(p: Progress, o: OrderRow, env: Env, tolerance: real, other: OrderRow)
    requires WellFormed(p.db) && AnswersAgree(env.view) && !ExplainExecuted(p, o, env, tolerance).raised
    requires ListedIn(p.db, o) && ListedIn(p.db, other) && ExplainDone(p.db, env, other, tolerance)
    ensures var db' := ExplainExecuted(p, o, env, tolerance).db;
            && ExplainDone(db', env, other, tolerance)
            && (Explains(p.db, other, tolerance) ==> Explains(db', other, tolerance))
  {
    ExplainStep(p, o, env, tolerance);
    var p' := ExplainExecuted(p, o, env, tolerance);
    if other.clientOrderId != o.clientOrderId {
      if p'.db != p.db && p.db.orders[o.clientOrderId].exchangeOrderId.Some? && QueryFills(env.view, o.clientOrderId).Answered? {
        OwnFills(p.db, env.view, o.clientOrderId);
        OthersUnchanged(p.db, QueryFills(env.view, o.clientOrderId).value, env.now, o.clientOrderId, other.clientOrderId);
      }
      if OrderFillsTaken(p.db, env.view, other.clientOrderId) {
        OrderFillsStay(p.db, p'.db, env.view, other.clientOrderId);
      }
    }
  }

  lemma ExplainRaised(p: Progress, o: OrderRow, env: Env, tolerance: real)
    requires WellFormed(p.db) && p.raised
    ensures ExplainExecuted(p, o, env, tolerance) == p
  {
  }

  lemma {:induction false} AllExplained(p: Progress, rows: seq<OrderRow>, env: Env, tolerance: real)
    requires WellFormed(p.db) && AnswersAgree(env.view) && !ExplainAll(p, rows, env, tolerance).raised
    requires forall o | o in rows :: ListedIn(p.db, o)
    ensures var p' := ExplainAll(p, rows, env, tolerance);
            && Grows(p.db, p'.db, env.view) && p'.db.orders == p.db.orders && More(p, p')
            && (forall o | o in rows :: ExplainDone(p'.db, env, o, tolerance))
            && (NoFindings(p') ==> forall o | o in rows && MustBeExplained(o) :: Explains(p'.db, o, tolerance))
    decreases |rows|
  {
    hide ExplainExecuted, ExplainDone, Explains, Grows, AnswersAgree;
    if rows == [] {
      GrowsNot(p.db, env.view);
    } else {
      var rest, last := rows[..|rows| - 1], rows[|rows| - 1];
      var mid, p' := ExplainAll(p, rest, env, tolerance), ExplainAll(p, rows, env, tolerance);
      assert last in rows && forall o | o in rest :: o in rows;
      if mid.raised {
        ExplainRaised(mid, last, env, tolerance);
      }
      AllExplained(p, rest, env, tolerance);
      ExplainStep(mid, last, env, tolerance);
      GrowsOn(p.db, mid.db, p'.db, env.view);
      forall o | o in rows
        ensures ExplainDone(p'.db, env, o, tolerance)
        ensures NoFindings(p') && MustBeExplained(o) ==> Explains(p'.db, o, tolerance)
      {
        if o in rest {
          ExplainKeeps(mid, last, env, tolerance, o);
          if NoFindings(p') {
            CleanBefore(mid, p');
          }
        }
      }
    }
  }

  lemma {:induction false} AllExplainedQuiet(p: Progress, rows: seq<OrderRow>, env: Env, tolerance: real)
    requires WellFormed(p.db) && !p.raised && forall o | o in rows :: ExplainDone(p.db, env, o, tolerance)
    ensures ExplainAll(p, rows, env, tolerance).db == p.db && !ExplainAll(p, rows, env, tolerance).raised
    decreases |rows|
  {
    if rows != [] {
      var rest, last := rows[..|rows| - 1], rows[|rows| - 1];
      assert last in rows && forall o | o in rest :: o in rows;
      AllExplainedQuiet(p, rest, env, tolerance);
      if MustBeExplained(last) && !Explains(p.db, last, tolerance) {
        OrderFillsQuiet(p.db, last.clientOrderId, env.now, env.view);
      }
    }
  }

  // ------------------------------------------------------------------ the position

  /** The position is the anomaly-free fold of all fills, and the account holds it. */
  ghost predicate PositionTrusted(db: Db, env: Env, tolerance: real)
    requires WellFormed(db)
  {
    && PositionRebuilt(db, env.symbol) == db
    && AnomaliesAll(EmptyPosition(env.symbol).(lastMark := PositionOf(db, env.symbol).lastMark),
                    ByTime(FillsOf(db.fills, env.symbol))) == []
    && env.view.baseTotal.Answered? && PositionOf(db, env.symbol).qty - env.view.baseTotal.value <= tolerance
  }

  lemma RebuildGrows(db: Db, symbol: Symbol, v: View)
    requires WellFormed(db)
    ensures Grows(db, PositionRebuilt(db, symbol), v)
  {
  }

  lemma AnomaliesAreCritical(notes: seq<Mismatch>, n: nat)
    requires n > 0
    ensures AnyCritical(notes + seq(n, i => Mismatch(AnomalousPosition, None)))
  {
    assert Critical((notes + seq(n, i => Mismatch(AnomalousPosition, None)))[|notes|].kind);
  }

  lemma PositionChecked(p: Progress, env: Env, tolerance: real)
    requires WellFormed(p.db) && !CheckPosition(p, env, tolerance).raised
    ensures var p' := CheckPosition(p, env, tolerance);
            && p'.db == PositionRebuilt(p.db, env.symbol) && Grows(p.db, p'.db, env.view) && More(p, p')
            && (NoFindings(p') ==> PositionTrusted(p'.db, env, tolerance))
  {
    RebuildGrows(p.db, env.symbol, env.view);
    LedgerLaws.RebuildFixpoint(p.db, env.symbol);
    var p' := CheckPosition(p, env, tolerance);
    var before := PositionOf(p.db, env.symbol);
    var db := PositionRebuilt(p.db, env.symbol);
    var rebuilt := PositionOf(db, env.symbol);
    var p1 := p.(db := db);
    var p2 := if before.qty - rebuilt.qty > tolerance || rebuilt.qty - before.qty > tolerance
              then Noted(p1, PositionCorrected, None) else p1;
    var anomalies := RebuildAnomalies(before, ByTime(FillsOf(p.db.fills, env.symbol)));
    var p3 := p2.(notes := p2.notes + seq(|anomalies|, i => Mismatch(AnomalousPosition, None)));
    if |anomalies| > 0 {
      AnomaliesAreCritical(p2.notes, |anomalies|);
      assert !NoFindings(p3);
    }
    if rebuilt.qty - env.view.baseTotal.value > tolerance {
      NotedIsCritical(p3, BalanceBelowPosition, None);
    }
    assert More(p3, p');
    if NoFindings(p') {
      CleanBefore(p3, p');
    }
  }

  // ------------------------------------------------------------------ selections

  lemma {:induction false} NonTerminalListed(db: Db, cs: seq<ClientOrderId>, symbol: Symbol)
    requires WellFormed(db) && forall c | c in cs :: c in db.orders
    ensures forall o | o in NonTerminal(db, cs, symbol) :: ListedIn(db, o) && !Terminal(o.status) && o.symbol == symbol
    ensures forall c | c in cs && db.orders[c].symbol == symbol && !Terminal(db.orders[c].status) ::
              db.orders[c] in NonTerminal(db, cs, symbol)
    decreases |cs|
  {
    if cs != [] {
      var rest, last := cs[..|cs| - 1], cs[|cs| - 1];
      assert forall c | c in rest :: c in cs;
      NonTerminalListed(db, rest, symbol);
      assert RowFits(db, last);
      assert forall c | c in cs :: c in rest || c == last;
    }
  }

  lemma {:induction false} DescendingListed(db: Db, cs: seq<ClientOrderId>, symbol: Symbol)
    requires WellFormed(db) && forall c | c in cs :: c in db.orders
    ensures forall o | o in Descending(db, cs, symbol) :: ListedIn(db, o)
    decreases |cs|
  {
    if cs != [] {
      assert forall c | c in cs[..|cs| - 1] :: c in cs;
      DescendingListed(db, cs[..|cs| - 1], symbol);
      assert RowFits(db, cs[|cs| - 1]);
    }
  }

  lemma NewestListed(db: Db, symbol: Symbol)
    requires WellFormed(db)
    ensures forall o | o in Newest(db, symbol) :: ListedIn(db, o)
  {
    DescendingListed(db, db.created, symbol);
  }

  lemma {:induction false} FilterListed(rows: seq<OrderRow>, horizon: int)
    ensures forall o | o in FilterVerifiable(rows, horizon) :: o in rows && Verifiable(o, horizon)
  {
    if rows != [] {
      FilterListed(rows[1..], horizon);
      assert forall o | o in rows[1..] :: o in rows;
    }
  }

  lemma ToVerifyListed(db: Db, env: Env)
    requires WellFormed(db)
    ensures forall o | o in ToVerify(db, env) :: ListedIn(db, o) && Verifiable(o, Horizon(env))
  {
    NewestListed(db, env.symbol);
    FilterListed(Newest(db, env.symbol), Horizon(env));
  }

  /** The same orders in the same places, possibly further on. */
  ghost predicate Aligned(a: seq<OrderRow>, b: seq<OrderRow>, horizon: int) {
    && |a| == |b|
    && forall k | 0 <= k < |a| :: a[k].clientOrderId == b[k].clientOrderId && (Verifiable(a[k], horizon) ==> Verifiable(b[k], horizon))
  }

  lemma RowStaysVerifiable(a: Db, b: Db, v: View, c: ClientOrderId, horizon: int)
    requires Grows(a, b, v) && c in a.orders && Verifiable(a.orders[c], horizon)
    ensures Verifiable(b.orders[c], horizon)
  {
    assert RowGrows(a, b, v, c);
  }

  lemma {:induction false} DescendingAligned(a: Db, b: Db, v: View, cs: seq<ClientOrderId>, symbol: Symbol, horizon: int)
    requires WellFormed(a) && Grows(a, b, v) && forall c | c in cs :: c in a.orders
    ensures Aligned(Descending(a, cs, symbol), Descending(b, cs, symbol), horizon)
    decreases |cs|
  {
    if cs != [] {
      var rest, c := cs[..|cs| - 1], cs[|cs| - 1];
      assert forall x | x in rest :: x in cs;
      DescendingAligned(a, b, v, rest, symbol, horizon);
      assert RowGrows(a, b, v, c) && RowFits(a, c);
      if Verifiable(a.orders[c], horizon) {
        RowStaysVerifiable(a, b, v, c, horizon);
      }
    }
  }

  /** Whoever is among the first of the later list, and could be verified before, was among the first before. */
  lemma {:induction false} WindowOnlyGains(a: seq<OrderRow>, b: seq<OrderRow>, horizon: int, n: nat, k: nat)
    requires Aligned(a, b, horizon) && k < |a| && Verifiable(a[k], horizon)
    requires b[k] in Take(FilterVerifiable(b, horizon), n)
    requires forall j | 0 <= j < k :: b[j] != b[k]
    ensures a[k] in Take(FilterVerifiable(a, horizon), n)
    decreases |a|
  {
    hide Verifiable, Take, FilterVerifiable;
    if k == 0 {
      WindowFirst(a, b, horizon, n);
    } else {
      var gained := if Verifiable(b[0], horizon) then 1 else 0;
      WindowDrops(b, horizon, n, gained, b[k]);
      assert forall j | 0 <= j < |a| - 1 :: a[1..][j] == a[j + 1] && b[1..][j] == b[j + 1];
      WindowOnlyGains(a[1..], b[1..], horizon, n - gained, k - 1);
      WindowGrows(a, horizon, n, if Verifiable(a[0], horizon) then 1 else 0, gained, a[k]);
    }
  }

  lemma WindowFirst(a: seq<OrderRow>, b: seq<OrderRow>, horizon: int, n: nat)
    requires a != [] && b != [] && Verifiable(a[0], horizon) && Verifiable(b[0], horizon)
    requires b[0] in Take(FilterVerifiable(b, horizon), n)
    ensures a[0] in Take(FilterVerifiable(a, horizon), n)
  {
    assert n > 0 && FilterVerifiable(a, horizon)[0] == a[0];
  }

  lemma WindowDrops(b: seq<OrderRow>, horizon: int, n: nat, gained: nat, o: OrderRow)
    requires b != [] && gained == (if Verifiable(b[0], horizon) then 1 else 0)
    requires o in Take(FilterVerifiable(b, horizon), n) && o != b[0]
    ensures n >= gained && o in Take(FilterVerifiable(b[1..], horizon), n - gained)
  {
  }

  lemma WindowGrows(a: seq<OrderRow>, horizon: int, n: nat, mine: nat, gained: nat, o: OrderRow)
    requires a != [] && gained <= n && mine <= gained && mine == (if Verifiable(a[0], horizon) then 1 else 0)
    requires o in Take(FilterVerifiable(a[1..], horizon), n - gained)
    ensures o in Take(FilterVerifiable(a, horizon), n)
  {
  }

  // ------------------------------------------------------------------ the run, stage by stage

  lemma OpenStage(db: Db, env: Env)
    requires WellFormed(db) && AnswersAgree(env.view) && !AfterOpen(db, env).raised
    ensures var p := AfterOpen(db, env);
            && Grows(db, p.db, env.view)
            && (forall o | o in NonTerminal(db, db.created, env.symbol) :: OpenDone(p.db, env, o.clientOrderId))
            && (NoFindings(p) ==> forall o | o in NonTerminal(db, db.created, env.symbol) :: OpenResolved(p.db, env, o))
  {
    GrowsNot(db, env.view);
    NonTerminalListed(db, db.created, env.symbol);
    AllOpenChecked(db, Progress(db, [], 0, false), NonTerminal(db, db.created, env.symbol), env);
  }

  lemma VerifyAllRaised(p: Progress, rows: seq<OrderRow>, env: Env)
    requires WellFormed(p.db) && p.raised
    ensures VerifyAll(p, rows, env) == p
    decreases |rows|
  {
  }

  lemma VerifyStage(db: Db, env: Env)
    requires WellFormed(db) && AnswersAgree(env.view) && !AfterVerify(db, env).raised
    ensures var p, p' := AfterOpen(db, env), AfterVerify(db, env);
            && !p.raised && More(p, p') && Grows(p.db, p'.db, env.view)
            && (forall o | o in ToVerify(p.db, env) :: VerifyDone(p'.db, env, o.clientOrderId))
            && (NoFindings(p') ==> forall o | o in ToVerify(p.db, env) :: Confirmed(p'.db, env, o.clientOrderId))
  {
    var p := AfterOpen(db, env);
    if p.raised {
      VerifyAllRaised(p, ToVerify(p.db, env), env);
    }
    GrowsNot(p.db, env.view);
    ToVerifyListed(p.db, env);
    AllVerified(p.db, p, ToVerify(p.db, env), env);
  }

  lemma {:induction false} SinceListed(trades: seq<ExchangeFill>, since: int)
    ensures forall xf :: xf in TradesSince(trades, since) <==> xf in trades && xf.timeMs >= since
    decreases |trades|
  {
    if trades != [] {
      var rest, last := trades[..|trades| - 1], trades[|trades| - 1];
      SinceListed(rest, since);
      assert forall xf :: xf in trades <==> xf in rest || xf == last;
    }
  }

  lemma RecoverStage(db: Db, env: Env, lastSuccess: Option<int>)
    requires WellFormed(db) && AnswersAgree(env.view) && env.view.open.Answered? && !AfterRecover(db, env, lastSuccess).raised
    ensures var p, p' := AfterVerify(db, env), AfterRecover(db, env, lastSuccess);
            && !p.raised && More(p, p') && Grows(p.db, p'.db, env.view) && env.view.trades.Answered?
            && (forall xf | xf in env.view.trades.value && xf.timeMs >= Since(env, lastSuccess) :: RecoverDone(p'.db, env, xf))
            && (NoFindings(p') ==> forall xf | xf in env.view.trades.value && xf.timeMs >= Since(env, lastSuccess) :: TradeKnown(p'.db, env, xf))
            && (NoFindings(p') ==> forall r | r in env.view.open.value && r.clientOrderId.BotOrder? :: r.clientOrderId in p'.db.orders)
  {
    var p := AfterVerify(db, env);
    AllKnown(p, env.view.open.value);
    var known := CheckAllKnown(p, env.view.open.value);
    var trades := env.view.trades.value;
    SinceListed(trades, Since(env, lastSuccess));
    AllRecovered(known, TradesSince(trades, Since(env, lastSuccess)), env);
    var p' := AfterRecover(db, env, lastSuccess);
    if NoFindings(p') {
      CleanBefore(known, p');
    }
  }

  lemma ExplainStage(db: Db, env: Env, lastSuccess: Option<int>)
    requires WellFormed(db) && AnswersAgree(env.view) && env.view.open.Answered? && env.view.stepSize.Answered?
    requires !AfterExplain(db, env, lastSuccess).raised
    ensures var p, p' := AfterRecover(db, env, lastSuccess), AfterExplain(db, env, lastSuccess);
            var tolerance := Tolerance(env.view.stepSize.value);
            && !p.raised && More(p, p') && Grows(p.db, p'.db, env.view) && p'.db.orders == p.db.orders
            && (forall o | o in Newest(p.db, env.symbol) :: ExplainDone(p'.db, env, o, tolerance))
            && (NoFindings(p') ==> forall o | o in Newest(p.db, env.symbol) && MustBeExplained(o) :: Explains(p'.db, o, tolerance))
  {
    var p := AfterRecover(db, env, lastSuccess);
    NewestListed(p.db, env.symbol);
    AllExplained(p, Newest(p.db, env.symbol), env, Tolerance(env.view.stepSize.value));
  }

  /** Everything a completed run leaves behind that a second pass depends on. */
  ghost predicate Finished(db: Db, env: Env, since: int, start: Db, verified: Db)
    requires WellFormed(db) && WellFormed(start) && WellFormed(verified)
  {
    && env.view.stepSize.Answered? && env.view.open.Answered? && env.view.trades.Answered? && env.view.baseTotal.Answered?
    && Grows(start, db, env.view) && Grows(verified, db, env.view)
    && (forall o | o in NonTerminal(start, start.created, env.symbol) :: OpenDone(db, env, o.clientOrderId))
    && (forall o | o in ToVerify(verified, env) :: VerifyDone(db, env, o.clientOrderId))
    && (forall xf | xf in env.view.trades.value && xf.timeMs >= since :: RecoverDone(db, env, xf))
    && (forall o | o in Newest(db, env.symbol) :: ExplainDone(db, env, o, Tolerance(env.view.stepSize.value)))
    && PositionRebuilt(db, env.symbol) == db
  }

  lemma {:induction false} SameDescending(a: Db, b: Db, cs: seq<ClientOrderId>, symbol: Symbol)
    requires a.orders == b.orders && forall c | c in cs :: c in a.orders
    ensures Descending(a, cs, symbol) == Descending(b, cs, symbol)
    decreases |cs|
  {
    if cs != [] {
      assert forall c | c in cs[..|cs| - 1] :: c in cs;
      SameDescending(a, b, cs[..|cs| - 1], symbol);
    }
  }

  lemma ExplainDoneStays(a: Db, b: Db, env: Env, o: OrderRow, tolerance: real)
    requires WellFormed(a) && Grows(a, b, env.view) && AnswersAgree(env.view) && b.orders == a.orders && b.fills == a.fills
    requires ExplainDone(a, env, o, tolerance)
    ensures ExplainDone(b, env, o, tolerance)
  {
  }

  lemma RunGrows(db: Db, env: Env, lastSuccess: Option<int>)
    requires WellFormed(db) && AnswersAgree(env.view) && !RunBody(db, env, lastSuccess).raised
    ensures var p1, p2, p4, p5, p := AfterOpen(db, env), AfterVerify(db, env), AfterRecover(db, env, lastSuccess),
                                     AfterExplain(db, env, lastSuccess), RunBody(db, env, lastSuccess);
            && !p5.raised && !p4.raised && !p2.raised && !p1.raised
            && Grows(db, p.db, env.view) && Grows(p1.db, p.db, env.view) && Grows(p2.db, p.db, env.view)
            && Grows(p4.db, p.db, env.view) && Grows(p5.db, p.db, env.view)
            && More(p1, p2) && More(p2, p4) && More(p4, p5) && More(p5, p)
            && p.db == PositionRebuilt(p5.db, env.symbol)
  {
    hide OpenDone, OpenResolved, VerifyDone, Confirmed, RecoverDone, ExplainDone, Explains, AnswersAgree, Grows;
    hide AfterOpen, AfterVerify, AfterRecover, AfterExplain;
    var p1, p2, p4, p5 := AfterOpen(db, env), AfterVerify(db, env), AfterRecover(db, env, lastSuccess), AfterExplain(db, env, lastSuccess);
    var tolerance := Tolerance(env.view.stepSize.value);
    PositionChecked(p5, env, tolerance);
    ExplainStage(db, env, lastSuccess);
    RecoverStage(db, env, lastSuccess);
    VerifyStage(db, env);
    OpenStage(db, env);
    GrowsOn(p4.db, p5.db, RunBody(db, env, lastSuccess).db, env.view);
    GrowsOn(p2.db, p4.db, RunBody(db, env, lastSuccess).db, env.view);
    GrowsOn(p1.db, p2.db, RunBody(db, env, lastSuccess).db, env.view);
    GrowsOn(db, p1.db, RunBody(db, env, lastSuccess).db, env.view);
  }

  lemma RunFinishes(db: Db, env: Env, lastSuccess: Option<int>)
    requires WellFormed(db) && AnswersAgree(env.view) && !RunBody(db, env, lastSuccess).raised
    ensures Finished(RunBody(db, env, lastSuccess).db, env, Since(env, lastSuccess), db, AfterOpen(db, env).db)
  {
    hide OpenDone, OpenResolved, VerifyDone, Confirmed, RecoverDone, ExplainDone, Explains, AnswersAgree, Grows;
    hide AfterOpen, AfterVerify, AfterRecover, AfterExplain, Newest, ToVerify, NonTerminal;
    RunGrows(db, env, lastSuccess);
    var p1, p2, p4, p5, p := AfterOpen(db, env), AfterVerify(db, env), AfterRecover(db, env, lastSuccess),
                             AfterExplain(db, env, lastSuccess), RunBody(db, env, lastSuccess);
    var tolerance := Tolerance(env.view.stepSize.value);
    OpenStage(db, env);
    VerifyStage(db, env);
    RecoverStage(db, env, lastSuccess);
    ExplainStage(db, env, lastSuccess);
    forall o | o in NonTerminal(db, db.created, env.symbol)
      ensures OpenDone(p.db, env, o.clientOrderId)
    {
      OpenDoneStays(p1.db, p.db, env, o.clientOrderId);
    }
    forall o | o in ToVerify(p1.db, env)
      ensures VerifyDone(p.db, env, o.clientOrderId)
    {
      VerifyDoneStays(p2.db, p.db, env, o.clientOrderId);
    }
    forall xf | xf in env.view.trades.value && xf.timeMs >= Since(env, lastSuccess)
      ensures RecoverDone(p.db, env, xf)
    {
      RecoverDoneStays(p4.db, p.db, env, xf);
    }
    NewestSame(p4.db, p.db, env, env.symbol);
    forall o | o in Newest(p.db, env.symbol)
      ensures ExplainDone(p.db, env, o, tolerance)
    {
      ExplainDoneStays(p5.db, p.db, env, o, tolerance);
    }
    LedgerLaws.RebuildFixpoint(p5.db, env.symbol);
  }

  lemma NewestSame(a: Db, b: Db, env: Env, symbol: Symbol)
    requires WellFormed(a) && Grows(a, b, env.view) && a.orders == b.orders
    ensures Newest(a, symbol) == Newest(b, symbol)
  {
    SameDescending(a, b, a.created, symbol);
  }

  // ------------------------------------------------------------------ the second run

  lemma StillOpen(a: Db, b: Db, env: Env, o: OrderRow)
    requires WellFormed(a) && Grows(a, b, env.view)
    requires o in NonTerminal(b, b.created, env.symbol)
    ensures ListedIn(b, o) && !Terminal(o.status)
    ensures o.clientOrderId in a.orders && a.orders[o.clientOrderId] in NonTerminal(a, a.created, env.symbol)
    ensures a.orders[o.clientOrderId].clientOrderId == o.clientOrderId
  {
    NonTerminalListed(a, a.created, env.symbol);
    NonTerminalListed(b, b.created, env.symbol);
    assert RowGrows(a, b, env.view, o.clientOrderId);
    assert RowFits(a, o.clientOrderId);
  }

  function FirstIndex(rows: seq<OrderRow>, o: OrderRow): (k: nat)
    requires o in rows
    ensures k < |rows| && rows[k] == o && forall j | 0 <= j < k :: rows[j] != o
  {
    if rows[0] == o then 0 else FirstIndex(rows[1..], o) + 1
  }

  /** A terminal order that the second run verifies was verified by the first, or has since taken the one
      report there is. */
  lemma SecondWindow(verified: Db, db: Db, env: Env, o: OrderRow)
    requires WellFormed(verified) && Grows(verified, db, env.view) && AnswersAgree(env.view)
    requires forall x | x in ToVerify(verified, env) :: VerifyDone(db, env, x.clientOrderId)
    requires o in ToVerify(db, env)
    ensures ListedIn(db, o) && VerifyDone(db, env, o.clientOrderId)
  {
    ToVerifyListed(db, env);
    var a, b := Descending(verified, verified.created, env.symbol), Descending(db, db.created, env.symbol);
    DescendingAligned(verified, db, env.view, db.created, env.symbol, Horizon(env));
    var a', b' := Newest(verified, env.symbol), Newest(db, env.symbol);
    assert Aligned(a', b', Horizon(env));
    FilterListed(b', Horizon(env));
    var k := FirstIndex(b', o);
    NewestListed(verified, env.symbol);
    assert ListedIn(verified, a'[k]) && a'[k].clientOrderId == o.clientOrderId;
    if Verifiable(a'[k], Horizon(env)) {
      WindowOnlyGains(a', b', Horizon(env), TERMINAL_VERIFY_LIMIT, k);
    } else {
      ChangedIsDone(verified, db, env, o.clientOrderId);
    }
  }

  lemma ChangedIsDone(a: Db, b: Db, env: Env, c: ClientOrderId)
    requires Grows(a, b, env.view) && AnswersAgree(env.view) && c in a.orders && b.orders[c] != a.orders[c]
    ensures VerifyDone(b, env, c)
  {
    assert RowGrows(a, b, env.view, c);
    if Query(env.view, c).value.Some? {
      assert AnswersOrder(env.view, c, Query(env.view, c).value.value);
    }
  }

  /** The first two loops of a second body. */
  lemma ChecksAreQuiet(db: Db, env: Env, since: int, start: Db, verified: Db)
    requires WellFormed(db) && WellFormed(start) && WellFormed(verified) && AnswersAgree(env.view)
    requires Finished(db, env, since, start, verified)
    ensures AfterVerify(db, env).db == db && !AfterVerify(db, env).raised
  {
    hide OpenDone, VerifyDone, RecoverDone, ExplainDone, AnswersAgree, Grows, CheckOpen, VerifyTerminal;
    var open := NonTerminal(db, db.created, env.symbol);
    forall o | o in open
      ensures ListedIn(db, o) && !Terminal(o.status) && OpenDone(db, env, o.clientOrderId)
    {
      StillOpen(start, db, env, o);
    }
    AllOpenQuiet(Progress(db, [], 0, false), open, env);
    forall o | o in ToVerify(db, env)
      ensures ListedIn(db, o) && VerifyDone(db, env, o.clientOrderId)
    {
      SecondWindow(verified, db, env, o);
    }
    AllVerifiedQuiet(AfterOpen(db, env), ToVerify(db, env), env);
  }

  /** A second body on what a completed one has left. */
  lemma FinishedIsQuiet(db: Db, env: Env, since: int, start: Db, verified: Db, lastSuccess: Option<int>)
    requires WellFormed(db) && WellFormed(start) && WellFormed(verified) && AnswersAgree(env.view)
    requires Finished(db, env, since, start, verified) && Since(env, lastSuccess) >= since
    ensures RunBody(db, env, lastSuccess).db == db && !RunBody(db, env, lastSuccess).raised
  {
    hide OpenDone, VerifyDone, RecoverDone, ExplainDone, AnswersAgree, Grows, RecoverFill, AfterVerify, Newest, NonTerminal, ToVerify;
    ChecksAreQuiet(db, env, since, start, verified);
    var p2 := AfterVerify(db, env);
    AllKnown(p2, env.view.open.value);
    SinceListed(env.view.trades.value, Since(env, lastSuccess));
    AllRecoveredQuiet(CheckAllKnown(p2, env.view.open.value),
                      TradesSince(env.view.trades.value, Since(env, lastSuccess)), env);
    AllExplainedQuiet(AfterRecover(db, env, lastSuccess), Newest(db, env.symbol), env, Tolerance(env.view.stepSize.value));
  }

  /** Running again at once changes no order (nor its version), adds no fill, leaves the position and the
      whole ledger as they are, and completes: whatever the first completed run has found. */
  lemma SecondRunChangesNothing(db: Db, env: Env, lastSuccess: Option<int>, again: Option<int>)
    requires WellFormed(db) && AnswersAgree(env.view) && !RunBody(db, env, lastSuccess).raised
    requires lastSuccess.Some? ==> lastSuccess.value <= env.now
    requires again == lastSuccess || again == Some(env.now)
    ensures var once := RunBody(db, env, lastSuccess);
            var twice := RunBody(once.db, env, again);
            twice.db == once.db && !twice.raised
  {
    RunFinishes(db, env, lastSuccess);
    FinishedIsQuiet(RunBody(db, env, lastSuccess).db, env, Since(env, lastSuccess), db, AfterOpen(db, env).db, again);
  }

  // ------------------------------------------------------------------ what HEALTHY means

  /** No order whose submission was open is left pending: the exchange was reached about it, and either its
      report is in the ledger or it was given up after the grace period. */
  ghost predicate NothingPending(start: Db, db: Db, env: Env) {
    forall c | c in start.orders && start.orders[c].symbol == env.symbol && !Terminal(start.orders[c].status) ::
      OpenResolved(db, env, start.orders[c])
  }

  ghost predicate OpenOrdersKnown(db: Db, env: Env) {
    env.view.open.Answered? && forall r | r in env.view.open.value && r.clientOrderId.BotOrder? :: r.clientOrderId in db.orders
  }

  ghost predicate TerminalsConfirmed(verified: Db, db: Db, env: Env)
    requires WellFormed(verified)
  {
    forall o | o in ToVerify(verified, env) :: Confirmed(db, env, o.clientOrderId)
  }

  ghost predicate ExecutedExplained(db: Db, env: Env, tolerance: real)
    requires WellFormed(db)
  {
    forall o | o in Newest(db, env.symbol) && MustBeExplained(o) :: Explains(db, o, tolerance)
  }

  ghost predicate TradesTaken(db: Db, env: Env, since: int) {
    && env.view.trades.Answered?
    && forall xf | xf in env.view.trades.value && xf.timeMs >= since :: RecoverDone(db, env, xf) && TradeKnown(db, env, xf)
  }

  lemma CleanBody(db: Db, env: Env, lastSuccess: Option<int>)
    requires WellFormed(db) && AnswersAgree(env.view)
    requires !RunBody(db, env, lastSuccess).raised && NoFindings(RunBody(db, env, lastSuccess))
    ensures var p := RunBody(db, env, lastSuccess);
            var tolerance := Tolerance(env.view.stepSize.value);
            && NothingPending(db, p.db, env)
            && OpenOrdersKnown(p.db, env)
            && TerminalsConfirmed(AfterOpen(db, env).db, p.db, env)
            && ExecutedExplained(p.db, env, tolerance)
            && TradesTaken(p.db, env, Since(env, lastSuccess))
            && PositionTrusted(p.db, env, tolerance)
  {
    hide OpenDone, OpenResolved, VerifyDone, Confirmed, RecoverDone, TradeKnown, ExplainDone, Explains, AnswersAgree, Grows, NoFindings;
    hide AfterOpen, AfterVerify, AfterRecover, AfterExplain, Newest, ToVerify, NonTerminal;
    RunGrows(db, env, lastSuccess);
    RunFinishes(db, env, lastSuccess);
    var p1, p2, p4, p5, p := AfterOpen(db, env), AfterVerify(db, env), AfterRecover(db, env, lastSuccess),
                             AfterExplain(db, env, lastSuccess), RunBody(db, env, lastSuccess);
    var tolerance := Tolerance(env.view.stepSize.value);
    CleanBefore(p5, p);
    CleanBefore(p4, p5);
    CleanBefore(p2, p4);
    CleanBefore(p1, p2);
    OpenStage(db, env);
    VerifyStage(db, env);
    RecoverStage(db, env, lastSuccess);
    ExplainStage(db, env, lastSuccess);
    PositionChecked(p5, env, tolerance);
    CleanOpen(db, p1.db, p.db, env);
    forall o | o in ToVerify(p1.db, env)
      ensures Confirmed(p.db, env, o.clientOrderId)
    {
      ConfirmedStays(p2.db, p.db, env, o.clientOrderId);
    }
    forall xf | xf in env.view.trades.value && xf.timeMs >= Since(env, lastSuccess)
      ensures TradeKnown(p.db, env, xf)
    {
      TradeKnownStays(p4.db, p.db, env, xf);
    }
    GrowsKeepsKeys(p4.db, p.db, env.view);
    NewestSame(p4.db, p.db, env, env.symbol);
    forall o | o in Newest(p.db, env.symbol) && MustBeExplained(o)
      ensures Explains(p.db, o, tolerance)
    {
      assert Explains(p5.db, o, tolerance);
      SameFillsExplain(p5.db, p.db, o, tolerance);
    }
  }

  lemma GrowsKeepsKeys(a: Db, b: Db, v: View)
    requires Grows(a, b, v)
    ensures a.orders.Keys == b.orders.Keys
  {
  }

  lemma SameFillsExplain(a: Db, b: Db, o: OrderRow, tolerance: real)
    requires a.fills == b.fills && Explains(a, o, tolerance)
    ensures Explains(b, o, tolerance)
  {
  }

  lemma CleanOpen(start: Db, mid: Db, db: Db, env: Env)
    requires WellFormed(start) && WellFormed(mid) && Grows(mid, db, env.view)
    requires forall o | o in NonTerminal(start, start.created, env.symbol) :: OpenResolved(mid, env, o)
    ensures NothingPending(start, db, env)
  {
    NonTerminalListed(start, start.created, env.symbol);
    forall c | c in start.orders && start.orders[c].symbol == env.symbol && !Terminal(start.orders[c].status)
      ensures OpenResolved(db, env, start.orders[c])
    {
      assert RowFits(start, c);
      OpenResolvedStays(mid, db, env, start.orders[c]);
    }
  }

  /** A run that ends HEALTHY has heard from the exchange about every order that was open, knows every open
      order of the bot, has the terminal orders it verified confirmed, has the executed quantities explained
      by fills up to a step of quantity, or one hundred millionth where the step is smaller, and the recent trades
      taken: those no older than the horizon and, where a run has succeeded before, no older than ten minutes before
      that. It holds a position that is the anomaly-free fold of all fills and is covered by the balance, and was not
      latched. */
  lemma HealthyIsSound(db: Db, env: Env, previous: State, operatorAck: bool)
    requires WellFormed(db) && AnswersAgree(env.view)
    requires Reconciled(db, env, previous, operatorAck).1.Healthy?
    ensures var db' := Reconciled(db, env, previous, operatorAck).0;
            && env.view.stepSize.Answered? && env.view.trades.Answered?
            && var tolerance := if env.view.stepSize.value < 0.00000001 then 0.00000001 else env.view.stepSize.value;
               && NothingPending(db, db', env)
               && OpenOrdersKnown(db', env)
               && TerminalsConfirmed(AfterOpen(db, env).db, db', env)
               && ExecutedExplained(db', env, tolerance)
               && (forall xf | xf in env.view.trades.value && xf.timeMs >= env.now - env.lookback
                               && (previous.lastSuccess.Some? ==> xf.timeMs >= previous.lastSuccess.value - 600000) ::
                     RecoverDone(db', env, xf) && TradeKnown(db', env, xf))
               && PositionTrusted(db', env, tolerance)
    ensures !previous.status.Halted? || operatorAck
  {
    CleanBody(db, env, previous.lastSuccess);
  }
}
