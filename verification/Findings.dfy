/** Every finding of a reconciliation run has its cause in what the run leaves, so a completed run ends HEALTHY exactly
    when nothing is wrong (engine/application/reconciliation_service.py). */
module Findings {
  import opened Common
  import opened OrderModel
  import opened PositionModel
  import opened Ledger
  import opened ReconState
  import opened Submission
  import opened Reconciliation
  import opened ReconciliationLaws
  import opened ReconciliationLoops
  import opened ReconciliationTheorems

  // ------------------------------------------------------------------ orders that are not known to have ended

  /** The exchange's report of the order contradicts the row. */
  ghost predicate Disputed(db: Db, env: Env, c: ClientOrderId) {
    && c in db.orders && Query(env.view, c).Answered? && Query(env.view, c).value.Some?
    && Contradicts(db.orders[c], Query(env.view, c).value.value.status)
  }

  lemma DisputedStays(a: Db, b: Db, env: Env, c: ClientOrderId)
    requires Grows(a, b, env.view) && Disputed(a, env, c)
    ensures Disputed(b, env, c)
  {
    assert RowGrows(a, b, env.view, c);
  }

  lemma DisputedBefore(a: Db, b: Db, env: Env, c: ClientOrderId)
    requires Grows(a, b, env.view) && c in a.orders && Disputed(b, env, c)
    ensures Disputed(a, env, c)
  {
    assert RowGrows(a, b, env.view, c);
  }

  /** Its submission is open, and the exchange was not reached, or knows nothing inside the grace period. */
  ghost predicate Waiting(env: Env, o: OrderRow) {
    && (o.ambiguous || o.status == Submitting)
    && (Query(env.view, o.clientOrderId) == Unreachable
        || (Query(env.view, o.clientOrderId) == Answered(None)
            && (o.submittedAt.Some? ==> env.now - o.submittedAt.value < env.grace)
            && (o.submittedAt.None? ==> env.grace > 0)))
  }

  ghost predicate OpenFinding(m: Mismatch, o: OrderRow, db: Db, env: Env) {
    && m.order == Some(o.clientOrderId)
    && ((m.kind == AmbiguousPending && Waiting(env, o)) || (m.kind == StateConflict && Disputed(db, env, o.clientOrderId)))
  }

  ghost predicate OpenCause(m: Mismatch, rows: seq<OrderRow>, db: Db, env: Env) {
    exists o | o in rows :: OpenFinding(m, o, db, env)
  }

  lemma OpenFindingSame(m: Mismatch, o: OrderRow, a: Db, b: Db, env: Env)
    requires Grows(a, b, env.view) && o.clientOrderId in a.orders
    ensures OpenFinding(m, o, a, env) <==> OpenFinding(m, o, b, env)
  {
    hide Waiting, Grows;
    if Disputed(a, env, o.clientOrderId) {
      DisputedStays(a, b, env, o.clientOrderId);
    }
    if Disputed(b, env, o.clientOrderId) {
      DisputedBefore(a, b, env, o.clientOrderId);
    }
  }

  lemma OpenCauseSame(m: Mismatch, rows: seq<OrderRow>, a: Db, b: Db, env: Env)
    requires Grows(a, b, env.view) && forall o | o in rows :: o.clientOrderId in a.orders
    ensures OpenCause(m, rows, a, env) <==> OpenCause(m, rows, b, env)
  {
    hide OpenFinding, Grows;
    forall o | o in rows
      ensures OpenFinding(m, o, a, env) <==> OpenFinding(m, o, b, env)
    {
      OpenFindingSame(m, o, a, b, env);
    }
  }

  lemma OneMoreOpen(m: Mismatch, rest: seq<OrderRow>, last: OrderRow, db: Db, env: Env)
    ensures OpenCause(m, rest + [last], db, env) <==> OpenCause(m, rest, db, env) || OpenFinding(m, last, db, env)
  {
    hide OpenFinding;
    assert forall o :: o in rest + [last] <==> o in rest || o == last;
  }

  /** Orders are pending exactly when one was found so. */
  ghost predicate PendingNoted(p: Progress) {
    p.pending > 0 <==> exists m | m in p.notes :: m.kind == AmbiguousPending
  }

  /** What a step may add: exactly the findings that `cause` describes. */
  ghost predicate AddsExactly(p: Progress, p': Progress, cause: Mismatch -> bool) {
    && (forall m :: m in p'.notes <==> m in p.notes || cause(m))
    && (PendingNoted(p) ==> PendingNoted(p'))
  }

  lemma ConflictIsDisputed(db: Db, env: Env, c: ClientOrderId)
    requires WellFormed(db) && AnswersAgree(env.view) && c in db.orders
    ensures var (db', ended) := Refreshed(db, c, Query(env.view, c), QueryFills(env.view, c), env.now);
            !ended.RaisedError? ==> (ended.RaisedConflict? <==> Disputed(db', env, c))
  {
    match Query(env.view, c) {
      case Unreachable =>
      case Answered(None) =>
      case Answered(Some(r)) =>
        assert AnswersOrder(env.view, c, r);
        TakenOrDisputed(db, env, r);
        var (db1, ended) := ReportTaken(db, r, env.now);
        if ended.Returned? {
          var db2 := OrderFillsIngested(db1, c, QueryFills(env.view, c), env.now).0;
          assert Disputed(db2, env, c) ==> Disputed(db1, env, c);
        }
    }
  }

  lemma TakenOrDisputed(db: Db, env: Env, r: Report)
    requires WellFormed(db) && r.clientOrderId in db.orders && Query(env.view, r.clientOrderId) == Answered(Some(r))
    ensures var (db', ended) := ReportTaken(db, r, env.now);
            !ended.RaisedError? ==> (ended.RaisedConflict? <==> Disputed(db', env, r.clientOrderId))
  {
    TakeGrows(db, r, env.now, env.view);
    var (db', ended) := ReportTaken(db, r, env.now);
    if ended.RaisedConflict? {
      DisputedStays(db, db', env, r.clientOrderId);
    }
  }

  lemma NotesOneMore(p: Progress, p': Progress, m: Mismatch)
    requires p'.notes == p.notes + [m]
    requires p'.pending == if m.kind == AmbiguousPending then p.pending + 1 else p.pending
    ensures forall n :: n in p'.notes <==> n in p.notes || n == m
    ensures PendingNoted(p) ==> PendingNoted(p')
  {
  }

  lemma OpenStep(p: Progress, o: OrderRow, env: Env)
    requires WellFormed(p.db) && AnswersAgree(env.view) && !Terminal(o.status) && !CheckOpen(p, o, env).raised
    ensures var p' := CheckOpen(p, o, env);
            AddsExactly(p, p', m => OpenFinding(m, o, p'.db, env))
  {
    var c := o.clientOrderId;
    var p' := CheckOpen(p, o, env);
    OpenNote(p, o, env);
    hide CheckOpen, Waiting, Disputed;
    if Waiting(env, o) {
      NotesOneMore(p, p', Mismatch(AmbiguousPending, Some(c)));
    } else if Disputed(p'.db, env, c) {
      NotesOneMore(p, p', Mismatch(StateConflict, Some(c)));
    }
  }

  lemma OpenNote(p: Progress, o: OrderRow, env: Env)
    requires WellFormed(p.db) && AnswersAgree(env.view) && !Terminal(o.status) && !CheckOpen(p, o, env).raised
    ensures var p' := CheckOpen(p, o, env);
            var disputed := Disputed(p'.db, env, o.clientOrderId);
            && p'.notes == p.notes + (if Waiting(env, o) then [Mismatch(AmbiguousPending, Some(o.clientOrderId))]
                                      else if disputed then [Mismatch(StateConflict, Some(o.clientOrderId))] else [])
            && p'.pending == p.pending + (if Waiting(env, o) then 1 else 0)
            && !(Waiting(env, o) && disputed)
  {
    var c := o.clientOrderId;
    ConflictIsDisputed(p.db, env, c);
    if NeedsResolution(o) && Query(env.view, c).Answered? && Query(env.view, c).value.Some? {
      ResolveIsRefresh(p.db, o, env, Query(env.view, c).value.value);
    }
  }

  /** The orders that were not known to have ended: findings are exactly the waiting and the disputed ones. */
  lemma {:induction false} AllOpenFound(start: Db, p: Progress, rows: seq<OrderRow>, env: Env)
    requires WellFormed(p.db) && AnswersAgree(env.view) && Grows(start, p.db, env.view)
    requires forall o | o in rows :: ListedIn(start, o) && !Terminal(o.status)
    requires !CheckAllOpen(p, rows, env).raised
    ensures AddsExactly(p, CheckAllOpen(p, rows, env), m => OpenCause(m, rows, CheckAllOpen(p, rows, env).db, env))
    decreases |rows|
  {
    hide CheckOpen, OpenCause, OpenFinding, AnswersAgree, PendingNoted;
    if rows == [] {
      NoOpenRows(CheckAllOpen(p, rows, env).db, env);
    } else {
      var rest, last := rows[..|rows| - 1], rows[|rows| - 1];
      var mid, p' := CheckAllOpen(p, rest, env), CheckAllOpen(p, rows, env);
      assert rows == rest + [last] && last in rows && forall o | o in rest :: o in rows;
      if mid.raised {
        CheckOpenRaised(mid, last, env);
      }
      AllOpenFound(start, p, rest, env);
      AllOpenChecked(start, p, rest, env);
      GrowsOn(start, p.db, mid.db, env.view);
      CheckOpenStep(start, mid, last, env);
      OpenStep(mid, last, env);
      hide Grows;
      forall m
        ensures m in p'.notes <==> m in p.notes || OpenCause(m, rows, p'.db, env)
      {
        SameOrders(start, mid.db, env.view);
        OpenCauseSame(m, rest, mid.db, p'.db, env);
        OneMoreOpen(m, rest, last, p'.db, env);
      }
    }
  }

  lemma NoOpenRows(db: Db, env: Env)
    ensures forall m :: !OpenCause(m, [], db, env)
  {
  }

  lemma SameOrders(a: Db, b: Db, v: View)
    requires Grows(a, b, v)
    ensures a.orders.Keys == b.orders.Keys
  {
  }

  // ------------------------------------------------------------------ orders that have ended

  /** The exchange knows nothing of it, contradicts it, or has, without contradicting it, executed less than is on
      record. */
  ghost predicate Doubted(kind: Kind, db: Db, env: Env, c: ClientOrderId) {
    match kind
    case TerminalMissing => Query(env.view, c) == Answered(None)
    case StateConflict => Disputed(db, env, c)
    case ExceedsExchange =>
      && c in db.orders && Query(env.view, c).Answered? && Query(env.view, c).value.Some?
      && !Disputed(db, env, c) && Query(env.view, c).value.value.executedQty < db.orders[c].executed
    case _ => false
  }

  lemma DoubtSame(kind: Kind, a: Db, b: Db, env: Env, c: ClientOrderId)
    requires Grows(a, b, env.view) && c in a.orders
    ensures Doubted(kind, a, env, c) <==> Doubted(kind, b, env, c)
  {
    assert RowGrows(a, b, env.view, c);
  }

  ghost predicate VerifyFinding(m: Mismatch, o: OrderRow, db: Db, env: Env) {
    m.order == Some(o.clientOrderId) && Doubted(m.kind, db, env, o.clientOrderId)
  }

  ghost predicate VerifyCause(m: Mismatch, rows: seq<OrderRow>, db: Db, env: Env) {
    exists o | o in rows :: VerifyFinding(m, o, db, env)
  }

  lemma VerifyCauseSame(m: Mismatch, rows: seq<OrderRow>, a: Db, b: Db, env: Env)
    requires Grows(a, b, env.view) && forall o | o in rows :: o.clientOrderId in a.orders
    ensures VerifyCause(m, rows, a, env) <==> VerifyCause(m, rows, b, env)
  {
    hide Doubted, Grows;
    forall o | o in rows
      ensures VerifyFinding(m, o, a, env) <==> VerifyFinding(m, o, b, env)
    {
      DoubtSame(m.kind, a, b, env, o.clientOrderId);
    }
  }

  lemma OneMoreEnded(m: Mismatch, rest: seq<OrderRow>, last: OrderRow, db: Db, env: Env)
    ensures VerifyCause(m, rest + [last], db, env) <==> VerifyCause(m, rest, db, env) || VerifyFinding(m, last, db, env)
  {
    hide VerifyFinding;
    assert forall o :: o in rest + [last] <==> o in rest || o == last;
  }

  /** A report that says what the row said when it was listed says nothing new. */
  lemma SameReportIsNoDoubt(start: Db, db: Db, env: Env, o: OrderRow, r: Report)
    requires Grows(start, db, env.view) && ListedIn(start, o) && Terminal(o.status) && Query(env.view, o.clientOrderId) == Answered(Some(r))
    requires r.status == o.status && r.executedQty == o.executed && !NotFoundReason(o.rejectReason)
    ensures !Disputed(db, env, o.clientOrderId) && db.orders[o.clientOrderId].executed == r.executedQty
  {
    assert RowGrows(start, db, env.view, o.clientOrderId);
  }

  lemma VerifyStepFinds(start: Db, p: Progress, o: OrderRow, env: Env)
    requires WellFormed(p.db) && AnswersAgree(env.view) && Grows(start, p.db, env.view)
    requires ListedIn(start, o) && Terminal(o.status) && !NotFoundReason(o.rejectReason) && !VerifyTerminal(p, o, env).raised
    ensures var p' := VerifyTerminal(p, o, env);
            AddsExactly(p, p', m => VerifyFinding(m, o, p'.db, env))
  {
    var c := o.clientOrderId;
    var p' := VerifyTerminal(p, o, env);
    VerifyNote(start, p, o, env);
    hide VerifyTerminal, Grows, AnswersAgree;
    if Query(env.view, c) == Answered(None) {
      NotesOneMore(p, p', Mismatch(TerminalMissing, Some(c)));
    } else if Disputed(p'.db, env, c) {
      NotesOneMore(p, p', Mismatch(StateConflict, Some(c)));
    } else if Doubted(ExceedsExchange, p'.db, env, c) {
      NotesOneMore(p, p', Mismatch(ExceedsExchange, Some(c)));
    }
  }

  lemma VerifyNote(start: Db, p: Progress, o: OrderRow, env: Env)
    requires WellFormed(p.db) && AnswersAgree(env.view) && Grows(start, p.db, env.view)
    requires ListedIn(start, o) && Terminal(o.status) && !NotFoundReason(o.rejectReason) && !VerifyTerminal(p, o, env).raised
    ensures var p', c := VerifyTerminal(p, o, env), o.clientOrderId;
            && p'.pending == p.pending
            && p'.notes == p.notes + (if Query(env.view, c) == Answered(None) then [Mismatch(TerminalMissing, Some(c))]
                                      else if Disputed(p'.db, env, c) then [Mismatch(StateConflict, Some(c))]
                                      else if Doubted(ExceedsExchange, p'.db, env, c) then [Mismatch(ExceedsExchange, Some(c))]
                                      else [])
  {
    var c := o.clientOrderId;
    SameOrders(start, p.db, env.view);
    match Query(env.view, c) {
      case Unreachable =>
      case Answered(None) =>
      case Answered(Some(r)) =>
        assert AnswersOrder(env.view, c, r);
        if r.status == o.status && r.executedQty == o.executed {
          SameReportIsNoDoubt(start, p.db, env, o, r);
        } else {
          TakenOrDisputed(p.db, env, r);
        }
    }
  }

  /** Of the ended orders that are looked at: findings are exactly those the exchange does not know, contradicts, or has
      executed less of. */
  lemma {:induction false} AllVerifiedFound(start: Db, p: Progress, rows: seq<OrderRow>, env: Env)
    requires WellFormed(p.db) && AnswersAgree(env.view) && Grows(start, p.db, env.view)
    requires forall o | o in rows :: ListedIn(start, o) && Terminal(o.status) && !NotFoundReason(o.rejectReason)
    requires !VerifyAll(p, rows, env).raised
    ensures AddsExactly(p, VerifyAll(p, rows, env), m => VerifyCause(m, rows, VerifyAll(p, rows, env).db, env))
    decreases |rows|
  {
    hide VerifyTerminal, VerifyCause, VerifyFinding, AnswersAgree, PendingNoted;
    if rows == [] {
      NoEndedRows(VerifyAll(p, rows, env).db, env);
    } else {
      var rest, last := rows[..|rows| - 1], rows[|rows| - 1];
      var mid, p' := VerifyAll(p, rest, env), VerifyAll(p, rows, env);
      assert rows == rest + [last] && last in rows && forall o | o in rest :: o in rows;
      if mid.raised {
        VerifyRaised(mid, last, env);
      }
      AllVerifiedFound(start, p, rest, env);
      AllVerified(start, p, rest, env);
      GrowsOn(start, p.db, mid.db, env.view);
      VerifyStep(start, mid, last, env);
      VerifyStepFinds(start, mid, last, env);
      hide Grows;
      forall m
        ensures m in p'.notes <==> m in p.notes || VerifyCause(m, rows, p'.db, env)
      {
        SameOrders(start, mid.db, env.view);
        VerifyCauseSame(m, rest, mid.db, p'.db, env);
        OneMoreEnded(m, rest, last, p'.db, env);
      }
    }
  }

  lemma NoEndedRows(db: Db, env: Env)
    ensures forall m :: !VerifyCause(m, [], db, env)
  {
  }

  // ------------------------------------------------------------------ orders open at the exchange

  ghost predicate KnownCause(m: Mismatch, reports: seq<Report>, db: Db) {
    exists r | r in reports :: m == Mismatch(if r.clientOrderId.BotOrder? then UnknownOpenOrder else ForeignOpenOrder, Some(r.clientOrderId))
                               && r.clientOrderId !in db.orders
  }

  /** Here both directions: every order that is open at the exchange and not in the ledger is a finding, and nothing else. */
  lemma {:induction false} KnownExactly(p: Progress, reports: seq<Report>)
    requires !p.raised
    ensures var p' := CheckAllKnown(p, reports);
            && p'.pending == p.pending && !p'.raised
            && forall m :: m in p'.notes <==> m in p.notes || KnownCause(m, reports, p.db)
    decreases |reports|
  {
    if reports != [] {
      var rest, last := reports[..|reports| - 1], reports[|reports| - 1];
      KnownExactly(p, rest);
      assert forall r | r in reports :: r in rest || r == last;
      var mid, p' := CheckAllKnown(p, rest), CheckAllKnown(p, reports);
      forall m
        ensures m in p'.notes <==> m in p.notes || KnownCause(m, reports, p.db)
      {
        OneMoreKnown(m, rest, last, p.db);
        assert reports == rest + [last];
      }
    }
  }

  lemma OneMoreKnown(m: Mismatch, rest: seq<Report>, last: Report, db: Db)
    ensures KnownCause(m, rest + [last], db) <==>
              KnownCause(m, rest, db)
              || (m == Mismatch(if last.clientOrderId.BotOrder? then UnknownOpenOrder else ForeignOpenOrder, Some(last.clientOrderId))
                  && last.clientOrderId !in db.orders)
  {
    assert forall r :: r in rest + [last] <==> r in rest || r == last;
  }

  // ------------------------------------------------------------------ recent trades

  /** The ledger does not know the order of the trade: the exchange has no order for it either, or one that is not in
      the ledger. */
  ghost predicate Unclaimed(m: Mismatch, xf: ExchangeFill, db: Db, env: Env) {
    && !(Present(xf.exchangeOrderId) && xf.exchangeOrderId.value in db.byExchangeId)
    && match QueryByExchangeId(env.view, xf.exchangeOrderId)
       case Unreachable => false
       case Answered(None) => m == Mismatch(ForeignFill, None)
       case Answered(Some(r)) =>
         && r.clientOrderId !in db.orders
         && m == Mismatch(if r.clientOrderId.BotOrder? then UnknownBotFill else ForeignFill, Some(r.clientOrderId))
  }

  lemma UnclaimedSame(m: Mismatch, xf: ExchangeFill, a: Db, b: Db, env: Env)
    requires WellFormed(a) && Grows(a, b, env.view) && AnswersAgree(env.view)
    requires env.view.trades.Answered? && xf in env.view.trades.value
    ensures Unclaimed(m, xf, a, env) <==> Unclaimed(m, xf, b, env)
  {
    if Present(xf.exchangeOrderId) && xf.exchangeOrderId.value in b.byExchangeId && xf.exchangeOrderId.value !in a.byExchangeId {
      assert TradedAs(env.view, xf.exchangeOrderId.value);
      LearnedId(a, b, env, xf.exchangeOrderId.value);
    }
  }

  ghost predicate RecoverCause(m: Mismatch, xfs: seq<ExchangeFill>, db: Db, env: Env) {
    exists xf | xf in xfs :: Unclaimed(m, xf, db, env)
  }

  lemma RecoverCauseSame(m: Mismatch, xfs: seq<ExchangeFill>, a: Db, b: Db, env: Env)
    requires WellFormed(a) && Grows(a, b, env.view) && AnswersAgree(env.view)
    requires env.view.trades.Answered? && forall xf | xf in xfs :: xf in env.view.trades.value
    ensures RecoverCause(m, xfs, a, env) <==> RecoverCause(m, xfs, b, env)
  {
    hide Unclaimed, Grows, AnswersAgree;
    forall xf | xf in xfs
      ensures Unclaimed(m, xf, a, env) <==> Unclaimed(m, xf, b, env)
    {
      UnclaimedSame(m, xf, a, b, env);
    }
  }

  lemma OneMoreTrade(m: Mismatch, rest: seq<ExchangeFill>, last: ExchangeFill, db: Db, env: Env)
    ensures RecoverCause(m, rest + [last], db, env) <==> RecoverCause(m, rest, db, env) || Unclaimed(m, last, db, env)
  {
    hide Unclaimed;
    assert forall xf :: xf in rest + [last] <==> xf in rest || xf == last;
  }

  lemma RecoverStepFinds(p: Progress, xf: ExchangeFill, env: Env)
    requires WellFormed(p.db) && AnswersAgree(env.view) && xf.clientOrderId.None? && !RecoverFill(p, xf, env).raised
    requires env.view.trades.Answered? && xf in env.view.trades.value
    ensures var p' := RecoverFill(p, xf, env);
            AddsExactly(p, p', m => Unclaimed(m, xf, p'.db, env))
  {
    var p' := RecoverFill(p, xf, env);
    RecoverStep(p, xf, env);
    forall m
      ensures Unclaimed(m, xf, p'.db, env) <==> Unclaimed(m, xf, p.db, env)
    {
      UnclaimedSame(m, xf, p.db, p'.db, env);
    }
    hide Grows, AnswersAgree;
    TradeNote(p, xf, env);
  }

  lemma TradeNote(p: Progress, xf: ExchangeFill, env: Env)
    requires WellFormed(p.db) && !RecoverFill(p, xf, env).raised
    ensures AddsExactly(p, RecoverFill(p, xf, env), m => Unclaimed(m, xf, p.db, env))
  {
    var p' := RecoverFill(p, xf, env);
    if p'.notes != p.notes {
      NotesOneMore(p, p', p'.notes[|p.notes|]);
    }
  }

  /** Of the trades of the window: findings are exactly those that no order of the ledger claims. */
  lemma {:induction false} AllTradesFound(p: Progress, xfs: seq<ExchangeFill>, env: Env)
    requires WellFormed(p.db) && AnswersAgree(env.view) && forall xf | xf in xfs :: xf.clientOrderId.None?
    requires env.view.trades.Answered? && forall xf | xf in xfs :: xf in env.view.trades.value
    requires !RecoverAll(p, xfs, env).raised
    ensures AddsExactly(p, RecoverAll(p, xfs, env), m => RecoverCause(m, xfs, RecoverAll(p, xfs, env).db, env))
    decreases |xfs|
  {
    hide RecoverFill, RecoverCause, Unclaimed, Grows, AnswersAgree, PendingNoted;
    if xfs == [] {
      NoTrades(RecoverAll(p, xfs, env).db, env);
    } else {
      var rest, last := xfs[..|xfs| - 1], xfs[|xfs| - 1];
      var mid, p' := RecoverAll(p, rest, env), RecoverAll(p, xfs, env);
      assert xfs == rest + [last] && last in xfs && forall xf | xf in rest :: xf in xfs;
      if mid.raised {
        RecoverRaised(mid, last, env);
      }
      AllTradesFound(p, rest, env);
      AllRecovered(p, rest, env);
      RecoverStep(mid, last, env);
      RecoverStepFinds(mid, last, env);
      forall m
        ensures m in p'.notes <==> m in p.notes || RecoverCause(m, xfs, p'.db, env)
      {
        RecoverCauseSame(m, rest, mid.db, p'.db, env);
        OneMoreTrade(m, rest, last, p'.db, env);
      }
    }
  }

  lemma NoTrades(db: Db, env: Env)
    ensures forall m :: !RecoverCause(m, [], db, env)
  {
  }

  // ------------------------------------------------------------------ executed quantities

  ghost predicate Unexplained(m: Mismatch, o: OrderRow, db: Db, tolerance: real) {
    m == Mismatch(FillsIncomplete, Some(o.clientOrderId)) && MustBeExplained(o) && !Explains(db, o, tolerance)
  }

  ghost predicate ExplainCause(m: Mismatch, rows: seq<OrderRow>, db: Db, tolerance: real) {
    exists o | o in rows :: Unexplained(m, o, db, tolerance)
  }

  lemma OneMoreExplained(m: Mismatch, rest: seq<OrderRow>, last: OrderRow, db: Db, tolerance: real)
    ensures ExplainCause(m, rest + [last], db, tolerance) <==> ExplainCause(m, rest, db, tolerance) || Unexplained(m, last, db, tolerance)
  {
    hide Unexplained;
    assert forall o :: o in rest + [last] <==> o in rest || o == last;
  }

  lemma ExplainStepFinds(p: Progress, o: OrderRow, env: Env, tolerance: real)
    requires WellFormed(p.db) && !ExplainExecuted(p, o, env, tolerance).raised
    ensures var p' := ExplainExecuted(p, o, env, tolerance);
            AddsExactly(p, p', m => Unexplained(m, o, p'.db, tolerance))
  {
    var p' := ExplainExecuted(p, o, env, tolerance);
    if p'.notes != p.notes {
      NotesOneMore(p, p', Mismatch(FillsIncomplete, Some(o.clientOrderId)));
    }
  }

  /** An order whose executions are all taken stays as explained, or not, as it is. */
  lemma StaysAsExplained(p: Progress, o: OrderRow, env: Env, tolerance: real, other: OrderRow)
    requires WellFormed(p.db) && AnswersAgree(env.view) && !ExplainExecuted(p, o, env, tolerance).raised
    requires ListedIn(p.db, o) && ListedIn(p.db, other) && ExplainDone(p.db, env, other, tolerance) && MustBeExplained(other)
    ensures Explains(ExplainExecuted(p, o, env, tolerance).db, other, tolerance) <==> Explains(p.db, other, tolerance)
  {
    ExplainKeeps(p, o, env, tolerance, other);
    var c := o.clientOrderId;
    if MustBeExplained(o) && !Explains(p.db, o, tolerance) && !Explains(p.db, other, tolerance) {
      if other.clientOrderId == c {
        OrderFillsQuiet(p.db, c, env.now, env.view);
      } else if p.db.orders[c].exchangeOrderId.Some? && QueryFills(env.view, c).Answered? {
        OwnFills(p.db, env.view, c);
        OthersUnchanged(p.db, QueryFills(env.view, c).value, env.now, c, other.clientOrderId);
      }
    }
  }

  lemma ExplainCauseSame(m: Mismatch, rows: seq<OrderRow>, p: Progress, last: OrderRow, env: Env, tolerance: real)
    requires WellFormed(p.db) && AnswersAgree(env.view) && !ExplainExecuted(p, last, env, tolerance).raised && ListedIn(p.db, last)
    requires forall o | o in rows :: ListedIn(p.db, o) && ExplainDone(p.db, env, o, tolerance)
    ensures ExplainCause(m, rows, p.db, tolerance) <==> ExplainCause(m, rows, ExplainExecuted(p, last, env, tolerance).db, tolerance)
  {
    hide ExplainExecuted, ExplainDone, Explains, AnswersAgree, MustBeExplained;
    forall o | o in rows && MustBeExplained(o)
      ensures Explains(ExplainExecuted(p, last, env, tolerance).db, o, tolerance) <==> Explains(p.db, o, tolerance)
    {
      StaysAsExplained(p, last, env, tolerance, o);
    }
  }

  /** Of the newest orders: findings are exactly those whose executed quantity is still not on record. */
  lemma {:induction false} AllUnexplainedFound(p: Progress, rows: seq<OrderRow>, env: Env, tolerance: real)
    requires WellFormed(p.db) && AnswersAgree(env.view) && !ExplainAll(p, rows, env, tolerance).raised
    requires forall o | o in rows :: ListedIn(p.db, o)
    ensures AddsExactly(p, ExplainAll(p, rows, env, tolerance), m => ExplainCause(m, rows, ExplainAll(p, rows, env, tolerance).db, tolerance))
    decreases |rows|
  {
    hide ExplainExecuted, ExplainDone, Explains, Grows, AnswersAgree, MustBeExplained, PendingNoted, ExplainCause, Unexplained;
    if rows == [] {
      NothingToExplain(ExplainAll(p, rows, env, tolerance).db, tolerance);
    } else {
      var rest, last := rows[..|rows| - 1], rows[|rows| - 1];
      var mid, p' := ExplainAll(p, rest, env, tolerance), ExplainAll(p, rows, env, tolerance);
      assert rows == rest + [last] && last in rows && forall o | o in rest :: o in rows;
      if mid.raised {
        ExplainRaised(mid, last, env, tolerance);
      }
      AllUnexplainedFound(p, rest, env, tolerance);
      AllExplained(p, rest, env, tolerance);
      ExplainStepFinds(mid, last, env, tolerance);
      forall m
        ensures m in p'.notes <==> m in p.notes || ExplainCause(m, rows, p'.db, tolerance)
      {
        ExplainCauseSame(m, rest, mid, last, env, tolerance);
        OneMoreExplained(m, rest, last, p'.db, tolerance);
      }
    }
  }

  lemma NothingToExplain(db: Db, tolerance: real)
    ensures forall m :: !ExplainCause(m, [], db, tolerance)
  {
  }

  // ------------------------------------------------------------------ the position

  /** A finding that is there or not. */
  function If(found: bool, kind: Kind): seq<Mismatch> {
    if found then [Mismatch(kind, None)] else []
  }

  function Times(n: nat, kind: Kind): seq<Mismatch> {
    seq(n, i => Mismatch(kind, None))
  }

  lemma PositionNotes(p: Progress, env: Env, tolerance: real)
    requires WellFormed(p.db) && !CheckPosition(p, env, tolerance).raised
    ensures var p' := CheckPosition(p, env, tolerance);
            var moved := PositionOf(p'.db, env.symbol).qty - PositionOf(p.db, env.symbol).qty;
            var n := |RebuildAnomalies(PositionOf(p.db, env.symbol), ByTime(FillsOf(p.db.fills, env.symbol)))|;
            && env.view.baseTotal.Answered? && p'.pending == p.pending && p'.db == PositionRebuilt(p.db, env.symbol)
            && p'.notes == p.notes + If(moved < -tolerance || moved > tolerance, PositionCorrected) + Times(n, AnomalousPosition)
                           + If(PositionOf(p'.db, env.symbol).qty - env.view.baseTotal.value > tolerance, BalanceBelowPosition)
  {
    hide RebuildAnomalies, PositionRebuilt, FillsOf, ByTime, WellFormed, PositionOf;
  }

  /** What the last check finds, exactly: a position that the rebuild moves by more than the tolerance, one finding for
      each anomaly of the fills, and a position that the account does not hold. */
  lemma PositionFindings(p: Progress, env: Env, tolerance: real)
    requires WellFormed(p.db) && !CheckPosition(p, env, tolerance).raised
    ensures var p' := CheckPosition(p, env, tolerance);
            var moved := PositionOf(p'.db, env.symbol).qty - PositionOf(p.db, env.symbol).qty;
            var anomalies := RebuildAnomalies(PositionOf(p'.db, env.symbol), ByTime(FillsOf(p'.db.fills, env.symbol)));
            && env.view.baseTotal.Answered? && p'.pending == p.pending
            && exists news :: p'.notes == p.notes + news
                 && (forall m | m in news :: m.order == None && m.kind in {PositionCorrected, AnomalousPosition, BalanceBelowPosition})
                 && (Mismatch(PositionCorrected, None) in news <==> moved < -tolerance || moved > tolerance)
                 && (Mismatch(AnomalousPosition, None) in news <==> anomalies != [])
                 && (Mismatch(BalanceBelowPosition, None) in news <==>
                       PositionOf(p'.db, env.symbol).qty - env.view.baseTotal.value > tolerance)
  {
    hide RebuildAnomalies, PositionRebuilt, FillsOf, ByTime, WellFormed, PositionOf, CheckPosition;
    var p' := CheckPosition(p, env, tolerance);
    PositionNotes(p, env, tolerance);
    SameAnomalies(p.db, env.symbol);
    var moved := PositionOf(p'.db, env.symbol).qty - PositionOf(p.db, env.symbol).qty;
    var n := |RebuildAnomalies(PositionOf(p.db, env.symbol), ByTime(FillsOf(p.db.fills, env.symbol)))|;
    var first, second := If(moved < -tolerance || moved > tolerance, PositionCorrected), Times(n, AnomalousPosition);
    var third := If(PositionOf(p'.db, env.symbol).qty - env.view.baseTotal.value > tolerance, BalanceBelowPosition);
    ThreeParts(first, second, third, n);
    assert p'.notes == p.notes + (first + second + third);
  }

  lemma ThreeParts(first: seq<Mismatch>, second: seq<Mismatch>, third: seq<Mismatch>, n: nat)
    requires first == [] || first == [Mismatch(PositionCorrected, None)]
    requires second == Times(n, AnomalousPosition)
    requires third == [] || third == [Mismatch(BalanceBelowPosition, None)]
    ensures forall m | m in first + second + third ::
              m.order == None && m.kind in {PositionCorrected, AnomalousPosition, BalanceBelowPosition}
    ensures Mismatch(PositionCorrected, None) in first + second + third <==> first != []
    ensures Mismatch(AnomalousPosition, None) in first + second + third <==> n > 0
    ensures Mismatch(BalanceBelowPosition, None) in first + second + third <==> third != []
  {
    assert forall m :: m in second ==> m == Mismatch(AnomalousPosition, None);
    assert n > 0 ==> second[0] in second;
    assert forall m :: m in first + second + third <==> m in first || m in second || m in third;
  }

  /** Rebuilding leaves the fills and the last mark. */
  lemma SameAnomalies(db: Db, symbol: Symbol)
    requires WellFormed(db)
    ensures PositionRebuilt(db, symbol).fills == db.fills
    ensures RebuildAnomalies(PositionOf(PositionRebuilt(db, symbol), symbol), ByTime(FillsOf(db.fills, symbol))) ==
            RebuildAnomalies(PositionOf(db, symbol), ByTime(FillsOf(db.fills, symbol)))
  {
    hide ByTime, FillsOf;
  }

  ghost predicate PositionCause(m: Mismatch, before: Db, db: Db, env: Env, tolerance: real) {
    m.order == None && env.view.baseTotal.Answered? &&
    match m.kind
    case PositionCorrected =>
      var moved := PositionOf(db, env.symbol).qty - PositionOf(before, env.symbol).qty;
      moved < -tolerance || moved > tolerance
    case AnomalousPosition => RebuildAnomalies(PositionOf(db, env.symbol), ByTime(FillsOf(db.fills, env.symbol))) != []
    case BalanceBelowPosition => PositionOf(db, env.symbol).qty - env.view.baseTotal.value > tolerance
    case _ => false
  }

  lemma PositionFound(p: Progress, env: Env, tolerance: real)
    requires WellFormed(p.db) && !CheckPosition(p, env, tolerance).raised
    ensures var p' := CheckPosition(p, env, tolerance);
            AddsExactly(p, p', m => PositionCause(m, p.db, p'.db, env, tolerance))
  {
    hide CheckPosition, RebuildAnomalies, FillsOf, ByTime, PositionOf;
    PositionFindings(p, env, tolerance);
    var p' := CheckPosition(p, env, tolerance);
    var moved := PositionOf(p'.db, env.symbol).qty - PositionOf(p.db, env.symbol).qty;
    var anomalies := RebuildAnomalies(PositionOf(p'.db, env.symbol), ByTime(FillsOf(p'.db.fills, env.symbol)));
    var news :| p'.notes == p.notes + news
                && (forall m | m in news :: m.order == None && m.kind in {PositionCorrected, AnomalousPosition, BalanceBelowPosition})
                && (Mismatch(PositionCorrected, None) in news <==> moved < -tolerance || moved > tolerance)
                && (Mismatch(AnomalousPosition, None) in news <==> anomalies != [])
                && (Mismatch(BalanceBelowPosition, None) in news <==>
                      PositionOf(p'.db, env.symbol).qty - env.view.baseTotal.value > tolerance);
    forall m
      ensures m in news <==> PositionCause(m, p.db, p'.db, env, tolerance)
    {
      assert m == Mismatch(m.kind, m.order);
    }
  }

  // ------------------------------------------------------------------ the whole run

  /** Inside the lookback, and no older than ten minutes before the last success. */
  predicate InWindow(env: Env, lastSuccess: Option<int>, xf: ExchangeFill) {
    env.now - env.lookback <= xf.timeMs && (lastSuccess.Some? ==> lastSuccess.value - 600000 <= xf.timeMs)
  }

  ghost predicate TradeCause(m: Mismatch, db: Db, env: Env, lastSuccess: Option<int>) {
    env.view.trades.Answered? &&
    exists xf | xf in env.view.trades.value && InWindow(env, lastSuccess, xf) :: Unclaimed(m, xf, db, env)
  }

  function TheTolerance(env: Env): real
    requires env.view.stepSize.Answered?
  {
    if env.view.stepSize.value < 0.00000001 then 0.00000001 else env.view.stepSize.value
  }

  /** Why a run that started on `start` and left `db` notes a finding. */
  ghost predicate Cause(m: Mismatch, start: Db, db: Db, env: Env, lastSuccess: Option<int>)
    requires WellFormed(start) && WellFormed(db) && env.view.open.Answered? && env.view.stepSize.Answered?
  {
    || OpenCause(m, NonTerminal(start, start.created, env.symbol), db, env)
    || VerifyCause(m, ToVerify(AfterOpen(start, env).db, env), db, env)
    || KnownCause(m, env.view.open.value, db)
    || TradeCause(m, db, env, lastSuccess)
    || ExplainCause(m, Newest(db, env.symbol), db, TheTolerance(env))
    || PositionCause(m, AfterExplain(start, env, lastSuccess).db, db, env, TheTolerance(env))
  }

  lemma OpenNotes(db: Db, env: Env, m: Mismatch)
    requires WellFormed(db) && AnswersAgree(env.view) && !AfterOpen(db, env).raised
    ensures var p := AfterOpen(db, env);
            PendingNoted(p) && (m in p.notes <==> OpenCause(m, NonTerminal(db, db.created, env.symbol), p.db, env))
  {
    hide OpenCause, Grows, AnswersAgree, CheckAllOpen;
    GrowsNot(db, env.view);
    NonTerminalListed(db, db.created, env.symbol);
    AllOpenFound(db, Progress(db, [], 0, false), NonTerminal(db, db.created, env.symbol), env);
  }

  lemma VerifyNotes(db: Db, env: Env, m: Mismatch)
    requires WellFormed(db) && AnswersAgree(env.view) && !AfterVerify(db, env).raised
    ensures !AfterOpen(db, env).raised
    ensures var p, p' := AfterOpen(db, env), AfterVerify(db, env);
            && (PendingNoted(p) ==> PendingNoted(p'))
            && (m in p'.notes <==> m in p.notes || VerifyCause(m, ToVerify(p.db, env), p'.db, env))
  {
    hide VerifyCause, Grows, AnswersAgree, VerifyAll, ToVerify, AfterOpen, PendingNoted;
    var p := AfterOpen(db, env);
    if p.raised {
      VerifyAllRaised(p, ToVerify(p.db, env), env);
    }
    GrowsNot(p.db, env.view);
    ToVerifyListed(p.db, env);
    AllVerifiedFound(p.db, p, ToVerify(p.db, env), env);
  }

  lemma KnownKeepsPending(p: Progress, reports: seq<Report>)
    requires !p.raised && PendingNoted(p)
    ensures PendingNoted(CheckAllKnown(p, reports))
  {
    KnownExactly(p, reports);
  }

  lemma RecoverNotes(db: Db, env: Env, lastSuccess: Option<int>, m: Mismatch)
    requires WellFormed(db) && AnswersAgree(env.view) && env.view.open.Answered? && !AfterRecover(db, env, lastSuccess).raised
    ensures env.view.trades.Answered? && !AfterVerify(db, env).raised
    ensures var p, p' := AfterVerify(db, env), AfterRecover(db, env, lastSuccess);
            && (PendingNoted(p) ==> PendingNoted(p'))
            && (m in p'.notes <==>
                  || m in p.notes || KnownCause(m, env.view.open.value, p.db)
                  || RecoverCause(m, TradesSince(env.view.trades.value, Since(env, lastSuccess)), p'.db, env))
  {
    hide RecoverCause, KnownCause, Grows, AnswersAgree, RecoverAll, CheckAllKnown, AfterVerify, TradesSince, PendingNoted;
    RecoverStage(db, env, lastSuccess);
    var p := AfterVerify(db, env);
    KnownExactly(p, env.view.open.value);
    if PendingNoted(p) {
      KnownKeepsPending(p, env.view.open.value);
    }
    RecoverInputs(env, lastSuccess);
    AllTradesFound(CheckAllKnown(p, env.view.open.value), TradesSince(env.view.trades.value, Since(env, lastSuccess)), env);
  }

  lemma RecoverInputs(env: Env, lastSuccess: Option<int>)
    requires AnswersAgree(env.view) && env.view.trades.Answered?
    ensures forall xf :: xf in TradesSince(env.view.trades.value, Since(env, lastSuccess)) <==>
                           xf in env.view.trades.value && InWindow(env, lastSuccess, xf)
    ensures forall xf | xf in env.view.trades.value :: xf.clientOrderId.None?
  {
    SinceListed(env.view.trades.value, Since(env, lastSuccess));
  }

  lemma ExplainNotes(db: Db, env: Env, lastSuccess: Option<int>, m: Mismatch)
    requires WellFormed(db) && AnswersAgree(env.view) && env.view.open.Answered? && env.view.stepSize.Answered?
    requires !AfterExplain(db, env, lastSuccess).raised
    ensures !AfterRecover(db, env, lastSuccess).raised
    ensures var p, p' := AfterRecover(db, env, lastSuccess), AfterExplain(db, env, lastSuccess);
            && (PendingNoted(p) ==> PendingNoted(p'))
            && (m in p'.notes <==> m in p.notes || ExplainCause(m, Newest(p.db, env.symbol), p'.db, TheTolerance(env)))
  {
    hide ExplainCause, Grows, AnswersAgree, ExplainAll, Newest, AfterRecover, PendingNoted;
    var p := AfterRecover(db, env, lastSuccess);
    NewestListed(p.db, env.symbol);
    AllUnexplainedFound(p, Newest(p.db, env.symbol), env, Tolerance(env.view.stepSize.value));
  }

  // ------------------------------------------------------------------ causes at the end of the run

  lemma FirstCauses(db: Db, env: Env, lastSuccess: Option<int>, m: Mismatch)
    requires WellFormed(db) && AnswersAgree(env.view) && !RunBody(db, env, lastSuccess).raised
    ensures PendingNoted(AfterVerify(db, env))
    ensures var db' := RunBody(db, env, lastSuccess).db;
            m in AfterVerify(db, env).notes <==>
              || OpenCause(m, NonTerminal(db, db.created, env.symbol), db', env)
              || VerifyCause(m, ToVerify(AfterOpen(db, env).db, env), db', env)
  {
    hide *;
    RunGrows(db, env, lastSuccess);
    OpenNotes(db, env, m);
    VerifyNotes(db, env, m);
    var p1, p2, p := AfterOpen(db, env), AfterVerify(db, env), RunBody(db, env, lastSuccess);
    CreatedIn(db);
    OpenRowsIn(db, env);
    EndedRowsIn(db, env);
    OpenCauseSame(m, NonTerminal(db, db.created, env.symbol), p1.db, p.db, env);
    VerifyCauseSame(m, ToVerify(p1.db, env), p2.db, p.db, env);
  }

  lemma CreatedIn(db: Db)
    requires WellFormed(db)
    ensures forall c | c in db.created :: c in db.orders
  {
  }

  lemma OpenRowsIn(db: Db, env: Env)
    requires WellFormed(db) && !AfterOpen(db, env).raised && AnswersAgree(env.view)
    ensures forall o | o in NonTerminal(db, db.created, env.symbol) :: o.clientOrderId in AfterOpen(db, env).db.orders
  {
    hide AfterOpen, AnswersAgree, NonTerminal, OpenDone, OpenResolved;
    NonTerminalListed(db, db.created, env.symbol);
    OpenStage(db, env);
  }

  lemma EndedRowsIn(db: Db, env: Env)
    requires WellFormed(db) && !AfterVerify(db, env).raised && AnswersAgree(env.view)
    ensures forall o | o in ToVerify(AfterOpen(db, env).db, env) :: o.clientOrderId in AfterVerify(db, env).db.orders
  {
    hide AfterOpen, AfterVerify, AnswersAgree, ToVerify, VerifyDone, Confirmed;
    ToVerifyListed(AfterOpen(db, env).db, env);
    VerifyStage(db, env);
  }

  lemma TradeCauseSame(m: Mismatch, a: Db, b: Db, env: Env, lastSuccess: Option<int>)
    requires WellFormed(a) && Grows(a, b, env.view) && AnswersAgree(env.view) && env.view.trades.Answered?
    ensures RecoverCause(m, TradesSince(env.view.trades.value, Since(env, lastSuccess)), a, env) <==> TradeCause(m, b, env, lastSuccess)
  {
    hide Unclaimed, Grows, TradesSince, AnswersAgree, InWindow;
    RecoverInputs(env, lastSuccess);
    RecoverCauseSame(m, TradesSince(env.view.trades.value, Since(env, lastSuccess)), a, b, env);
  }

  lemma LaterCauses(db: Db, env: Env, lastSuccess: Option<int>, m: Mismatch)
    requires WellFormed(db) && AnswersAgree(env.view) && !RunBody(db, env, lastSuccess).raised && env.view.open.Answered?
    ensures PendingNoted(AfterVerify(db, env)) ==> PendingNoted(AfterRecover(db, env, lastSuccess))
    ensures var db' := RunBody(db, env, lastSuccess).db;
            m in AfterRecover(db, env, lastSuccess).notes <==>
              m in AfterVerify(db, env).notes || KnownCause(m, env.view.open.value, db') || TradeCause(m, db', env, lastSuccess)
  {
    hide AfterVerify, AfterRecover, RunBody, Grows, AnswersAgree, RecoverCause, TradeCause, TradesSince, PendingNoted;
    RunGrows(db, env, lastSuccess);
    RecoverNotes(db, env, lastSuccess, m);
    var p2, p4, p := AfterVerify(db, env), AfterRecover(db, env, lastSuccess), RunBody(db, env, lastSuccess);
    SameOrders(p2.db, p.db, env.view);
    TradeCauseSame(m, p4.db, p.db, env, lastSuccess);
  }

  lemma ExplainCauseOfFills(m: Mismatch, rows: seq<OrderRow>, a: Db, b: Db, tolerance: real)
    requires a.fills == b.fills
    ensures ExplainCause(m, rows, a, tolerance) <==> ExplainCause(m, rows, b, tolerance)
  {
    hide MustBeExplained, RecordedQty;
  }

  lemma SameNewest(db: Db, env: Env, lastSuccess: Option<int>)
    requires WellFormed(db) && AnswersAgree(env.view) && !RunBody(db, env, lastSuccess).raised
    requires env.view.open.Answered? && env.view.stepSize.Answered?
    ensures RunBody(db, env, lastSuccess).db.fills == AfterExplain(db, env, lastSuccess).db.fills
    ensures Newest(RunBody(db, env, lastSuccess).db, env.symbol) == Newest(AfterRecover(db, env, lastSuccess).db, env.symbol)
  {
    hide AfterRecover, AfterExplain, RunBody, Grows, AnswersAgree, Newest;
    RunGrows(db, env, lastSuccess);
    ExplainStage(db, env, lastSuccess);
    NewestSame(AfterRecover(db, env, lastSuccess).db, RunBody(db, env, lastSuccess).db, env, env.symbol);
  }

  lemma LastCauses(db: Db, env: Env, lastSuccess: Option<int>, m: Mismatch)
    requires WellFormed(db) && AnswersAgree(env.view) && !RunBody(db, env, lastSuccess).raised
    requires env.view.open.Answered? && env.view.stepSize.Answered?
    ensures PendingNoted(AfterRecover(db, env, lastSuccess)) ==> PendingNoted(RunBody(db, env, lastSuccess))
    ensures var p, db' := RunBody(db, env, lastSuccess), RunBody(db, env, lastSuccess).db;
            m in p.notes <==>
              || m in AfterRecover(db, env, lastSuccess).notes
              || ExplainCause(m, Newest(db', env.symbol), db', TheTolerance(env))
              || PositionCause(m, AfterExplain(db, env, lastSuccess).db, db', env, TheTolerance(env))
  {
    hide AfterRecover, AfterExplain, Grows, AnswersAgree, Newest, ExplainCause, PositionCause, PendingNoted, CheckPosition;
    RunGrows(db, env, lastSuccess);
    var p4, p5, p := AfterRecover(db, env, lastSuccess), AfterExplain(db, env, lastSuccess), RunBody(db, env, lastSuccess);
    ExplainNotes(db, env, lastSuccess, m);
    SameNewest(db, env, lastSuccess);
    ExplainCauseOfFills(m, Newest(p4.db, env.symbol), p5.db, p.db, TheTolerance(env));
    PositionFound(p5, env, Tolerance(env.view.stepSize.value));
  }

  lemma Completed(db: Db, env: Env, lastSuccess: Option<int>)
    requires WellFormed(db) && AnswersAgree(env.view) && !RunBody(db, env, lastSuccess).raised
    ensures env.view.stepSize.Answered? && env.view.open.Answered? && env.view.trades.Answered?
  {
    hide AfterOpen, AfterVerify, AfterRecover, AfterExplain, CheckPosition, Grows, AnswersAgree;
    RunGrows(db, env, lastSuccess);
    RecoverStage(db, env, lastSuccess);
  }

  /** The findings of a completed run, exactly, as seen in what it leaves: an order that waits for its answer or is
      disputed; an ended order that the exchange does not know, contradicts or has executed less of; an order or a trade
      that it has and the ledger has not; an executed quantity that the fills do not explain; and a position that was
      moved, has anomalies or is not held. An order is pending exactly when one was found to wait. */
  lemma FindingsExactly(db: Db, env: Env, lastSuccess: Option<int>, m: Mismatch)
    requires WellFormed(db) && AnswersAgree(env.view) && !RunBody(db, env, lastSuccess).raised
    ensures env.view.open.Answered? && env.view.stepSize.Answered?
    ensures var p := RunBody(db, env, lastSuccess);
            (m in p.notes <==> Cause(m, db, p.db, env, lastSuccess)) && PendingNoted(p)
  {
    hide AfterOpen, AfterVerify, AfterRecover, AfterExplain, RunBody, AnswersAgree, Newest, ToVerify, NonTerminal;
    hide OpenCause, VerifyCause, KnownCause, TradeCause, ExplainCause, PositionCause, PendingNoted;
    Completed(db, env, lastSuccess);
    FirstCauses(db, env, lastSuccess, m);
    LaterCauses(db, env, lastSuccess, m);
    LastCauses(db, env, lastSuccess, m);
  }

  // ------------------------------------------------------------------ HEALTHY, exactly

  /** Nothing is wrong after a run: every order that was open has been heard of, every open order of the bot is known, the
      ended orders that were looked at are confirmed, the executed quantities are explained, the trades of the window belong
      to orders of the ledger or to nobody's of the bot, and the position is trusted. */
  ghost predicate NothingWrong(start: Db, db: Db, env: Env, lastSuccess: Option<int>)
    requires WellFormed(start) && WellFormed(db) && env.view.stepSize.Answered? && env.view.trades.Answered?
  {
    && NothingPending(start, db, env)
    && OpenOrdersKnown(db, env)
    && TerminalsConfirmed(AfterOpen(start, env).db, db, env)
    && ExecutedExplained(db, env, TheTolerance(env))
    && (forall xf | xf in env.view.trades.value && InWindow(env, lastSuccess, xf) :: TradeKnown(db, env, xf))
    && PositionTrusted(db, env, TheTolerance(env))
  }

  lemma OpenFindingIsUnresolved(m: Mismatch, o: OrderRow, db: Db, env: Env)
    requires OpenFinding(m, o, db, env)
    ensures !OpenResolved(db, env, o)
  {
  }

  lemma NoOpenCause(m: Mismatch, rows: seq<OrderRow>, start: Db, db: Db, env: Env)
    requires NothingPending(start, db, env)
    requires forall o | o in rows :: ListedIn(start, o) && !Terminal(o.status) && o.symbol == env.symbol
    ensures !OpenCause(m, rows, db, env)
  {
    hide OpenFinding, OpenResolved;
    forall o | o in rows
      ensures !OpenFinding(m, o, db, env)
    {
      assert OpenResolved(db, env, start.orders[o.clientOrderId]);
      if OpenFinding(m, o, db, env) {
        OpenFindingIsUnresolved(m, o, db, env);
      }
    }
  }

  lemma DoubtedIsUnconfirmed(m: Mismatch, o: OrderRow, a: Db, db: Db, env: Env)
    requires VerifyFinding(m, o, db, env) && Grows(a, db, env.view)
    requires ListedIn(a, o) && Terminal(o.status) && !NotFoundReason(o.rejectReason)
    ensures !Confirmed(db, env, o.clientOrderId)
  {
    assert RowGrows(a, db, env.view, o.clientOrderId);
  }

  lemma NoVerifyCause(m: Mismatch, verified: Db, db: Db, env: Env)
    requires WellFormed(verified) && Grows(verified, db, env.view) && TerminalsConfirmed(verified, db, env)
    ensures !VerifyCause(m, ToVerify(verified, env), db, env)
  {
    hide VerifyFinding, Confirmed, Grows, ToVerify;
    ToVerifyListed(verified, env);
    forall o | o in ToVerify(verified, env)
      ensures !VerifyFinding(m, o, db, env)
    {
      if VerifyFinding(m, o, db, env) {
        DoubtedIsUnconfirmed(m, o, verified, db, env);
      }
    }
  }

  lemma UnclaimedIsUnknown(m: Mismatch, xf: ExchangeFill, db: Db, env: Env)
    requires Unclaimed(m, xf, db, env) && TradeKnown(db, env, xf)
    ensures m.kind == ForeignFill
  {
  }

  lemma TrustedHasNoCause(m: Mismatch, before: Db, db: Db, env: Env, tolerance: real)
    requires WellFormed(db) && PositionCause(m, before, db, env, tolerance) && PositionTrusted(db, env, tolerance)
    ensures m.kind == PositionCorrected
  {
    PositionSymbol(db, env.symbol);
  }

  lemma PositionSymbol(db: Db, symbol: Symbol)
    requires WellFormed(db)
    ensures PositionOf(db, symbol).symbol == symbol
  {
  }

  lemma NothingWrongNothingFound(db: Db, env: Env, lastSuccess: Option<int>, m: Mismatch)
    requires WellFormed(db) && AnswersAgree(env.view) && !RunBody(db, env, lastSuccess).raised
    requires env.view.stepSize.Answered? && env.view.open.Answered? && env.view.trades.Answered?
    requires NothingWrong(db, RunBody(db, env, lastSuccess).db, env, lastSuccess)
    requires m in RunBody(db, env, lastSuccess).notes
    ensures !Critical(m.kind) && m.kind != AmbiguousPending
  {
    hide Unclaimed, MustBeExplained, Explains, Grows, AnswersAgree, OpenCause, VerifyCause, NothingPending, TerminalsConfirmed;
    hide AfterOpen, AfterExplain, RunBody, Newest, ToVerify, NonTerminal, InWindow, PositionCause, PositionTrusted;
    RunGrows(db, env, lastSuccess);
    FindingsExactly(db, env, lastSuccess, m);
    var db' := RunBody(db, env, lastSuccess).db;
    NonTerminalListed(db, db.created, env.symbol);
    NoOpenCause(m, NonTerminal(db, db.created, env.symbol), db, db', env);
    NoVerifyCause(m, AfterOpen(db, env).db, db', env);
    if TradeCause(m, db', env, lastSuccess) {
      var xf :| xf in env.view.trades.value && InWindow(env, lastSuccess, xf) && Unclaimed(m, xf, db', env);
      UnclaimedIsUnknown(m, xf, db', env);
    } else if PositionCause(m, AfterExplain(db, env, lastSuccess).db, db', env, TheTolerance(env)) {
      TrustedHasNoCause(m, AfterExplain(db, env, lastSuccess).db, db', env, TheTolerance(env));
    }
  }

  /** A run that completes ends HEALTHY exactly when nothing is wrong with what it leaves and the state was not HALTED, or
      an operator has acknowledged that. */
  lemma HealthyExactly(db: Db, env: Env, previous: State, operatorAck: bool)
    requires WellFormed(db) && AnswersAgree(env.view) && !RunBody(db, env, previous.lastSuccess).raised
    ensures env.view.stepSize.Answered? && env.view.trades.Answered?
    ensures var (db', status) := Reconciled(db, env, previous, operatorAck);
            status.Healthy? <==> NothingWrong(db, db', env, previous.lastSuccess) && (previous.status.Halted? ==> operatorAck)
  {
    hide RunBody, NothingPending, OpenOrdersKnown, TerminalsConfirmed, ExecutedExplained, TradeKnown, RecoverDone, PositionTrusted, Cause;
    var p := RunBody(db, env, previous.lastSuccess);
    Completed(db, env, previous.lastSuccess);
    if Reconciled(db, env, previous, operatorAck).1.Healthy? {
      HealthyIsSound(db, env, previous, operatorAck);
    }
    if NothingWrong(db, p.db, env, previous.lastSuccess) {
      forall m | m in p.notes
        ensures !Critical(m.kind) && m.kind != AmbiguousPending
      {
        NothingWrongNothingFound(db, env, previous.lastSuccess, m);
      }
      FindingsExactly(db, env, previous.lastSuccess, Mismatch(AmbiguousPending, None));
      assert forall k | 0 <= k < |p.notes| :: p.notes[k] in p.notes;
    }
  }
}
