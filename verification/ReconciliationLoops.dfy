/** What each loop of a reconciliation run leaves behind: facts that hold for every element it went through,
    that the rest of the run keeps, and that make a second pass change nothing. */
module ReconciliationLoops {
  import opened Common
  import opened OrderModel
  import opened Ledger
  import opened Submission
  import opened Reconciliation
  import opened ReconciliationLaws

  /** Findings only accumulate. */
  ghost predicate More(p: Progress, p': Progress) {
    p.notes <= p'.notes && p.pending <= p'.pending && (p.raised ==> p'.raised)
  }

  ghost predicate NoFindings(p: Progress) {
    !AnyCritical(p.notes) && p.pending == 0
  }

  lemma CleanBefore(p: Progress, p': Progress)
    requires More(p, p') && NoFindings(p')
    ensures NoFindings(p)
  {
  }

  lemma NotedIsCritical(p: Progress, kind: Kind, order: Option<ClientOrderId>)
    requires Critical(kind)
    ensures !NoFindings(Noted(p, kind, order))
  {
    assert Noted(p, kind, order).notes[|p.notes|].kind == kind;
  }

  ghost predicate ListedIn(db: Db, o: OrderRow) {
    o.clientOrderId in db.orders && db.orders[o.clientOrderId] == o
  }

  lemma CheckOpenRaised(p: Progress, o: OrderRow, env: Env)
    requires WellFormed(p.db) && p.raised
    ensures CheckOpen(p, o, env) == p
  {
  }

  lemma VerifyRaised(p: Progress, o: OrderRow, env: Env)
    requires WellFormed(p.db) && p.raised
    ensures VerifyTerminal(p, o, env) == p
  {
  }

  lemma RecoverRaised(p: Progress, xf: ExchangeFill, env: Env)
    requires WellFormed(p.db) && p.raised
    ensures RecoverFill(p, xf, env) == p
  {
  }

  // ------------------------------------------------------------------ orders that are not known to have ended

  /** Asking again about this order would change nothing. */
  ghost predicate OpenDone(db: Db, env: Env, c: ClientOrderId) {
    && c in db.orders
    && (Terminal(db.orders[c].status)
        || match Query(env.view, c)
           case Unreachable => NeedsResolution(db.orders[c])
           case Answered(None) =>
             if NeedsResolution(db.orders[c]) then Age(db.orders[c], env.now) < env.grace
             else OrderFillsTaken(db, env.view, c)
           case Answered(Some(r)) => Settled(db, r) && OrderFillsTaken(db, env.view, c))
  }

  /** The exchange has answered about this order and the answer is in the ledger. */
  ghost predicate OpenResolved(db: Db, env: Env, o: OrderRow) {
    && o.clientOrderId in db.orders
    && match Query(env.view, o.clientOrderId)
       case Unreachable => false
       case Answered(None) =>
         NeedsResolution(o) ==> Age(o, env.now) >= env.grace && Terminal(db.orders[o.clientOrderId].status)
       case Answered(Some(r)) => OrderLaws.Absorbs(db.orders[o.clientOrderId], r)
  }

  lemma OpenDoneStays(a: Db, b: Db, env: Env, c: ClientOrderId)
    requires WellFormed(a) && Grows(a, b, env.view) && AnswersAgree(env.view) && OpenDone(a, env, c)
    ensures OpenDone(b, env, c)
  {
    assert RowGrows(a, b, env.view, c);
    if !Terminal(a.orders[c].status) && !Terminal(b.orders[c].status) {
      match Query(env.view, c) {
        case Unreachable =>
        case Answered(None) =>
          if !NeedsResolution(a.orders[c]) {
            OrderFillsStay(a, b, env.view, c);
          }
        case Answered(Some(r)) =>
          assert AnswersOrder(env.view, c, r);
          SettledStays(a, b, env.view, r);
          OrderFillsStay(a, b, env.view, c);
      }
    }
  }

  lemma OpenResolvedStays(a: Db, b: Db, env: Env, o: OrderRow)
    requires WellFormed(a) && Grows(a, b, env.view) && OpenResolved(a, env, o)
    ensures OpenResolved(b, env, o)
  {
    assert RowGrows(a, b, env.view, o.clientOrderId);
  }

  /** The report, if there is one, is taken first, then the executions. */
  lemma RefreshedOrder(db: Db, c: ClientOrderId, env: Env, r: Report)
    requires WellFormed(db) && AnswersAgree(env.view) && c in db.orders && Query(env.view, c) == Answered(Some(r))
    ensures var (db', ended) := Refreshed(db, c, Query(env.view, c), QueryFills(env.view, c), env.now);
            && Grows(db, db', env.view)
            && (!ended.RaisedError? ==> OpenDone(db', env, c))
            && (ended.Returned? ==> OrderLaws.Absorbs(db'.orders[c], r))
  {
    assert AnswersOrder(env.view, c, r);
    TakeGrows(db, r, env.now, env.view);
    var (db1, ended) := ReportTaken(db, r, env.now);
    if ended.Returned? {
      OrderFillsGrow(db1, c, env.now, env.view);
      var db2 := OrderFillsIngested(db1, c, QueryFills(env.view, c), env.now).0;
      GrowsOn(db, db1, db2, env.view);
      SettledStays(db1, db2, env.view, r);
    }
  }

  lemma ResolveIsRefresh(db: Db, o: OrderRow, env: Env, r: Report)
    requires WellFormed(db) && o.clientOrderId in db.orders && !Terminal(o.status)
    requires Query(env.view, o.clientOrderId) == Answered(Some(r))
    ensures var c := o.clientOrderId;
            var (db', ended) := Refreshed(db, c, Query(env.view, c), QueryFills(env.view, c), env.now);
            Resolve(db, o, Query(env.view, c), QueryFills(env.view, c), env.now, env.grace) ==
            (db', if ended.Returned? then Resolved else Failed(ended))
  {
  }

  lemma CheckOpenWithReport(start: Db, p: Progress, o: OrderRow, env: Env, r: Report)
    requires WellFormed(p.db) && AnswersAgree(env.view) && Grows(start, p.db, env.view)
    requires ListedIn(start, o) && !Terminal(o.status) && !CheckOpen(p, o, env).raised
    requires Query(env.view, o.clientOrderId) == Answered(Some(r))
    ensures var p' := CheckOpen(p, o, env);
            && Grows(p.db, p'.db, env.view) && More(p, p') && OpenDone(p'.db, env, o.clientOrderId)
            && (NoFindings(p') ==> OpenResolved(p'.db, env, o))
  {
    var c := o.clientOrderId;
    RefreshedOrder(p.db, c, env, r);
    var (db, ended) := Refreshed(p.db, c, Query(env.view, c), QueryFills(env.view, c), env.now);
    ResolveIsRefresh(p.db, o, env, r);
    if ended.RaisedConflict? {
      NotedIsCritical(p.(db := db), StateConflict, Some(c));
    }
  }

  lemma CheckOpenWithoutReport(start: Db, p: Progress, o: OrderRow, env: Env)
    requires WellFormed(p.db) && AnswersAgree(env.view) && Grows(start, p.db, env.view)
    requires ListedIn(start, o) && !Terminal(o.status) && !CheckOpen(p, o, env).raised
    requires Query(env.view, o.clientOrderId) == Answered(None)
    ensures var p' := CheckOpen(p, o, env);
            && Grows(p.db, p'.db, env.view) && More(p, p') && OpenDone(p'.db, env, o.clientOrderId)
            && (NoFindings(p') ==> OpenResolved(p'.db, env, o))
  {
    var c := o.clientOrderId;
    assert RowGrows(start, p.db, env.view, c);
    if !NeedsResolution(o) {
      OrderFillsGrow(p.db, c, env.now, env.view);
      var db := OrderFillsIngested(p.db, c, QueryFills(env.view, c), env.now).0;
      assert db.orders == p.db.orders;
    } else if Age(o, env.now) >= env.grace {
      RejectGrows(p.db, c, NotFoundAfter(Age(o, env.now)), env.now, env.view);
    } else {
      GrowsNot(p.db, env.view);
    }
  }

  lemma CheckOpenStep(start: Db, p: Progress, o: OrderRow, env: Env)
    requires WellFormed(p.db) && AnswersAgree(env.view) && Grows(start, p.db, env.view)
    requires ListedIn(start, o) && !Terminal(o.status) && !CheckOpen(p, o, env).raised
    ensures var p' := CheckOpen(p, o, env);
            && Grows(p.db, p'.db, env.view) && More(p, p') && OpenDone(p'.db, env, o.clientOrderId)
            && (NoFindings(p') ==> OpenResolved(p'.db, env, o))
  {
    match Query(env.view, o.clientOrderId) {
      case Unreachable =>
        assert RowGrows(start, p.db, env.view, o.clientOrderId);
        GrowsNot(p.db, env.view);
      case Answered(None) => CheckOpenWithoutReport(start, p, o, env);
      case Answered(Some(r)) => CheckOpenWithReport(start, p, o, env, r);
    }
  }

  lemma {:induction false} AllOpenChecked(start: Db, p: Progress, rows: seq<OrderRow>, env: Env)
    requires WellFormed(p.db) && AnswersAgree(env.view) && Grows(start, p.db, env.view)
    requires forall o | o in rows :: ListedIn(start, o) && !Terminal(o.status)
    requires !CheckAllOpen(p, rows, env).raised
    ensures var p' := CheckAllOpen(p, rows, env);
            && Grows(p.db, p'.db, env.view) && More(p, p')
            && (forall o | o in rows :: OpenDone(p'.db, env, o.clientOrderId))
            && (NoFindings(p') ==> forall o | o in rows :: OpenResolved(p'.db, env, o))
    decreases |rows|
  {
    hide CheckOpen, OpenDone, OpenResolved, Grows, AnswersAgree;
    if rows == [] {
      GrowsNot(p.db, env.view);
    } else {
      var rest, last := rows[..|rows| - 1], rows[|rows| - 1];
      var mid, p' := CheckAllOpen(p, rest, env), CheckAllOpen(p, rows, env);
      assert forall o | o in rest :: o in rows;
      if mid.raised {
        CheckOpenRaised(mid, last, env);
      }
      AllOpenChecked(start, p, rest, env);
      GrowsOn(start, p.db, mid.db, env.view);
      CheckOpenStep(start, mid, last, env);
      GrowsOn(p.db, mid.db, p'.db, env.view);
      forall o | o in rows
        ensures OpenDone(p'.db, env, o.clientOrderId)
        ensures NoFindings(p') ==> OpenResolved(p'.db, env, o)
      {
        if o in rest {
          OpenDoneStays(mid.db, p'.db, env, o.clientOrderId);
          if NoFindings(p') {
            CleanBefore(mid, p');
            OpenResolvedStays(mid.db, p'.db, env, o);
          }
        }
      }
    }
  }

  lemma CheckOpenQuiet(p: Progress, o: OrderRow, env: Env)
    requires WellFormed(p.db) && AnswersAgree(env.view) && !p.raised
    requires ListedIn(p.db, o) && !Terminal(o.status) && OpenDone(p.db, env, o.clientOrderId)
    ensures CheckOpen(p, o, env).db == p.db && !CheckOpen(p, o, env).raised
  {
    var c := o.clientOrderId;
    match Query(env.view, c) {
      case Unreachable =>
      case Answered(None) =>
        if !NeedsResolution(o) {
          OrderFillsQuiet(p.db, c, env.now, env.view);
        }
      case Answered(Some(r)) =>
        assert AnswersOrder(env.view, c, r);
        SettledIsQuiet(p.db, r, env.now);
        OrderFillsQuiet(p.db, c, env.now, env.view);
        ResolveIsRefresh(p.db, o, env, r);
    }
  }

  lemma {:induction false} AllOpenQuiet(p: Progress, rows: seq<OrderRow>, env: Env)
    requires WellFormed(p.db) && AnswersAgree(env.view) && !p.raised
    requires forall o | o in rows :: ListedIn(p.db, o) && !Terminal(o.status) && OpenDone(p.db, env, o.clientOrderId)
    ensures CheckAllOpen(p, rows, env).db == p.db && !CheckAllOpen(p, rows, env).raised
    decreases |rows|
  {
    if rows != [] {
      assert forall o | o in rows[..|rows| - 1] :: o in rows;
      AllOpenQuiet(p, rows[..|rows| - 1], env);
      CheckOpenQuiet(CheckAllOpen(p, rows[..|rows| - 1], env), rows[|rows| - 1], env);
    }
  }

  // ------------------------------------------------------------------ orders that have ended

  ghost predicate VerifyDone(db: Db, env: Env, c: ClientOrderId) {
    && c in db.orders
    && match Query(env.view, c)
       case Unreachable => false
       case Answered(None) => true
       case Answered(Some(r)) =>
         Settled(db, r) || (r.status == db.orders[c].status && r.executedQty == db.orders[c].executed)
  }

  /** The exchange confirms the executed quantity and does not contradict the status. */
  ghost predicate Confirmed(db: Db, env: Env, c: ClientOrderId) {
    && c in db.orders && Terminal(db.orders[c].status)
    && match Query(env.view, c)
       case Answered(Some(r)) =>
         r.executedQty == db.orders[c].executed && (Terminal(r.status) ==> r.status == db.orders[c].status)
       case _ => false
  }

  lemma VerifyDoneStays(a: Db, b: Db, env: Env, c: ClientOrderId)
    requires WellFormed(a) && Grows(a, b, env.view) && AnswersAgree(env.view) && VerifyDone(a, env, c)
    ensures VerifyDone(b, env, c)
  {
    assert RowGrows(a, b, env.view, c);
    if Query(env.view, c).Answered? && Query(env.view, c).value.Some? {
      assert AnswersOrder(env.view, c, Query(env.view, c).value.value);
    }
  }

  lemma ConfirmedStays(a: Db, b: Db, env: Env, c: ClientOrderId)
    requires Grows(a, b, env.view) && Confirmed(a, env, c)
    ensures Confirmed(b, env, c)
  {
    assert RowGrows(a, b, env.view, c);
  }

  lemma VerifyWithReport(start: Db, p: Progress, o: OrderRow, env: Env, r: Report)
    requires WellFormed(p.db) && AnswersAgree(env.view) && Grows(start, p.db, env.view)
    requires ListedIn(start, o) && Terminal(o.status) && !VerifyTerminal(p, o, env).raised
    requires Query(env.view, o.clientOrderId) == Answered(Some(r))
    ensures var p' := VerifyTerminal(p, o, env);
            && Grows(p.db, p'.db, env.view) && More(p, p') && VerifyDone(p'.db, env, o.clientOrderId)
            && (NoFindings(p') ==> Confirmed(p'.db, env, o.clientOrderId))
  {
    var c := o.clientOrderId;
    assert AnswersOrder(env.view, c, r);
    assert RowGrows(start, p.db, env.view, c);
    if r.status == o.status && r.executedQty == o.executed {
      GrowsNot(p.db, env.view);
    } else {
      TakeGrows(p.db, r, env.now, env.view);
      var (db, ended) := ReportTaken(p.db, r, env.now);
      assert RowGrows(p.db, db, env.view, c);
      if ended.RaisedConflict? {
        NotedIsCritical(p.(db := db), StateConflict, Some(c));
      } else if r.executedQty < db.orders[c].executed {
        NotedIsCritical(p.(db := db), ExceedsExchange, Some(c));
      }
    }
  }

  lemma VerifyStep(start: Db, p: Progress, o: OrderRow, env: Env)
    requires WellFormed(p.db) && AnswersAgree(env.view) && Grows(start, p.db, env.view)
    requires ListedIn(start, o) && Terminal(o.status) && !VerifyTerminal(p, o, env).raised
    ensures var p' := VerifyTerminal(p, o, env);
            && Grows(p.db, p'.db, env.view) && More(p, p') && VerifyDone(p'.db, env, o.clientOrderId)
            && (NoFindings(p') ==> Confirmed(p'.db, env, o.clientOrderId))
  {
    match Query(env.view, o.clientOrderId) {
      case Unreachable =>
      case Answered(None) =>
        GrowsNot(p.db, env.view);
        NotedIsCritical(p, TerminalMissing, Some(o.clientOrderId));
      case Answered(Some(r)) => VerifyWithReport(start, p, o, env, r);
    }
  }

  lemma {:induction false} AllVerified(start: Db, p: Progress, rows: seq<OrderRow>, env: Env)
    requires WellFormed(p.db) && AnswersAgree(env.view) && Grows(start, p.db, env.view)
    requires forall o | o in rows :: ListedIn(start, o) && Terminal(o.status)
    requires !VerifyAll(p, rows, env).raised
    ensures var p' := VerifyAll(p, rows, env);
            && Grows(p.db, p'.db, env.view) && More(p, p')
            && (forall o | o in rows :: VerifyDone(p'.db, env, o.clientOrderId))
            && (NoFindings(p') ==> forall o | o in rows :: Confirmed(p'.db, env, o.clientOrderId))
    decreases |rows|
  {
    hide VerifyTerminal, VerifyDone, Confirmed, Grows, AnswersAgree;
    if rows == [] {
      GrowsNot(p.db, env.view);
    } else {
      var rest, last := rows[..|rows| - 1], rows[|rows| - 1];
      var mid, p' := VerifyAll(p, rest, env), VerifyAll(p, rows, env);
      assert forall o | o in rest :: o in rows;
      if mid.raised {
        VerifyRaised(mid, last, env);
      }
      AllVerified(start, p, rest, env);
      GrowsOn(start, p.db, mid.db, env.view);
      VerifyStep(start, mid, last, env);
      GrowsOn(p.db, mid.db, p'.db, env.view);
      forall o | o in rows
        ensures VerifyDone(p'.db, env, o.clientOrderId)
        ensures NoFindings(p') ==> Confirmed(p'.db, env, o.clientOrderId)
      {
        if o in rest {
          VerifyDoneStays(mid.db, p'.db, env, o.clientOrderId);
          if NoFindings(p') {
            CleanBefore(mid, p');
            ConfirmedStays(mid.db, p'.db, env, o.clientOrderId);
          }
        }
      }
    }
  }

  lemma VerifyQuiet(p: Progress, o: OrderRow, env: Env)
    requires WellFormed(p.db) && AnswersAgree(env.view) && !p.raised && ListedIn(p.db, o) && VerifyDone(p.db, env, o.clientOrderId)
    ensures VerifyTerminal(p, o, env).db == p.db && !VerifyTerminal(p, o, env).raised
  {
  }

  lemma {:induction false} AllVerifiedQuiet(p: Progress, rows: seq<OrderRow>, env: Env)
    requires WellFormed(p.db) && AnswersAgree(env.view) && !p.raised
    requires forall o | o in rows :: ListedIn(p.db, o) && VerifyDone(p.db, env, o.clientOrderId)
    ensures VerifyAll(p, rows, env).db == p.db && !VerifyAll(p, rows, env).raised
    decreases |rows|
  {
    if rows != [] {
      assert forall o | o in rows[..|rows| - 1] :: o in rows;
      AllVerifiedQuiet(p, rows[..|rows| - 1], env);
      VerifyQuiet(VerifyAll(p, rows[..|rows| - 1], env), rows[|rows| - 1], env);
    }
  }

  // ------------------------------------------------------------------ orders open at the exchange

  lemma {:induction false} AllKnown(p: Progress, reports: seq<Report>)
    ensures var p' := CheckAllKnown(p, reports);
            && More(p, p') && p'.raised == p.raised
            && (NoFindings(p') && !p.raised ==> forall r | r in reports && r.clientOrderId.BotOrder? :: r.clientOrderId in p.db.orders)
    decreases |reports|
  {
    if reports != [] {
      var rest, last := reports[..|reports| - 1], reports[|reports| - 1];
      AllKnown(p, rest);
      var mid, p' := CheckAllKnown(p, rest), CheckAllKnown(p, reports);
      if NoFindings(p') && !p.raised {
        CleanBefore(mid, p');
        if last.clientOrderId.BotOrder? && last.clientOrderId !in p.db.orders {
          NotedIsCritical(mid, UnknownOpenOrder, Some(last.clientOrderId));
        }
        assert forall r | r in reports :: r in rest || r == last;
      }
    }
  }

  // ------------------------------------------------------------------ recent trades

  /** Recorded, foreign, or of an order whose report is taken but that is known under another exchange id. */
  ghost predicate RecoverDone(db: Db, env: Env, xf: ExchangeFill) {
    && xf.clientOrderId.None?
    && if Present(xf.exchangeOrderId) && xf.exchangeOrderId.value in db.byExchangeId then FillTaken(db, xf)
       else match QueryByExchangeId(env.view, xf.exchangeOrderId)
         case Unreachable => false
         case Answered(None) => true
         case Answered(Some(r)) =>
           r.clientOrderId in db.orders ==> OrderLaws.Absorbs(db.orders[r.clientOrderId], r)
  }

  /** A trade of an order that carries an id of the bot is a trade of an order of the ledger. */
  ghost predicate TradeKnown(db: Db, env: Env, xf: ExchangeFill) {
    || (Present(xf.exchangeOrderId) && xf.exchangeOrderId.value in db.byExchangeId)
    || (QueryByExchangeId(env.view, xf.exchangeOrderId).Answered?
        && var answer := QueryByExchangeId(env.view, xf.exchangeOrderId).value;
           answer.Some? && answer.value.clientOrderId.BotOrder? ==> answer.value.clientOrderId in db.orders)
  }

  /** An exchange id that becomes known was learned from the one report that carries it. */
  lemma LearnedId(a: Db, b: Db, env: Env, x: string)
    requires WellFormed(a) && Grows(a, b, env.view) && AnswersAgree(env.view)
    requires x != "" && x in b.byExchangeId && x !in a.byExchangeId && TradedAs(env.view, x)
    ensures var answer := QueryByExchangeId(env.view, Some(x));
            && answer.Answered? && answer.value.Some?
            && answer.value.value.clientOrderId in a.orders
            && !OrderLaws.Absorbs(a.orders[answer.value.value.clientOrderId], answer.value.value)
  {
    var c := b.byExchangeId[x];
    assert Indexed(b, x);
    assert RowGrows(a, b, env.view, c) && RowFits(a, c);
    var r := Query(env.view, c).value.value;
    assert AnswersOrder(env.view, c, r);
    assert AnswersId(env.view, x, r);
  }

  lemma RecoverDoneStays(a: Db, b: Db, env: Env, xf: ExchangeFill)
    requires WellFormed(a) && Grows(a, b, env.view) && AnswersAgree(env.view) && RecoverDone(a, env, xf)
    requires env.view.trades.Answered? && xf in env.view.trades.value
    ensures RecoverDone(b, env, xf)
  {
    if Present(xf.exchangeOrderId) && xf.exchangeOrderId.value in a.byExchangeId {
      FillTakenStays(a, b, env.view, xf);
    } else {
      if Present(xf.exchangeOrderId) && QueryByExchangeId(env.view, xf.exchangeOrderId).value.Some? {
        var r := QueryByExchangeId(env.view, xf.exchangeOrderId).value.value;
        assert AnswersId(env.view, xf.exchangeOrderId.value, r);
        if r.clientOrderId in a.orders {
          SettledStays(a, b, env.view, r);
        }
      }
      if Present(xf.exchangeOrderId) && xf.exchangeOrderId.value in b.byExchangeId {
        assert TradedAs(env.view, xf.exchangeOrderId.value);
        LearnedId(a, b, env, xf.exchangeOrderId.value);
      }
    }
  }

  lemma RecoverStep(p: Progress, xf: ExchangeFill, env: Env)
    requires WellFormed(p.db) && AnswersAgree(env.view) && xf.clientOrderId.None? && !RecoverFill(p, xf, env).raised
    ensures var p' := RecoverFill(p, xf, env);
            && Grows(p.db, p'.db, env.view) && More(p, p') && RecoverDone(p'.db, env, xf)
            && (NoFindings(p') ==> TradeKnown(p'.db, env, xf))
  {
    if Present(xf.exchangeOrderId) && xf.exchangeOrderId.value in p.db.byExchangeId {
      IngestGrows(p.db, xf, env.now, env.view);
    } else if QueryByExchangeId(env.view, xf.exchangeOrderId).value.None? {
      GrowsNot(p.db, env.view);
    } else {
      var r := QueryByExchangeId(env.view, xf.exchangeOrderId).value.value;
      assert AnswersId(env.view, xf.exchangeOrderId.value, r);
      GrowsNot(p.db, env.view);
      if r.clientOrderId in p.db.orders {
        RecoverReported(p, xf, env, r);
      } else if r.clientOrderId.BotOrder? {
        NotedIsCritical(p, UnknownBotFill, Some(r.clientOrderId));
      }
    }
  }

  lemma RecoverReported(p: Progress, xf: ExchangeFill, env: Env, r: Report)
    requires WellFormed(p.db) && AnswersAgree(env.view) && xf.clientOrderId.None?
    requires Present(xf.exchangeOrderId) && xf.exchangeOrderId.value !in p.db.byExchangeId
    requires QueryByExchangeId(env.view, xf.exchangeOrderId) == Answered(Some(r)) && r.clientOrderId in p.db.orders
    requires ReportTaken(p.db, r, env.now).1.Returned?
    ensures var db' := IngestFill(ReportTaken(p.db, r, env.now).0, xf, env.now).0;
            Grows(p.db, db', env.view) && RecoverDone(db', env, xf)
  {
    assert AnswersId(env.view, xf.exchangeOrderId.value, r);
    TakeGrows(p.db, r, env.now, env.view);
    var db := ReportTaken(p.db, r, env.now).0;
    IngestGrows(db, xf, env.now, env.view);
    GrowsOn(p.db, db, IngestFill(db, xf, env.now).0, env.view);
  }

  lemma TradeKnownStays(a: Db, b: Db, env: Env, xf: ExchangeFill)
    requires Grows(a, b, env.view) && TradeKnown(a, env, xf)
    ensures TradeKnown(b, env, xf)
  {
  }

  lemma {:induction false} AllRecovered(p: Progress, xfs: seq<ExchangeFill>, env: Env)
    requires WellFormed(p.db) && AnswersAgree(env.view) && forall xf | xf in xfs :: xf.clientOrderId.None?
    requires env.view.trades.Answered? && forall xf | xf in xfs :: xf in env.view.trades.value
    requires !RecoverAll(p, xfs, env).raised
    ensures var p' := RecoverAll(p, xfs, env);
            && Grows(p.db, p'.db, env.view) && More(p, p')
            && (forall xf | xf in xfs :: RecoverDone(p'.db, env, xf))
            && (NoFindings(p') ==> forall xf | xf in xfs :: TradeKnown(p'.db, env, xf))
    decreases |xfs|
  {
    hide RecoverFill, RecoverDone, TradeKnown, Grows, AnswersAgree;
    if xfs == [] {
      GrowsNot(p.db, env.view);
    } else {
      var rest, last := xfs[..|xfs| - 1], xfs[|xfs| - 1];
      var mid, p' := RecoverAll(p, rest, env), RecoverAll(p, xfs, env);
      assert forall xf | xf in rest :: xf in xfs;
      if mid.raised {
        RecoverRaised(mid, last, env);
      }
      AllRecovered(p, rest, env);
      RecoverStep(mid, last, env);
      GrowsOn(p.db, mid.db, p'.db, env.view);
      forall xf | xf in xfs
        ensures RecoverDone(p'.db, env, xf)
        ensures NoFindings(p') ==> TradeKnown(p'.db, env, xf)
      {
        if xf in rest {
          RecoverDoneStays(mid.db, p'.db, env, xf);
          if NoFindings(p') {
            CleanBefore(mid, p');
            TradeKnownStays(mid.db, p'.db, env, xf);
          }
        }
      }
    }
  }

  lemma RecoverQuiet(p: Progress, xf: ExchangeFill, env: Env)
    requires WellFormed(p.db) && !p.raised && RecoverDone(p.db, env, xf)
    ensures RecoverFill(p, xf, env).db == p.db && !RecoverFill(p, xf, env).raised
  {
    if Present(xf.exchangeOrderId) && xf.exchangeOrderId.value in p.db.byExchangeId {
      TakenIsQuiet(p.db, xf, env.now);
    } else if QueryByExchangeId(env.view, xf.exchangeOrderId).value.Some? {
      var r := QueryByExchangeId(env.view, xf.exchangeOrderId).value.value;
      if r.clientOrderId in p.db.orders {
        SettledIsQuiet(p.db, r, env.now);
        assert IngestFill(p.db, xf, env.now).0 == p.db;
      }
    }
  }

  lemma {:induction false} AllRecoveredQuiet(p: Progress, xfs: seq<ExchangeFill>, env: Env)
    requires WellFormed(p.db) && !p.raised && forall xf | xf in xfs :: RecoverDone(p.db, env, xf)
    ensures RecoverAll(p, xfs, env).db == p.db && !RecoverAll(p, xfs, env).raised
    decreases |xfs|
  {
    if xfs != [] {
      assert forall xf | xf in xfs[..|xfs| - 1] :: xf in xfs;
      AllRecoveredQuiet(p, xfs[..|xfs| - 1], env);
      RecoverQuiet(RecoverAll(p, xfs[..|xfs| - 1], env), xfs[|xfs| - 1], env);
    }
  }
}
