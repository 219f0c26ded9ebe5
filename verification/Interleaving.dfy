/** The whole life of a ledger, from empty: orders are persisted while reports and executions of earlier ones arrive,
    and the engine's own writes come in between (engine/application/order_service.py). */
module Interleaving {
  import opened Common
  import opened OrderModel
  import opened OrderLaws
  import opened Ledger
  import opened LedgerLaws
  import opened Confluence
  import opened Refusals

  /** An intent becomes an order, an order is refused or given up, or something arrives. */
  datatype Happening =
    | Persisted(intent: Intent, now: int)
    | Refused(order: ClientOrderId, reason: string, now: int)
    | Arrived(delivery: Delivery)

  function Placed(es: seq<Happening>): (cs: set<ClientOrderId>)
    decreases |es|
  {
    if es == [] then {}
    else Placed(es[..|es| - 1]) + (if es[|es| - 1].Persisted? then {BotOrder(es[|es| - 1].intent.id)} else {})
  }

  predicate TradeAbout(x: Exchange, cs: set<ClientOrderId>, k: string) {
    k in x.trades && x.trades[k].clientOrderId.Some? && x.trades[k].clientOrderId.value in cs
  }

  /** What the exchange can say once these orders have been placed. */
  function Said(x: Exchange, cs: set<ClientOrderId>): (known: Exchange) {
    Exchange(map c | c in x.history && c in cs :: x.history[c],
             map k | k in x.trades && TradeAbout(x, cs, k) :: x.trades[k],
             map k | k in x.events && x.events[k].order in cs
                     && (x.events[k].trade.Some? ==> TradeAbout(x, cs, x.events[k].trade.value)) :: x.events[k])
  }

  lemma SaidIsConsistent(x: Exchange, cs: set<ClientOrderId>)
    requires Confluence.Consistent(x)
    ensures Confluence.Consistent(Said(x, cs))
  {
    var y := Said(x, cs);
    forall c | c in y.history
      ensures HistoryConsistent(y, c)
    {
      assert HistoryConsistent(x, c);
    }
    forall c, d | c in y.history && d in y.history && c != d
      ensures IdsDiffer(y, c, d)
    {
      assert IdsDiffer(x, c, d);
    }
    forall k | k in y.trades
      ensures TradeConsistent(y, k)
    {
      assert TradeConsistent(x, k);
      forall l | l in y.trades && l != k
        ensures TradesDiffer(y, k, l)
      {
        assert TradesDiffer(x, k, l);
      }
    }
    forall k | k in y.events
      ensures EventConsistent(y, k)
    {
      assert EventConsistent(x, k);
    }
  }

  /** Every order that is placed has a history, maybe an empty one; only orders placed before are refused, for good
      when the exchange has nothing to say of them; and everything that arrives is about orders placed before. */
  ghost predicate Fits(x: Exchange, es: seq<Happening>)
    decreases |es|
  {
    es != [] ==>
      && Fits(x, es[..|es| - 1])
      && match es[|es| - 1]
         case Persisted(i, _) => BotOrder(i.id) in x.history
         case Refused(c, reason, _) => c in Placed(es[..|es| - 1]) && RefusalFits(x, c, reason)
         case Arrived(a) => Possible(Said(x, Placed(es[..|es| - 1])), a)
  }

  lemma {:induction false} PlacedHasHistory(x: Exchange, es: seq<Happening>)
    requires Fits(x, es)
    ensures Placed(es) <= x.history.Keys && Said(x, Placed(es)).history.Keys == Placed(es)
    decreases |es|
  {
    if es != [] {
      PlacedHasHistory(x, es[..|es| - 1]);
    }
  }

  // ------------------------------------------------------------------ the ledger, and what it has been told

  ghost function LedgerOf(x: Exchange, es: seq<Happening>): (db: Db)
    requires Confluence.Consistent(x) && Fits(x, es)
    ensures WellFormed(db)
    decreases |es|
  {
    if es == [] then EMPTY
    else
      var db := LedgerOf(x, es[..|es| - 1]);
      match es[|es| - 1]
      case Persisted(i, now) => PersistIntent(db, i, now).0
      case Refused(c, reason, now) => After(db, Step(Refuse(c, reason), now))
      case Arrived(a) =>
        SaidIsConsistent(x, Placed(es[..|es| - 1]));
        After(db, StepOf(Said(x, Placed(es[..|es| - 1])), a))
  }

  /** The newest report about c that has arrived, or -1; an order that is refused before anything has arrived about it
      stays given up. */
  ghost function NewestAbout(x: Exchange, es: seq<Happening>, c: ClientOrderId): int
    requires Confluence.Consistent(x) && Fits(x, es)
    decreases |es|
  {
    if es == [] then -1
    else
      var before := NewestAbout(x, es[..|es| - 1], c);
      match es[|es| - 1]
      case Persisted(_, _) => before
      case Refused(d, _, _) => if d == c && before == -1 then GIVEN_UP else before
      case Arrived(a) =>
        SaidIsConsistent(x, Placed(es[..|es| - 1]));
        if before == GIVEN_UP then GIVEN_UP else MaxInt(before, Carries(Said(x, Placed(es[..|es| - 1])), a, c))
  }

  ghost function NewestOf(x: Exchange, es: seq<Happening>): map<ClientOrderId, int>
    requires Confluence.Consistent(x) && Fits(x, es)
  {
    map c | c in Placed(es) :: NewestAbout(x, es, c)
  }

  /** The executions that have arrived, but for those in events of orders that were given up. */
  ghost function TradesArrived(x: Exchange, es: seq<Happening>): set<string>
    requires Confluence.Consistent(x) && Fits(x, es)
    decreases |es|
  {
    if es == [] then {}
    else
      var rest := es[..|es| - 1];
      var before := TradesArrived(x, rest);
      match es[|es| - 1]
      case Persisted(_, _) => before
      case Refused(_, _, _) => before
      case Arrived(a) =>
        SaidIsConsistent(x, Placed(rest));
        before + TradesHeard(Said(x, Placed(rest)), NewestOf(x, rest), a)
  }

  /** The same orders, as if nothing had arrived. */
  function Untouched(es: seq<Happening>): (db: Db)
    ensures WellFormed(db)
    decreases |es|
  {
    if es == [] then EMPTY
    else
      var db := Untouched(es[..|es| - 1]);
      if es[|es| - 1].Persisted? then PersistIntent(db, es[|es| - 1].intent, es[|es| - 1].now).0 else db
  }

  ghost predicate CaughtUp(x: Exchange, es: seq<Happening>)
    requires Confluence.Consistent(x) && Fits(x, es)
  {
    CaughtBy(Said(x, Placed(es)), Untouched(es), NewestOf(x, es), TradesArrived(x, es), LedgerOf(x, es))
  }

  // ------------------------------------------------------------------ one more order

  /** Persisting an order leaves everything else as it is, and repeating it changes nothing. */
  lemma PersistTables(db: Db, i: Intent, now: int)
    requires WellFormed(db)
    ensures var db', c := PersistIntent(db, i, now).0, BotOrder(i.id);
            && (c in db.orders ==> db' == db)
            && (c !in db.orders ==> db'.orders == db.orders[c := FreshRow(i, now).(version := 1)])
            && db'.fills == db.fills && db'.positions == db.positions && db'.processed == db.processed
  {
    assert BotOrder(i.id) in db.orders ==> RowFits(db, BotOrder(i.id));
  }

  /** An exchange that can say more, and two ledgers that know the same new order. */
  ghost predicate OneMore(x: Exchange, y: Exchange, start: Db, start': Db, c: ClientOrderId)
  {
    && x.history.Keys <= y.history.Keys && y.history.Keys == x.history.Keys + {c} && c !in x.history
    && (forall d | d in x.history :: y.history[d] == x.history[d])
    && x.trades.Keys <= y.trades.Keys && (forall k | k in x.trades :: y.trades[k] == x.trades[k])
    && x.events.Keys <= y.events.Keys && (forall k | k in x.events :: y.events[k] == x.events[k])
    && start'.orders.Keys == start.orders.Keys + {c} && (forall d | d in start.orders :: start'.orders[d] == start.orders[d])
  }

  lemma SubmittedGrows(x: Exchange, y: Exchange, start: Db, i: Intent, now: int)
    requires Confluence.Submitted(start, x) && BotOrder(i.id) !in start.orders
    requires OneMore(x, y, start, PersistIntent(start, i, now).0, BotOrder(i.id))
    ensures Confluence.Submitted(PersistIntent(start, i, now).0, y)
  {
    PersistTables(start, i, now);
    var start' := PersistIntent(start, i, now).0;
    forall d | d in y.history
      ensures Waits(start', y, d)
    {
      assert d in x.history ==> Waits(start, x, d);
    }
  }

  lemma FreshAnywhere(o: OrderRow, h: seq<Report>)
    requires FreshPoint(o)
    ensures AtPoint(o, h, -1)
  {
  }

  lemma OrdersGrow(x: Exchange, y: Exchange, start: Db, start': Db, n: map<ClientOrderId, int>, db: Db, db': Db, c: ClientOrderId)
    requires OrdersHold(start, x, n, db) && OneMore(x, y, start, start', c) && c in start'.orders && y.history.Keys <= start'.orders.Keys
    requires db'.orders == db.orders[c := start'.orders[c]] && FreshPoint(start'.orders[c])
    ensures OrdersHold(start', y, n[c := -1], db')
  {
    FreshAnywhere(start'.orders[c], y.history[c]);
    assert Positions(y, n[c := -1]);
    hide AtPoint, FreshPoint, Positions;
    forall d | d in y.history
      ensures OrderHolds(start', y, n[c := -1], db', d)
    {
      if d != c {
        assert OrderHolds(start, x, n, db, d);
      }
    }
  }

  ghost predicate FreshPoint(o: OrderRow) {
    AtPoint(o, [], -1)
  }

  lemma FillsStayTold(x: Exchange, y: Exchange, start: Db, start': Db, c: ClientOrderId, t: set<string>, db: Db, db': Db)
    requires Confluence.Consistent(x) && Confluence.Consistent(y) && Confluence.Submitted(start, x) && Confluence.Submitted(start', y)
    requires OneMore(x, y, start, start', c) && FillsAre(start, x, t, db)
    requires db'.fills == db.fills && db'.positions == db.positions
    ensures FillsAre(start', y, t, db')
  {
    forall k | k in t
      ensures k in y.trades && FillOfTrade(start', y, k) == FillOfTrade(start, x, k)
    {
      assert TradeConsistent(x, k);
    }
    forall s: Symbol
      ensures Explained(db', s)
    {
      assert Explained(db, s);
      var gs :| ExplainedBy(db, s, gs);
      FillsStay(db, db', s, gs);
    }
  }

  lemma EventsStayKept(x: Exchange, y: Exchange, start: Db, start': Db, c: ClientOrderId, n: map<ClientOrderId, int>,
        t: set<string>, db: Db, db': Db)
    requires OneMore(x, y, start, start', c) && Positions(x, n) && Positions(y, n[c := -1])
    requires ProcessedKept(x, n, t, db) && db'.processed == db.processed
    ensures ProcessedKept(y, n[c := -1], t, db')
  {
    forall k | k in db'.processed
      ensures EventKept(y, n[c := -1], t, k)
    {
      assert EventKept(x, n, t, k);
    }
  }

  lemma PersistCaught(x: Exchange, y: Exchange, start: Db, n: map<ClientOrderId, int>, t: set<string>, db: Db, i: Intent,
        now: int)
    requires CaughtBy(x, start, n, t, db) && Confluence.Consistent(y) && BotOrder(i.id) !in x.history
    requires OneMore(x, y, start, PersistIntent(start, i, now).0, BotOrder(i.id))
    ensures CaughtBy(y, PersistIntent(start, i, now).0, n[BotOrder(i.id) := -1], t, PersistIntent(db, i, now).0)
  {
    var start', db', c := PersistIntent(start, i, now).0, PersistIntent(db, i, now).0, BotOrder(i.id);
    PersistTables(start, i, now);
    PersistTables(db, i, now);
    assert c !in db.orders && c !in start.orders;
    SubmittedGrows(x, y, start, i, now);
    assert FreshPoint(start'.orders[c]);
    hide PersistIntent, Waits, OrderHolds, FillsAre, ProcessedKept, Confluence.Consistent, WellFormed;
    OrdersGrow(x, y, start, start', n, db, db', c);
    FillsStayTold(x, y, start, start', c, t, db, db');
    EventsStayKept(x, y, start, start', c, n, t, db, db');
  }

  // ------------------------------------------------------------------ a new order

  lemma {:induction false} NothingBefore(x: Exchange, es: seq<Happening>, c: ClientOrderId)
    requires Confluence.Consistent(x) && Fits(x, es) && c !in Placed(es)
    ensures NewestAbout(x, es, c) == -1
    decreases |es|
  {
    if es != [] {
      NothingBefore(x, es[..|es| - 1], c);
      PlacedHasHistory(x, es[..|es| - 1]);
    }
  }

  lemma LastOf(es: seq<Happening>, e: Happening)
    ensures (es + [e])[..|es + [e]| - 1] == es
  {
  }

  lemma SaidGrows(x: Exchange, es: seq<Happening>, i: Intent, now: int)
    requires Confluence.Consistent(x) && Fits(x, es) && BotOrder(i.id) in x.history && BotOrder(i.id) !in Placed(es)
    requires Untouched(es).orders.Keys == Placed(es)
    ensures OneMore(Said(x, Placed(es)), Said(x, Placed(es) + {BotOrder(i.id)}), Untouched(es),
                    PersistIntent(Untouched(es), i, now).0, BotOrder(i.id))
  {
    PersistTables(Untouched(es), i, now);
    PlacedHasHistory(x, es);
  }

  lemma NewestGrows(x: Exchange, es: seq<Happening>, i: Intent, now: int)
    requires Confluence.Consistent(x) && Fits(x, es + [Persisted(i, now)]) && Fits(x, es)
    ensures NewestOf(x, es + [Persisted(i, now)])
         == if BotOrder(i.id) in Placed(es) then NewestOf(x, es) else NewestOf(x, es)[BotOrder(i.id) := -1]
  {
    LastOf(es, Persisted(i, now));
    if BotOrder(i.id) !in Placed(es) {
      NothingBefore(x, es, BotOrder(i.id));
    }
  }

  lemma PersistedStep(x: Exchange, es: seq<Happening>, i: Intent, now: int)
    requires Confluence.Consistent(x) && Fits(x, es + [Persisted(i, now)]) && Fits(x, es) && CaughtUp(x, es)
    ensures CaughtUp(x, es + [Persisted(i, now)])
  {
    var c, es' := BotOrder(i.id), es + [Persisted(i, now)];
    LastOf(es, Persisted(i, now));
    PlacedHasHistory(x, es);
    NewestGrows(x, es, i, now);
    PersistTables(Untouched(es), i, now);
    PersistTables(LedgerOf(x, es), i, now);
    if c in Placed(es) {
      assert Placed(es') == Placed(es);
    } else {
      SaidIsConsistent(x, Placed(es) + {c});
      SaidGrows(x, es, i, now);
      PersistCaught(Said(x, Placed(es)), Said(x, Placed(es) + {c}), Untouched(es), NewestOf(x, es), TradesArrived(x, es), LedgerOf(x, es), i, now);
    }
  }

  // ------------------------------------------------------------------ a refusal

  lemma RefusedTables(x: Exchange, es: seq<Happening>, c: ClientOrderId, reason: string, now: int)
    requires Confluence.Consistent(x) && Fits(x, es + [Refused(c, reason, now)]) && Fits(x, es)
    ensures var es' := es + [Refused(c, reason, now)];
            && Placed(es') == Placed(es) && Untouched(es') == Untouched(es) && TradesArrived(x, es') == TradesArrived(x, es)
            && LedgerOf(x, es') == After(LedgerOf(x, es), Step(Refuse(c, reason), now))
            && c in Placed(es) && RefusalFits(x, c, reason) && NewestOf(x, es') == AfterRefusal(NewestOf(x, es), c)
  {
    hide Confluence.Consistent, After;
    LastOf(es, Refused(c, reason, now));
  }

  lemma RefusedStep(x: Exchange, es: seq<Happening>, c: ClientOrderId, reason: string, now: int)
    requires Confluence.Consistent(x) && Fits(x, es + [Refused(c, reason, now)]) && Fits(x, es) && CaughtUp(x, es)
    ensures CaughtUp(x, es + [Refused(c, reason, now)])
  {
    RefusedTables(x, es, c, reason, now);
    assert RefusalFits(Said(x, Placed(es)), c, reason);
    hide CaughtBy, Confluence.Consistent, Said, RefusalFits, AfterRefusal, NewestOf, After, Fits, Placed, Untouched,
         TradesArrived, LedgerOf;
    RefusalKeeps(Said(x, Placed(es)), Untouched(es), NewestOf(x, es), TradesArrived(x, es), LedgerOf(x, es), c, reason, now);
  }

  // ------------------------------------------------------------------ an arrival

  lemma NewestFurther(x: Exchange, es: seq<Happening>, a: Delivery)
    requires Confluence.Consistent(x) && Fits(x, es + [Arrived(a)]) && Fits(x, es) && Possible(Said(x, Placed(es)), a)
    requires Confluence.Consistent(Said(x, Placed(es))) && Positions(Said(x, Placed(es)), NewestOf(x, es))
    ensures NewestOf(x, es + [Arrived(a)]) == Further(Said(x, Placed(es)), NewestOf(x, es), a)
  {
    LastOf(es, Arrived(a));
    hide Confluence.Consistent, Possible, Carries;
    PlacedHasHistory(x, es);
  }

  lemma ArrivedTables(x: Exchange, es: seq<Happening>, a: Delivery)
    requires Confluence.Consistent(x) && Fits(x, es + [Arrived(a)]) && Fits(x, es)
    requires Possible(Said(x, Placed(es)), a) && Confluence.Consistent(Said(x, Placed(es)))
    ensures var es', y := es + [Arrived(a)], Said(x, Placed(es));
            && Placed(es') == Placed(es) && Untouched(es') == Untouched(es)
            && TradesArrived(x, es') == TradesArrived(x, es) + TradesHeard(y, NewestOf(x, es), a)
            && LedgerOf(x, es') == After(LedgerOf(x, es), StepOf(y, a))
  {
    hide Confluence.Consistent, Possible, Said, After, StepOf, TradesHeard, NewestOf;
    LastOf(es, Arrived(a));
  }

  /** What an arrival adds, whether it is heard or a conflict. */
  lemma DeliveredBy(y: Exchange, start: Db, n: map<ClientOrderId, int>, t: set<string>, db: Db, a: Delivery)
    requires CaughtBy(y, start, n, t, db) && Possible(y, a)
    ensures CaughtBy(y, start, Further(y, n, a), t + TradesHeard(y, n, a), After(db, StepOf(y, a)))
  {
    if Heard(y, n, a) {
      hide Confluence.Consistent, Confluence.Submitted, OrdersHold, FillsAre, ProcessedKept, Possible, Further, After,
           StepOf, TradeIn, Heard;
      DeliveryCaught(start, y, n, t, db, a);
    } else {
      UnheardFurther(y, n, a);
      assert t + {} == t;
      hide CaughtBy, Heard, Further, After, StepOf;
      ConflictKeeps(y, start, n, t, db, a);
    }
  }

  lemma UnheardFurther(y: Exchange, n: map<ClientOrderId, int>, a: Delivery)
    requires Confluence.Consistent(y) && Possible(y, a) && Positions(y, n) && !Heard(y, n, a)
    ensures Further(y, n, a) == n
  {
    if a.message.ByStream? {
      assert EventConsistent(y, a.message.event);
    }
  }

  lemma ArrivedStep(x: Exchange, es: seq<Happening>, a: Delivery)
    requires Confluence.Consistent(x) && Fits(x, es + [Arrived(a)]) && Fits(x, es) && CaughtUp(x, es)
    requires Possible(Said(x, Placed(es)), a)
    ensures CaughtUp(x, es + [Arrived(a)])
  {
    NewestFurther(x, es, a);
    ArrivedTables(x, es, a);
    DeliveredBy(Said(x, Placed(es)), Untouched(es), NewestOf(x, es), TradesArrived(x, es), LedgerOf(x, es), a);
    hide CaughtBy, Confluence.Consistent, Possible, Said, NewestOf, Further, After, StepOf, TradesHeard, Fits, Placed,
         Untouched, TradesArrived, LedgerOf;
  }

  // ------------------------------------------------------------------ every life

  /** From an empty ledger, with orders persisted and refused at any time and everything about an order arriving after it
      was placed, in any order and any number of times: every order stands at the newest report that arrived about it,
      or was given up before any did and stays so; exactly the executions that arrived are recorded, once each, but
      for those in events that were conflicts; the fills explain the positions, and no processed event has lost its
      report or its execution. */
  lemma {:induction false} EveryLifeCatchesUp(x: Exchange, es: seq<Happening>)
    requires Confluence.Consistent(x) && Fits(x, es)
    ensures CaughtUp(x, es) && FillsTell(Said(x, Placed(es)), TradesArrived(x, es), LedgerOf(x, es))
    decreases |es|
  {
    if es == [] {
      NothingPlaced(x);
    } else {
      var rest, e := es[..|es| - 1], es[|es| - 1];
      assert es == rest + [e];
      EveryLifeCatchesUp(x, rest);
      match e {
        case Persisted(i, now) => PersistedStep(x, rest, i, now);
        case Refused(c, reason, now) => RefusedStep(x, rest, c, reason, now);
        case Arrived(a) => ArrivedStep(x, rest, a);
      }
    }
    hide NewestOf, TradesArrived, LedgerOf, Untouched, Placed, Said, FillsTell, Caught, ProcessedKept;
    CaughtFillsTell(Untouched(es), Said(x, Placed(es)), NewestOf(x, es), TradesArrived(x, es), LedgerOf(x, es));
  }

  lemma NothingPlaced(x: Exchange)
    requires Confluence.Consistent(x)
    ensures CaughtUp(x, [])
  {
    SaidIsConsistent(x, {});
    forall s: Symbol
      ensures Explained(EMPTY, s)
    {
      assert ExplainedBy(EMPTY, s, []);
    }
  }

  /** Nothing that arrives is ever refused, but what is about an order that was given up: that always is, and it changes
      no order, no execution and no position. */
  lemma NothingArrivingIsRefused(x: Exchange, es: seq<Happening>, a: Delivery)
    requires Confluence.Consistent(x) && Fits(x, es) && Possible(Said(x, Placed(es)), a)
    ensures Confluence.Consistent(Said(x, Placed(es)))
    ensures var y, db := Said(x, Placed(es)), LedgerOf(x, es);
            if Heard(y, NewestOf(x, es), a) then Confluence.Accepted(db, y, a)
            else Conflicting(db, y, a) && FactsUnchanged(db, After(db, StepOf(y, a)))
  {
    EveryLifeCatchesUp(x, es);
    var y, n, t := Said(x, Placed(es)), NewestOf(x, es), TradesArrived(x, es);
    if Heard(y, n, a) {
      DeliveryCaught(Untouched(es), y, n, t, LedgerOf(x, es), a);
    } else {
      UnheardConflicts(y, Untouched(es), n, t, LedgerOf(x, es), a);
    }
  }
}
