/** What the order-placing methods do to the tables is a run of the trading machine: their reads, decisions and
    submissions are its acts, and each transaction is a step where other writers may commit as well
    (engine/application/trading_cycle.py). */
module WorkerRuns {
  import opened Common
  import opened OrderModel
  import opened Ledger
  import opened Submission
  import opened Attempts
  import opened SellExposure
  import opened TradingCycle
  import opened ServiceRuns
  import TradingWorker

  function Others(steps: seq<Step>): seq<Act>
    decreases |steps|
  {
    if steps == [] then [] else Others(steps[..|steps| - 1]) + [Other(steps[|steps| - 1])]
  }

  lemma {:induction false} UpdatesRun(w: World, s: Symbol, steps: seq<Step>)
    requires WellFormed(w.db) && OrderUpdates(steps)
    ensures Runs(w, s, Others(steps), World(Run(w.db, steps), w.stage))
    decreases |steps|
  {
    if steps != [] {
      var rest, last := steps[..|steps| - 1], steps[|steps| - 1];
      assert last in steps && forall step | step in rest :: step in steps;
      UpdatesRun(w, s, rest);
      RunsOn(w, s, Others(rest), World(Run(w.db, rest), w.stage), Other(last));
    }
  }

  // ------------------------------------------------------------------ looking for a free attempt

  function Looks(n: nat): seq<Act> {
    if n == 0 then [] else [LooksAtAttempt] + Looks(n - 1)
  }

  lemma {:induction false} LooksRun(w: World, s: Symbol, d: Decision, plan: Plan, j: nat, k: nat)
    requires WellFormed(w.db) && w.stage == Choosing(d, plan, j) && j <= k < MaxAttempts(d.purpose)
    requires SpentBelow(w.db, d, k) && !Spent(w.db, d, k)
    ensures Runs(w, s, Looks(k - j + 1), World(w.db, Chosen(d, plan, k)))
    decreases k - j
  {
    var next := Next(w, s, LooksAtAttempt);
    var acts := Looks(k - j + 1);
    assert acts[0] == LooksAtAttempt && acts[1..] == Looks(k - j);
    if j < k {
      assert Spent(w.db, d, j);
      LooksRun(next, s, d, plan, j + 1, k);
    } else {
      assert Runs(next, s, [], next);
    }
  }

  /** All attempts used up: the cycle ends without an order. */
  lemma {:induction false} ExhaustedIsRun(w: World, s: Symbol, d: Decision, plan: Plan, j: nat)
    requires WellFormed(w.db) && w.stage == Choosing(d, plan, j) && j <= MaxAttempts(d.purpose)
    requires SpentBelow(w.db, d, MaxAttempts(d.purpose))
    ensures Runs(w, s, Looks(MaxAttempts(d.purpose) - j + 1), World(w.db, Idle))
    decreases MaxAttempts(d.purpose) - j
  {
    var next := Next(w, s, LooksAtAttempt);
    var acts := Looks(MaxAttempts(d.purpose) - j + 1);
    assert acts[0] == LooksAtAttempt && acts[1..] == Looks(MaxAttempts(d.purpose) - j);
    if j < MaxAttempts(d.purpose) {
      assert Spent(w.db, d, j);
      ExhaustedIsRun(next, s, d, plan, j + 1);
    } else {
      assert Runs(next, s, [], next);
    }
  }

  // ------------------------------------------------------------------ one submission

  function StageAfter(d: Decision, k: nat): Stage
    requires k < 10
  {
    if d.purpose.Entry? then Entered(OrderOf(d, k)) else Idle
  }

  /** What `TradingWorker.Submit` has done when it ends with an order, new or existing. */
  ghost predicate SubmissionRuns(w: World, s: Symbol, first: seq<Act>, k: nat, now: int, w': World)
    requires WellFormed(w.db)
  {
    exists steps :: OrderUpdates(steps) && Runs(w, s, first + (Looks(k + 1) + [Submits(now)] + Others(steps)), w')
  }

  lemma OrderGoesOut(w: World, s: Symbol, d: Decision, plan: Plan, k: nat, now: int)
    requires WellFormed(w.db) && w.stage == Choosing(d, plan, 0) && k < MaxAttempts(d.purpose)
    requires SpentBelow(w.db, d, k) && !Spent(w.db, d, k)
    ensures Runs(w, s, Looks(k + 1) + [Submits(now)], World(PersistIntent(w.db, OrderIntent(s, d, plan, k), now).0, StageAfter(d, k)))
  {
    LooksRun(w, s, d, plan, 0, k);
    RunsOn(w, s, Looks(k + 1), World(w.db, Chosen(d, plan, k)), Submits(now));
  }

  lemma SubmitIsRun(w: World, s: Symbol, d: Decision, plan: Plan, k: nat, now: int, a: TradingWorker.SubmitAnswer)
    requires WellFormed(w.db) && w.stage == Choosing(d, plan, 0) && k < MaxAttempts(d.purpose)
    requires SpentBelow(w.db, d, k) && !Spent(w.db, d, k)
    ensures var db' := Submitted(w.db, OrderIntent(s, d, plan, k), now, a.outcome, a.query, a.fills, a.later, a.grace).0;
            SubmissionRuns(w, s, [], k, now, World(db', StageAfter(d, k)))
  {
    hide Submitted, PersistIntent, Run, WellFormed, Runs, Spent, OrderIntent;
    var i := OrderIntent(s, d, plan, k);
    var sent := World(PersistIntent(w.db, i, now).0, StageAfter(d, k));
    var db' := Submitted(w.db, i, now, a.outcome, a.query, a.fills, a.later, a.grace).0;
    OrderGoesOut(w, s, d, plan, k, now);
    Submitting(w.db, i, now, a);
    var steps :| OrderUpdates(steps) && db' == Run(sent.db, steps);
    UpdatesRun(sent, s, steps);
    RunsJoin(w, s, Looks(k + 1) + [Submits(now)], sent, Others(steps), World(db', StageAfter(d, k)));
    assert [] + (Looks(k + 1) + [Submits(now)] + Others(steps)) == Looks(k + 1) + [Submits(now)] + Others(steps);
  }

  lemma Submitting(db: Db, i: Intent, now: int, a: TradingWorker.SubmitAnswer)
    requires WellFormed(db)
    ensures Commits(PersistIntent(db, i, now).0, Submitted(db, i, now, a.outcome, a.query, a.fills, a.later, a.grace).0)
  {
    if i.id in db.intents {
      CommitsNothing(db);
    } else {
      ConclusionCommits(PersistIntent(db, i, now).0, BotOrder(i.id), a.outcome, a.query, a.fills, a.later, a.grace);
    }
  }

  lemma PrefixRuns(a: World, s: Symbol, first: seq<Act>, b: World, k: nat, now: int, c: World)
    requires WellFormed(a.db) && WellFormed(b.db) && Runs(a, s, first, b) && SubmissionRuns(b, s, [], k, now, c)
    ensures SubmissionRuns(a, s, first, k, now, c)
  {
    var steps :| OrderUpdates(steps) && Runs(b, s, [] + (Looks(k + 1) + [Submits(now)] + Others(steps)), c);
    var rest := Looks(k + 1) + [Submits(now)] + Others(steps);
    assert [] + rest == rest;
    RunsJoin(a, s, first, b, rest, c);
  }

  // ------------------------------------------------------------------ an exit and a stop

  ghost predicate OneInstrument(db: Db, s: Symbol) {
    forall c | c in db.orders :: db.orders[c].symbol == s
  }

  /** An exit that goes out: other transactions until no stop is live, two reads, and one submission. */
  lemma SellAllIsRun(w: World, s: Symbol, purpose: Purpose, seen: Db, qty: real, k: nat, now: int, a: TradingWorker.SubmitAnswer)
    requires WellFormed(w.db) && w.stage == Cleared && WellFormed(seen) && Commits(w.db, seen)
    requires OneInstrument(seen, s) && TradingWorker.StopsDown(seen, s) && purpose in {Exit, StopExit}
    requires 0.0 < qty <= PositionOf(seen, s).qty && k < MaxAttempts(purpose)
    requires var d := Decision(Epoch(PositionOf(seen, s).openedAt), purpose); SpentBelow(seen, d, k) && !Spent(seen, d, k)
    ensures var d := Decision(Epoch(PositionOf(seen, s).openedAt), purpose);
            var db' := Submitted(seen, Intent(IntentId(d, k), s, Sell, purpose, qty), now, a.outcome, a.query, a.fills, a.later, a.grace).0;
            exists steps :: OrderUpdates(steps)
              && SubmissionRuns(w, s, Others(steps) + [SeesStopsDown] + [ReadsForExit(purpose, qty)], k, now, World(db', Idle))
  {
    var steps :| OrderUpdates(steps) && seen == Run(w.db, steps);
    var p := PositionOf(seen, s);
    var d, plan := Decision(Epoch(p.openedAt), purpose), Plan(qty, p.openedAt, None);
    UpdatesRun(w, s, steps);
    assert NoStopLive(seen);
    RunsOn(w, s, Others(steps), World(seen, Cleared), SeesStopsDown);
    RunsOn(w, s, Others(steps) + [SeesStopsDown], World(seen, StopsDown), ReadsForExit(purpose, qty));
    var choosing := World(seen, Choosing(d, plan, 0));
    SubmitIsRun(choosing, s, d, plan, k, now, a);
    PrefixRuns(w, s, Others(steps) + [SeesStopsDown] + [ReadsForExit(purpose, qty)], choosing, k, now,
               World(Submitted(seen, OrderIntent(s, d, plan, k), now, a.outcome, a.query, a.fills, a.later, a.grace).0, Idle));
  }

  /** A protective stop for a position that was read before: the list of stops, and one submission. */
  lemma EnsureStopIsRun(w: World, s: Symbol, plan: Plan, k: nat, now: int, a: TradingWorker.SubmitAnswer)
    requires WellFormed(w.db) && w.stage == Holding(plan) && OneInstrument(w.db, s) && TradingWorker.StopsDown(w.db, s)
    requires k < MaxAttempts(ProtectiveStop) && SpentBelow(w.db, StopDecision(plan.since), k) && !Spent(w.db, StopDecision(plan.since), k)
    ensures var i := Intent(IntentId(StopDecision(plan.since), k), s, Sell, ProtectiveStop, plan.qty);
            var db' := Submitted(w.db, i, now, a.outcome, a.query, a.fills, a.later, a.grace).0;
            SubmissionRuns(w, s, [SeesNoStop], k, now, World(db', Idle))
  {
    assert NoStopLive(w.db);
    OneAct(w, s, SeesNoStop);
    var d := StopDecision(plan.since);
    var choosing := World(w.db, Choosing(d, plan, 0));
    SubmitIsRun(choosing, s, d, plan, k, now, a);
    PrefixRuns(w, s, [SeesNoStop], choosing, k, now,
               World(Submitted(w.db, OrderIntent(s, d, plan, k), now, a.outcome, a.query, a.fills, a.later, a.grace).0, Idle));
  }
}
