/** Every service call that talks to the exchange is a run of single transactions: other writers may commit between any
    two of them (engine/application/order_service.py). */
module ServiceRuns {
  import opened Common
  import opened OrderModel
  import opened Ledger
  import opened Submission

  predicate OrderUpdate(op: Op) {
    op.TakeReport? || op.TakeFill? || op.Refuse? || op.Flag?
  }

  predicate OrderUpdates(steps: seq<Step>) {
    forall step | step in steps :: OrderUpdate(step.op)
  }

  /** From one state of the tables to another by reports, executions, refusals and flags. */
  ghost predicate Commits(a: Db, b: Db)
    requires WellFormed(a)
  {
    exists steps :: OrderUpdates(steps) && b == Run(a, steps)
  }

  lemma CommitsNothing(a: Db)
    requires WellFormed(a)
    ensures Commits(a, a)
  {
    assert OrderUpdates([]) && Run(a, []) == a;
  }

  /** One more transaction. */
  lemma CommitsOneMore(a: Db, b: Db, step: Step)
    requires WellFormed(a) && WellFormed(b) && Commits(a, b) && OrderUpdate(step.op)
    ensures Commits(a, After(b, step))
  {
    var steps :| OrderUpdates(steps) && b == Run(a, steps);
    assert (steps + [step])[..|steps + [step]| - 1] == steps;
    assert OrderUpdates(steps + [step]) && Run(a, steps + [step]) == After(b, step);
  }

  lemma {:induction false} RunOn(a: Db, first: seq<Step>, second: seq<Step>)
    requires WellFormed(a)
    ensures Run(a, first + second) == Run(Run(a, first), second)
    decreases |second|
  {
    if second == [] {
      assert first + second == first;
    } else {
      RunOn(a, first, second[..|second| - 1]);
      assert (first + second)[..|first + second| - 1] == first + second[..|second| - 1];
    }
  }

  lemma CommitsOn(a: Db, b: Db, c: Db)
    requires WellFormed(a) && WellFormed(b) && Commits(a, b) && Commits(b, c)
    ensures Commits(a, c)
  {
    hide After, WellFormed, OrderUpdate;
    var first :| OrderUpdates(first) && b == Run(a, first);
    var second :| OrderUpdates(second) && c == Run(b, second);
    RunOn(a, first, second);
    assert OrderUpdates(first + second);
  }

  // ------------------------------------------------------------------ the service calls

  lemma ReportCommits(a: Db, db: Db, r: Report, now: int)
    requires WellFormed(a) && WellFormed(db) && Commits(a, db)
    ensures Commits(a, ReportTaken(db, r, now).0)
  {
    CommitsOneMore(a, db, Step(TakeReport(r), now));
    assert ReportTaken(db, r, now).0 == After(db, Step(TakeReport(r), now));
  }

  lemma {:induction false} FillsCommit(a: Db, db: Db, xfs: seq<ExchangeFill>, now: int)
    requires WellFormed(a) && WellFormed(db) && Commits(a, db)
    ensures Commits(a, IngestAll(db, xfs, now))
    decreases |xfs|
  {
    if xfs != [] {
      FillsCommit(a, db, xfs[..|xfs| - 1], now);
      CommitsOneMore(a, IngestAll(db, xfs[..|xfs| - 1], now), Step(TakeFill(xfs[|xfs| - 1]), now));
    }
  }

  lemma OrderFillsCommit(a: Db, db: Db, c: ClientOrderId, fills: Reach<seq<ExchangeFill>>, now: int)
    requires WellFormed(a) && WellFormed(db) && Commits(a, db)
    ensures Commits(a, OrderFillsIngested(db, c, fills, now).0)
  {
    if fills.Answered? {
      FillsCommit(a, db, fills.value, now);
    }
  }

  lemma RefreshCommits(a: Db, db: Db, c: ClientOrderId, answer: Reach<Option<Report>>, fills: Reach<seq<ExchangeFill>>, now: int)
    requires WellFormed(a) && WellFormed(db) && Commits(a, db)
    ensures Commits(a, Refreshed(db, c, answer, fills, now).0)
  {
    hide Commits, ReportTaken, OrderFillsIngested, WellFormed;
    if answer.Answered? && answer.value.Some? {
      ReportCommits(a, db, answer.value.value, now);
      OrderFillsCommit(a, ReportTaken(db, answer.value.value, now).0, c, fills, now);
    } else {
      OrderFillsCommit(a, db, c, fills, now);
    }
  }

  lemma CancelCommits(db: Db, c: ClientOrderId, acknowledged: Option<Report>, answer: Reach<Option<Report>>,
                      fills: Reach<seq<ExchangeFill>>, now: int)
    requires WellFormed(db)
    ensures Commits(db, Cancelled(db, c, acknowledged, answer, fills, now).0)
  {
    hide Commits, ReportTaken, Refreshed, WellFormed;
    CommitsNothing(db);
    if acknowledged.Some? {
      ReportCommits(db, db, acknowledged.value, now);
      RefreshCommits(db, ReportTaken(db, acknowledged.value, now).0, c, answer, fills, now);
    } else {
      RefreshCommits(db, db, c, answer, fills, now);
    }
  }

  lemma RejectCommits(a: Db, db: Db, c: ClientOrderId, reason: string, now: int)
    requires WellFormed(a) && WellFormed(db) && Commits(a, db) && c in db.orders
    ensures Commits(a, Reject(db, c, reason, now).0)
  {
    CommitsOneMore(a, db, Step(Refuse(c, reason), now));
  }

  lemma ResolveCommits(a: Db, db: Db, o: OrderRow, answer: Reach<Option<Report>>, fills: Reach<seq<ExchangeFill>>,
                       now: int, grace: nat)
    requires WellFormed(a) && WellFormed(db) && Commits(a, db) && o.clientOrderId in db.orders
    ensures Commits(a, Resolve(db, o, answer, fills, now, grace).0)
  {
    hide Commits, ReportTaken, OrderFillsIngested, Reject, WellFormed;
    if answer.Answered? {
      if answer.value.Some? {
        ReportCommits(a, db, answer.value.value, now);
        OrderFillsCommit(a, ReportTaken(db, answer.value.value, now).0, o.clientOrderId, fills, now);
      } else if Age(o, now) >= grace {
        RejectCommits(a, db, o.clientOrderId, NotFoundAfter(Age(o, now)), now);
      }
    }
  }

  lemma FlagCommits(db: Db, c: ClientOrderId)
    requires WellFormed(db) && c in db.orders
    ensures Commits(db, FlagAmbiguous(db, c)) && c in FlagAmbiguous(db, c).orders
    ensures FlagAmbiguous(db, c).orders[c].clientOrderId == c
  {
    assert RowFits(db, c);
    CommitsNothing(db);
    CommitsOneMore(db, db, Step(Flag(c), 0));
  }

  /** Whatever becomes of a submission, after the order is on record. */
  lemma ConclusionCommits(db: Db, c: ClientOrderId, outcome: Outcome, answer: Reach<Option<Report>>,
                          fills: Reach<seq<ExchangeFill>>, now: int, grace: nat)
    requires WellFormed(db) && c in db.orders
    ensures Commits(db, Concluded(db, c, outcome, answer, fills, now, grace).0)
  {
    hide Commits, ReportTaken, Reject, FlagAmbiguous, Resolve, WellFormed;
    CommitsNothing(db);
    match outcome {
      case Acknowledged(r, xfs) =>
        ReportCommits(db, db, r, now);
        FillsCommit(db, ReportTaken(db, r, now).0, xfs, now);
      case Refused(reason) => RejectCommits(db, db, c, reason, now);
      case Ambiguous =>
        FlagCommits(db, c);
        var flagged := FlagAmbiguous(db, c);
        ResolveCommits(db, flagged, flagged.orders[c], answer, fills, now, grace);
    }
  }
}
