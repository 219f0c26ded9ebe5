/** The service calls that talk to the exchange, as functions of what it answers: submission, the
    resolution of an ambiguous submission, refresh and cancel (engine/application/order_service.py). */
module Submission {
  import opened Common
  import opened OrderModel
  import opened Ledger

  /** What a call over the network brings back. */
  datatype Reach<+T> = Unreachable | Answered(value: T)

  datatype Ended = Returned | RaisedConflict | RaisedError

  function ReportTaken(db: Db, r: Report, now: int): (res: (Db, Ended))
    requires WellFormed(db)
    ensures WellFormed(res.0)
  {
    var (db1, outcome) := ApplyReport(db, r, now);
    match outcome
    case Conflict(c) => (ConflictRecorded(db1, c, r.status), RaisedConflict)
    case StoreError => (db1, RaisedError)
    case _ => (db1, Returned)
  }

  function IngestAll(db: Db, xfs: seq<ExchangeFill>, now: int): (db': Db)
    requires WellFormed(db)
    ensures WellFormed(db') && db'.orders == db.orders && db'.byExchangeId == db.byExchangeId
    decreases |xfs|
  {
    if xfs == [] then db else IngestFill(IngestAll(db, xfs[..|xfs| - 1], now), xfs[|xfs| - 1], now).0
  }

  /** An order without an exchange id has no executions to ask for. */
  function OrderFillsIngested(db: Db, c: ClientOrderId, fills: Reach<seq<ExchangeFill>>, now: int): (res: (Db, Ended))
    requires WellFormed(db)
    ensures WellFormed(res.0) && res.0.orders == db.orders
  {
    if c !in db.orders || db.orders[c].exchangeOrderId.None? then (db, Returned)
    else if fills.Unreachable? then (db, RaisedError)
    else (IngestAll(db, fills.value, now), Returned)
  }

  function Refreshed(db: Db, c: ClientOrderId, answer: Reach<Option<Report>>, fills: Reach<seq<ExchangeFill>>,
                     now: int): (res: (Db, Ended))
    requires WellFormed(db)
    ensures WellFormed(res.0)
  {
    match answer
    case Unreachable => (db, RaisedError)
    case Answered(None) => OrderFillsIngested(db, c, fills, now)
    case Answered(Some(r)) =>
      var (db1, ended) := ReportTaken(db, r, now);
      if ended.Returned? then OrderFillsIngested(db1, c, fills, now) else (db1, ended)
  }

  /** Whatever the cancel said the order is read again; only a conflict outlives a failing refresh. */
  function Cancelled(db: Db, c: ClientOrderId, acknowledged: Option<Report>, answer: Reach<Option<Report>>,
                     fills: Reach<seq<ExchangeFill>>, now: int): (res: (Db, Ended))
    requires WellFormed(db)
    ensures WellFormed(res.0)
  {
    var (db1, ended) := if acknowledged.Some? then ReportTaken(db, acknowledged.value, now) else (db, Returned);
    if !ended.Returned? then (db1, ended)
    else
      var (db2, ended2) := Refreshed(db1, c, answer, fills, now);
      (db2, if ended2.RaisedConflict? then RaisedConflict else Returned)
  }

  // ------------------------------------------------------------------ ambiguous submissions

  datatype Resolution = Resolved | Pending | Failed(ended: Ended)

  function Decimal(n: nat): string {
    (if n < 10 then "" else Decimal(n / 10)) + [['0', '1', '2', '3', '4', '5', '6', '7', '8', '9'][n % 10]]
  }

  /** Times are milliseconds; the reason quotes whole seconds. */
  function NotFoundAfter(age: int): (reason: string)
    requires age >= 0
    ensures NOT_FOUND_REASON <= reason
  {
    NOT_FOUND_REASON + " after " + Decimal(age / 1000) + "s"
  }

  function Age(o: OrderRow, now: int): int {
    if o.submittedAt.Some? then now - o.submittedAt.value else 0
  }

  /** `o` is the order as the caller read it. Only an answer, never a timeout, decides; and "not found"
      decides only once the grace period is over. */
  function Resolve(db: Db, o: OrderRow, answer: Reach<Option<Report>>, fills: Reach<seq<ExchangeFill>>,
                   now: int, grace: nat): (res: (Db, Resolution))
    requires WellFormed(db) && o.clientOrderId in db.orders
    ensures WellFormed(res.0)
  {
    if Terminal(o.status) then (db, Resolved)
    else match answer
      case Unreachable => (db, Pending)
      case Answered(Some(r)) =>
        var (db1, ended) := ReportTaken(db, r, now);
        if !ended.Returned? then (db1, Failed(ended))
        else
          var (db2, ended2) := OrderFillsIngested(db1, o.clientOrderId, fills, now);
          (db2, if ended2.Returned? then Resolved else Failed(ended2))
      case Answered(None) =>
        if Age(o, now) < grace then (db, Pending)
        else
          var (db1, v) := Reject(db, o.clientOrderId, NotFoundAfter(Age(o, now)), now);
          (db1, if v == IllegalTransition then Failed(RaisedError) else Resolved)
  }

  // ------------------------------------------------------------------ submission

  datatype Outcome =
    | Acknowledged(report: Report, fills: seq<ExchangeFill>)
    | Refused(reason: string)
    | Ambiguous

  /** What becomes of a persisted order once the exchange, or the lack of it, has answered. An executor
      that raises counts as ambiguous. */
  function Concluded(db: Db, c: ClientOrderId, outcome: Outcome, answer: Reach<Option<Report>>,
                     fills: Reach<seq<ExchangeFill>>, now: int, grace: nat): (res: (Db, Ended))
    requires WellFormed(db) && c in db.orders
    ensures WellFormed(res.0)
  {
    match outcome
    case Acknowledged(r, xfs) =>
      var (db1, ended) := ReportTaken(db, r, now);
      if ended.Returned? then (IngestAll(db1, xfs, now), Returned) else (db1, ended)
    case Refused(reason) =>
      var (db1, v) := Reject(db, c, reason, now);
      (db1, if v == IllegalTransition then RaisedError else Returned)
    case Ambiguous =>
      var db1 := FlagAmbiguous(db, c);
      assert c in db1.orders;
      var (db2, res) := Resolve(db1, db1.orders[c], answer, fills, now, grace);
      (db2, if res.Failed? then res.ended else Returned)
  }

  /** Submitting an intent that has an order touches neither the ledger nor the exchange. */
  function Submitted(db: Db, i: Intent, now: int, outcome: Outcome, answer: Reach<Option<Report>>,
                     fills: Reach<seq<ExchangeFill>>, later: int, grace: nat): (res: (Db, Ended, bool))
    requires WellFormed(db)
    ensures WellFormed(res.0)
  {
    var (db1, created) := PersistIntent(db, i, now);
    if !created then (db, Returned, false)
    else
      var (db2, ended) := Concluded(db1, BotOrder(i.id), outcome, answer, fills, later, grace);
      (db2, ended, true)
  }
}
