/** One reconciliation run against what the exchange answers, as functions and as the engine runs it
    (engine/application/reconciliation_service.py). */
module Reconciliation {
  import opened Common
  import opened OrderModel
  import opened PositionModel
  import opened Ledger
  import opened ReconState
  import opened Submission

  // ------------------------------------------------------------------ the exchange

  /** Everything a run asks for; an order that is not listed is answered with "no such order". */
  datatype View = View(
    orders: map<ClientOrderId, Reach<Option<Report>>>, byExchangeId: map<string, Reach<Option<Report>>>,
    fills: map<ClientOrderId, Reach<seq<ExchangeFill>>>, open: Reach<seq<Report>>,
    trades: Reach<seq<ExchangeFill>>, baseTotal: Reach<real>, stepSize: Reach<real>)

  function Query(v: View, c: ClientOrderId): Reach<Option<Report>> {
    if c in v.orders then v.orders[c] else Answered(None)
  }

  function QueryByExchangeId(v: View, x: Option<string>): Reach<Option<Report>> {
    if Present(x) && x.value in v.byExchangeId then v.byExchangeId[x.value] else Answered(None)
  }

  function QueryFills(v: View, c: ClientOrderId): Reach<seq<ExchangeFill>> {
    if c in v.fills then v.fills[c] else Answered([])
  }

  function TradesSince(trades: seq<ExchangeFill>, since: int): seq<ExchangeFill>
    decreases |trades|
  {
    if trades == [] then []
    else
      var last := trades[|trades| - 1];
      TradesSince(trades[..|trades| - 1], since) + (if last.timeMs >= since then [last] else [])
  }

  /** A run's circumstances: one reading of the clock, in milliseconds, and the configuration. */
  datatype Env = Env(view: View, now: int, symbol: Symbol, grace: nat, lookback: nat)

  const TERMINAL_VERIFY_LIMIT: nat := 20
  const RECENT_ORDERS: nat := 100
  const OVERLAP: int := 600000

  function Horizon(env: Env): int {
    env.now - env.lookback
  }

  function Tolerance(stepSize: real): real {
    Max(stepSize, 0.00000001)
  }

  // ------------------------------------------------------------------ what a run finds

  datatype Kind =
    | AmbiguousPending | StateConflict | TerminalMissing | ExceedsExchange | UnknownOpenOrder | ForeignOpenOrder
    | UnknownBotFill | ForeignFill | FillsIncomplete | PositionCorrected | AnomalousPosition | BalanceBelowPosition

  predicate Critical(k: Kind) {
    k !in {AmbiguousPending, ForeignOpenOrder, ForeignFill, PositionCorrected}
  }

  datatype Mismatch = Mismatch(kind: Kind, order: Option<ClientOrderId>)

  /** Tables and findings so far; `raised` ends the run. */
  datatype Progress = Progress(db: Db, notes: seq<Mismatch>, pending: nat, raised: bool)

  function Noted(p: Progress, kind: Kind, order: Option<ClientOrderId>): Progress {
    p.(notes := p.notes + [Mismatch(kind, order)])
  }

  predicate AnyCritical(notes: seq<Mismatch>) {
    exists k | 0 <= k < |notes| :: Critical(notes[k].kind)
  }

  // ------------------------------------------------------------------ selections

  /** Newest first, as ORDER BY id DESC. */
  function Descending(db: Db, cs: seq<ClientOrderId>, symbol: Symbol): seq<OrderRow>
    requires forall c | c in cs :: c in db.orders
    decreases |cs|
  {
    if cs == [] then []
    else
      var o := db.orders[cs[|cs| - 1]];
      (if o.symbol == symbol then [o] else []) + Descending(db, cs[..|cs| - 1], symbol)
  }

  function Take<T>(s: seq<T>, n: nat): seq<T> {
    if |s| <= n then s else s[..n]
  }

  function Newest(db: Db, symbol: Symbol): seq<OrderRow>
    requires WellFormed(db)
  {
    Take(Descending(db, db.created, symbol), RECENT_ORDERS)
  }

  /** Oldest first. */
  function NonTerminal(db: Db, cs: seq<ClientOrderId>, symbol: Symbol): seq<OrderRow>
    requires forall c | c in cs :: c in db.orders
    decreases |cs|
  {
    if cs == [] then []
    else
      var o := db.orders[cs[|cs| - 1]];
      NonTerminal(db, cs[..|cs| - 1], symbol) + (if o.symbol == symbol && !Terminal(o.status) then [o] else [])
  }

  predicate Verifiable(o: OrderRow, horizon: int) {
    && Terminal(o.status) && Present(o.exchangeOrderId) && o.terminalAt.Some? && o.terminalAt.value >= horizon
    && !(o.rejectReason.Some? && "NOT_FOUND" <= o.rejectReason.value)
  }

  function FilterVerifiable(rows: seq<OrderRow>, horizon: int): seq<OrderRow> {
    if rows == [] then []
    else (if Verifiable(rows[0], horizon) then [rows[0]] else []) + FilterVerifiable(rows[1..], horizon)
  }

  function ToVerify(db: Db, env: Env): seq<OrderRow>
    requires WellFormed(db)
  {
    Take(FilterVerifiable(Newest(db, env.symbol), Horizon(env)), TERMINAL_VERIFY_LIMIT)
  }

  // ------------------------------------------------------------------ one element of each loop

  predicate NeedsResolution(o: OrderRow) {
    o.ambiguous || o.status.Submitting?
  }

  function EndedWith(p: Progress, db: Db, ended: Ended, c: ClientOrderId): Progress {
    match ended
    case Returned => p.(db := db)
    case RaisedConflict => Noted(p.(db := db), StateConflict, Some(c))
    case RaisedError => p.(db := db, raised := true)
  }

  /** A local order that is not known to have ended. `o` is the row as it was listed; a row that is gone
      would raise. */
  function CheckOpen(p: Progress, o: OrderRow, env: Env): (p': Progress)
    requires WellFormed(p.db)
    ensures WellFormed(p'.db)
  {
    var c := o.clientOrderId;
    if p.raised then p
    else if c !in p.db.orders then p.(raised := true)
    else if NeedsResolution(o) then
      var (db, resolution) := Resolve(p.db, o, Query(env.view, c), QueryFills(env.view, c), env.now, env.grace);
      match resolution
      case Resolved => p.(db := db)
      case Pending => Noted(p.(db := db, pending := p.pending + 1), AmbiguousPending, Some(c))
      case Failed(ended) => EndedWith(p, db, ended, c)
    else
      var (db, ended) := Refreshed(p.db, c, Query(env.view, c), QueryFills(env.view, c), env.now);
      EndedWith(p, db, ended, c)
  }

  /** An order that has ended recently. */
  function VerifyTerminal(p: Progress, o: OrderRow, env: Env): (p': Progress)
    requires WellFormed(p.db)
    ensures WellFormed(p'.db)
  {
    var c := o.clientOrderId;
    if p.raised then p
    else match Query(env.view, c)
      case Unreachable => p.(raised := true)
      case Answered(None) => Noted(p, TerminalMissing, Some(c))
      case Answered(Some(r)) =>
        if r.status == o.status && r.executedQty == o.executed then p
        else
          var (db, ended) := ReportTaken(p.db, r, env.now);
          if !ended.Returned? then EndedWith(p, db, ended, c)
          else if c !in db.orders then p.(db := db, raised := true)
          else if r.executedQty < db.orders[c].executed then Noted(p.(db := db), ExceedsExchange, Some(c))
          else p.(db := db)
  }

  /** An order that is open at the exchange. */
  function CheckKnown(p: Progress, r: Report): Progress {
    if p.raised || r.clientOrderId in p.db.orders then p
    else Noted(p, if r.clientOrderId.BotOrder? then UnknownOpenOrder else ForeignOpenOrder, Some(r.clientOrderId))
  }

  /** A recent trade of the account. Here even a conflict ends the run. */
  function RecoverFill(p: Progress, xf: ExchangeFill, env: Env): (p': Progress)
    requires WellFormed(p.db)
    ensures WellFormed(p'.db)
  {
    if p.raised then p
    else if Present(xf.exchangeOrderId) && xf.exchangeOrderId.value in p.db.byExchangeId then
      p.(db := IngestFill(p.db, xf, env.now).0)
    else match QueryByExchangeId(env.view, xf.exchangeOrderId)
      case Unreachable => p.(raised := true)
      case Answered(None) => Noted(p, ForeignFill, None)
      case Answered(Some(r)) =>
        if r.clientOrderId !in p.db.orders then
          Noted(p, if r.clientOrderId.BotOrder? then UnknownBotFill else ForeignFill, Some(r.clientOrderId))
        else
          var (db, ended) := ReportTaken(p.db, r, env.now);
          if !ended.Returned? then p.(db := db, raised := true)
          else p.(db := IngestFill(db, xf, env.now).0)
  }

  predicate Explains(db: Db, o: OrderRow, tolerance: real) {
    -tolerance <= RecordedQty(db.fills, o.clientOrderId) - o.executed <= tolerance
  }

  predicate MustBeExplained(o: OrderRow) {
    o.executed > 0.0 && !o.status.Submitting?
  }

  /** A recent order whose executed quantity has to be on record. */
  function ExplainExecuted(p: Progress, o: OrderRow, env: Env, tolerance: real): (p': Progress)
    requires WellFormed(p.db)
    ensures WellFormed(p'.db)
  {
    var c := o.clientOrderId;
    if p.raised || !MustBeExplained(o) || Explains(p.db, o, tolerance) then p
    else
      var (db, ended) := OrderFillsIngested(p.db, c, QueryFills(env.view, c), env.now);
      if !ended.Returned? then p.(db := db, raised := true)
      else if Explains(db, o, tolerance) then p.(db := db)
      else Noted(p.(db := db), FillsIncomplete, Some(c))
  }

  /** Balances and the position from scratch. */
  function CheckPosition(p: Progress, env: Env, tolerance: real): (p': Progress)
    requires WellFormed(p.db)
    ensures WellFormed(p'.db)
  {
    if p.raised then p
    else if env.view.baseTotal.Unreachable? then p.(raised := true)
    else
      var before := PositionOf(p.db, env.symbol);
      var db := PositionRebuilt(p.db, env.symbol);
      var rebuilt := PositionOf(db, env.symbol);
      var p1 := p.(db := db);
      var p2 := if before.qty - rebuilt.qty > tolerance || rebuilt.qty - before.qty > tolerance
                then Noted(p1, PositionCorrected, None) else p1;
      var anomalies := RebuildAnomalies(before, ByTime(FillsOf(p.db.fills, env.symbol)));
      var p3 := p2.(notes := p2.notes + seq(|anomalies|, i => Mismatch(AnomalousPosition, None)));
      if rebuilt.qty - env.view.baseTotal.value > tolerance then Noted(p3, BalanceBelowPosition, None) else p3
  }

  // ------------------------------------------------------------------ the loops

  function CheckAllOpen(p: Progress, rows: seq<OrderRow>, env: Env): (p': Progress)
    requires WellFormed(p.db)
    ensures WellFormed(p'.db)
    decreases |rows|
  {
    if rows == [] then p else CheckOpen(CheckAllOpen(p, rows[..|rows| - 1], env), rows[|rows| - 1], env)
  }

  function VerifyAll(p: Progress, rows: seq<OrderRow>, env: Env): (p': Progress)
    requires WellFormed(p.db)
    ensures WellFormed(p'.db)
    decreases |rows|
  {
    if rows == [] then p else VerifyTerminal(VerifyAll(p, rows[..|rows| - 1], env), rows[|rows| - 1], env)
  }

  function CheckAllKnown(p: Progress, reports: seq<Report>): (p': Progress)
    ensures p'.db == p.db
    decreases |reports|
  {
    if reports == [] then p else CheckKnown(CheckAllKnown(p, reports[..|reports| - 1]), reports[|reports| - 1])
  }

  function RecoverAll(p: Progress, xfs: seq<ExchangeFill>, env: Env): (p': Progress)
    requires WellFormed(p.db)
    ensures WellFormed(p'.db)
    decreases |xfs|
  {
    if xfs == [] then p else RecoverFill(RecoverAll(p, xfs[..|xfs| - 1], env), xfs[|xfs| - 1], env)
  }

  function ExplainAll(p: Progress, rows: seq<OrderRow>, env: Env, tolerance: real): (p': Progress)
    requires WellFormed(p.db)
    ensures WellFormed(p'.db)
    decreases |rows|
  {
    if rows == [] then p
    else ExplainExecuted(ExplainAll(p, rows[..|rows| - 1], env, tolerance), rows[|rows| - 1], env, tolerance)
  }

  // ------------------------------------------------------------------ the run

  function Since(env: Env, lastSuccess: Option<int>): int {
    if lastSuccess.Some? then MaxInt(Horizon(env), lastSuccess.value - OVERLAP) else Horizon(env)
  }

  function AfterOpen(db: Db, env: Env): (p: Progress)
    requires WellFormed(db)
    ensures WellFormed(p.db)
  {
    CheckAllOpen(Progress(db, [], 0, false), NonTerminal(db, db.created, env.symbol), env)
  }

  function AfterVerify(db: Db, env: Env): (p: Progress)
    requires WellFormed(db)
    ensures WellFormed(p.db)
  {
    var p := AfterOpen(db, env);
    VerifyAll(p, ToVerify(p.db, env), env)
  }

  function AfterRecover(db: Db, env: Env, lastSuccess: Option<int>): (p: Progress)
    requires WellFormed(db) && env.view.open.Answered?
    ensures WellFormed(p.db)
  {
    var p := CheckAllKnown(AfterVerify(db, env), env.view.open.value);
    if p.raised then p
    else if env.view.trades.Unreachable? then p.(raised := true)
    else RecoverAll(p, TradesSince(env.view.trades.value, Since(env, lastSuccess)), env)
  }

  function AfterExplain(db: Db, env: Env, lastSuccess: Option<int>): (p: Progress)
    requires WellFormed(db) && env.view.open.Answered? && env.view.stepSize.Answered?
    ensures WellFormed(p.db)
  {
    var p := AfterRecover(db, env, lastSuccess);
    if p.raised then p
    else ExplainAll(p, Newest(p.db, env.symbol), env, Tolerance(env.view.stepSize.value))
  }

  /** The body of a run, from the first request to the last check. */
  function RunBody(db: Db, env: Env, lastSuccess: Option<int>): (p: Progress)
    requires WellFormed(db)
    ensures WellFormed(p.db)
  {
    if env.view.stepSize.Unreachable? || env.view.open.Unreachable? then Progress(db, [], 0, true)
    else CheckPosition(AfterExplain(db, env, lastSuccess), env, Tolerance(env.view.stepSize.value))
  }

  function BodyOf(p: Progress): ReconState.Body {
    if p.raised then Raised else Completed(AnyCritical(p.notes), p.pending > 0)
  }

  /** Tables and status after a run. */
  function Reconciled(db: Db, env: Env, previous: State, operatorAck: bool): (res: (Db, ReconStatus))
    requires WellFormed(db)
    ensures WellFormed(res.0)
  {
    var p := RunBody(db, env, previous.lastSuccess);
    (p.db, OutcomeOf(BodyOf(p), previous.status, operatorAck))
  }
}
