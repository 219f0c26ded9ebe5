/** The simulated exchange of PAPER mode (engine/execution/paper.py): a concrete exchange that keeps the
    assumptions the reconciliation theorems make about one. */
module Paper {
  import opened Common
  import opened OrderModel
  import opened PositionModel
  import opened Ledger
  import opened Submission
  import opened Reconciliation
  import opened ReconciliationLaws
  import ReconciliationTheorems
  import Sizing

  /** What the simulated order book keeps of an order; `number` is the row id that names its ids. */
  datatype BookEntry = BookEntry(order: ClientOrderId, symbol: Symbol, number: nat, qty: real, price: real, commission: real, time: int)

  type Book = map<ClientOrderId, BookEntry>

  function ExchangeId(e: BookEntry): string {
    "P" + Decimal(e.number)
  }

  function TradeId(e: BookEntry): string {
    "PT" + Decimal(e.number)
  }

  function EventKey(e: BookEntry): string {
    "paper:" + e.symbol.base + "/" + e.symbol.quote + ":" + ExchangeId(e) + ":" + TradeId(e) + ":TRADE"
  }

  function ReportOn(e: BookEntry): Report {
    Report(e.order, Some(ExchangeId(e)), Filled, e.qty, e.qty * e.price, Some(e.time), None)
  }

  function FillOn(e: BookEntry): ExchangeFill {
    ExchangeFill(TradeId(e), Some(ExchangeId(e)), Some(e.order), e.qty, e.price, e.qty * e.price, e.commission,
                 Some(e.symbol.quote), e.time, EventKey(e))
  }

  /** Market orders fill at once, at the reference price. */
  function EntryFor(o: OrderRow, number: nat, stepSize: real, price: real, feeRate: real, now: int): BookEntry {
    var qty := Sizing.FloorToStep(o.requested, stepSize);
    BookEntry(o.clientOrderId, o.symbol, number, qty, price, qty * price * feeRate, now)
  }

  function Answer(book: Book, o: OrderRow, isMarket: bool, price: Option<real>, entry: BookEntry): (Book, Outcome)
  {
    if o.clientOrderId in book then (book, Refused("-2010 Duplicate order sent."))
    else if !isMarket then (book, Refused("PAPER supports MARKET orders only"))
    else if price.None? || price.value <= 0.0 then (book, Refused("PAPER order needs a reference price"))
    else (book[o.clientOrderId := entry], Acknowledged(ReportOn(entry), [FillOn(entry)]))
  }

  class PaperExecutor {
    var book: Book
    const feeRate: real

    constructor (feeRate: real)
      ensures book == map[] && this.feeRate == feeRate
    {
      book, this.feeRate := map[], feeRate;
    }

    method Submit(o: OrderRow, number: nat, stepSize: real, isMarket: bool, price: Option<real>, now: int) returns (outcome: Outcome)
      modifies this`book
      ensures (book, outcome) == Answer(old(book), o, isMarket, price,
                                        EntryFor(o, number, stepSize, if price.Some? then price.value else 0.0, feeRate, now))
    {
      if o.clientOrderId in book {
        return Refused("-2010 Duplicate order sent.");
      }
      if !isMarket {
        return Refused("PAPER supports MARKET orders only");
      }
      if price.None? || price.value <= 0.0 {
        return Refused("PAPER order needs a reference price");
      }
      var e := EntryFor(o, number, stepSize, price.value, feeRate, now);
      book := book[o.clientOrderId := e];
      return Acknowledged(ReportOn(e), [FillOn(e)]);
    }

    method QueryOrder(c: ClientOrderId) returns (r: Option<Report>)
      ensures Answered(r) == Query(ViewOf(book, 0.0, 0.0), c)
    {
      return if c in book then Some(ReportOn(book[c])) else None;
    }
  }

  /** The book as a reconciliation run sees it: nothing open, no account-wide trades, no look-up by exchange id. */
  function ViewOf(book: Book, baseTotal: real, stepSize: real): View {
    View(map c | c in book :: Answered(Some(ReportOn(book[c]))), map[],
         map c | c in book :: Answered([FillOn(book[c])]),
         Answered([]), Answered([]), Answered(baseTotal), Answered(stepSize))
  }

  /** A market order with a reference price that is not in the book fills at once: all of its quantity, rounded down to the
      step, at that price, with the fee in the quote asset. Anything else is refused and leaves the book alone. */
  lemma PaperAnswersExactly(book: Book, o: OrderRow, number: nat, stepSize: real, isMarket: bool, price: Option<real>,
                            feeRate: real, now: int)
    ensures var px := if price.Some? then price.value else 0.0;
            var (book', outcome) := Answer(book, o, isMarket, price, EntryFor(o, number, stepSize, px, feeRate, now));
            if o.clientOrderId !in book && isMarket && px > 0.0 then
              && outcome.Acknowledged? && |outcome.fills| == 1
              && book'.Keys == book.Keys + {o.clientOrderId}
              && var (r, xf, qty) := (outcome.report, outcome.fills[0], Sizing.FloorToStep(o.requested, stepSize));
                 && r.clientOrderId == o.clientOrderId && r.status == Filled && Present(r.exchangeOrderId) && r.rejectReason == None
                 && r.executedQty == qty && r.cumQuoteQty == qty * px && r.updateTimeMs == Some(now)
                 && xf.clientOrderId == Some(o.clientOrderId) && xf.exchangeOrderId == r.exchangeOrderId
                 && xf.qty == qty && xf.price == px && xf.quoteQty == qty * px && xf.timeMs == now
                 && xf.commission == qty * px * feeRate && xf.commissionAsset == Some(o.symbol.quote)
            else outcome.Refused? && book' == book
  {
    hide Sizing.FloorToStep;
  }

  ghost predicate Filed(book: Book) {
    forall c | c in book :: book[c].order == c
  }

  lemma SubmitKeepsFiled(book: Book, o: OrderRow, isMarket: bool, price: Option<real>, entry: BookEntry)
    requires Filed(book) && entry.order == o.clientOrderId
    ensures Filed(Answer(book, o, isMarket, price, entry).0)
    ensures forall c | c in book :: c in Answer(book, o, isMarket, price, entry).0 && Answer(book, o, isMarket, price, entry).0[c] == book[c]
  {
  }

  /** Whatever was submitted, the simulated exchange answers consistently, so in PAPER mode a completed
      reconciliation run can always be repeated without effect. */
  lemma PaperIsConsistent(book: Book, baseTotal: real, stepSize: real)
    requires Filed(book)
    ensures AnswersAgree(ViewOf(book, baseTotal, stepSize))
  {
  }

  /** Without network, a paper run always completes unless the ledger itself refuses an exchange id or an
      order, and then changes nothing when it is repeated. */
  lemma PaperRunIsRepeatable(db: Db, book: Book, env: Env, lastSuccess: Option<int>, baseTotal: real, stepSize: real)
    requires WellFormed(db) && Filed(book) && env.view == ViewOf(book, baseTotal, stepSize)
    requires lastSuccess.Some? ==> lastSuccess.value <= env.now
    ensures var once := RunBody(db, env, lastSuccess);
            !once.raised ==> var twice := RunBody(once.db, env, Some(env.now)); twice.db == once.db && !twice.raised
  {
    PaperIsConsistent(book, baseTotal, stepSize);
    if !RunBody(db, env, lastSuccess).raised {
      ReconciliationTheorems.SecondRunChangesNothing(db, env, lastSuccess, Some(env.now));
    }
  }

  lemma PaperReportTaken(db: Db, c: ClientOrderId, e: BookEntry, now: int)
    requires WellFormed(db) && c in db.orders && db.orders[c].status == Submitting && e.order == c && e.qty > 0.0
    requires db.orders[c].exchangeOrderId.None? && db.orders[c].executed == 0.0 && ExchangeId(e) !in db.byExchangeId
    ensures var (db1, ended) := ReportTaken(db, ReportOn(e), now);
            && ended.Returned? && c in db1.orders && db1.orders[c].status == Filled && db1.orders[c].executed == e.qty
            && db1.orders[c].clientOrderId == c && db1.fills == db.fills
  {
    assert RowFits(db, c);
    var o := Merge(db.orders[c], ReportOn(e), now).row;
    assert ReportTaken(db, ReportOn(e), now).0 == Updated(db, o);
    assert Updated(db, o).orders[c] == o.(version := o.version + 1);
  }

  lemma NewFillCounts(db: Db, c: ClientOrderId, e: BookEntry, now: int)
    requires WellFormed(db) && c in db.orders && db.orders[c].clientOrderId == c && e.order == c
    requires !Recorded(db.fills, FillOf(db.orders[c], FillOn(e), now))
    ensures RecordedQty(IngestFill(db, FillOn(e), now).0.fills, c) == RecordedQty(db.fills, c) + e.qty
  {
  }

  /** The production path end to end: a fresh market order ends FILLED with its whole quantity executed and,
      unless that execution was recorded before, fully explained by fills. */
  lemma PaperOrderIsFilled(db: Db, c: ClientOrderId, e: BookEntry, now: int, grace: nat)
    requires WellFormed(db) && c in db.orders && db.orders[c].status == Submitting && e.order == c && e.qty > 0.0
    requires db.orders[c].exchangeOrderId.None? && db.orders[c].executed == 0.0 && ExchangeId(e) !in db.byExchangeId
    requires db.orders[c].clientOrderId == c
    requires RecordedQty(db.fills, c) == 0.0 && !Recorded(db.fills, FillOf(db.orders[c], FillOn(e), now))
    ensures var (db', ended) := Submission.Concluded(db, c, Acknowledged(ReportOn(e), [FillOn(e)]), Answered(None), Answered([]), now, grace);
            && ended.Returned? && c in db'.orders && db'.orders[c].status == Filled
            && db'.orders[c].executed == e.qty && RecordedQty(db'.fills, c) == e.qty
  {
    hide ReportTaken, IngestFill, WellFormed;
    PaperReportTaken(db, c, e, now);
    var db1 := ReportTaken(db, ReportOn(e), now).0;
    OneFill(db1, FillOn(e), now);
    SameRecorded(db.fills, FillOf(db1.orders[c], FillOn(e), now), FillOf(db.orders[c], FillOn(e), now));
    NewFillCounts(db1, c, e, now);
  }

  lemma OneFill(db: Db, xf: ExchangeFill, now: int)
    requires WellFormed(db)
    ensures IngestAll(db, [xf], now) == IngestFill(db, xf, now).0
  {
  }

  predicate SameKeys(f: Fill, g: Fill) {
    f.order == g.order && f.tradeId == g.tradeId && f.eventKey == g.eventKey
  }

  lemma SameRecorded(fills: seq<Fill>, f: Fill, g: Fill)
    requires SameKeys(f, g)
    ensures Recorded(fills, f) == Recorded(fills, g)
  {
  }
}
