/** The simulated exchange keeps what the confluence and exposure theorems ask of an exchange
    (engine/execution/paper.py). */
module PaperLaws {
  import opened Common
  import opened OrderModel
  import opened PositionModel
  import opened Ledger
  import opened Submission
  import opened Confluence
  import opened Paper
  import Attempts
  import SellExposure

  // ------------------------------------------------------------------ its ids tell orders apart

  predicate Digit(ch: char) {
    '0' <= ch <= '9'
  }

  predicate AllDigits(x: string) {
    forall k | 0 <= k < |x| :: Digit(x[k])
  }

  lemma {:induction false} DecimalDigits(n: nat)
    ensures |Decimal(n)| >= 1 && AllDigits(Decimal(n))
    decreases n
  {
    if n >= 10 {
      DecimalDigits(n / 10);
    }
  }

  lemma {:induction false} DecimalInjective(m: nat, n: nat)
    requires Decimal(m) == Decimal(n)
    ensures m == n
    decreases m
  {
    var a, b := if m < 10 then "" else Decimal(m / 10), if n < 10 then "" else Decimal(n / 10);
    var digits := ['0', '1', '2', '3', '4', '5', '6', '7', '8', '9'];
    Attempts.SplitRight(a, b, [digits[m % 10]], [digits[n % 10]]);
    assert [digits[m % 10]][0] == [digits[n % 10]][0];
    Attempts.SameDigit(m % 10, n % 10);
    DecimalDigits(m / 10);
    DecimalDigits(n / 10);
    if m >= 10 && n >= 10 {
      DecimalInjective(m / 10, n / 10);
    }
  }

  lemma NotShorter(a: string, b: string, x: string, y: string)
    requires a + ("PT" + x) == b + ("PT" + y) && AllDigits(y)
    ensures |x| >= |y|
  {
    var s := a + ("PT" + x);
    assert s[|s| - 1 - |x|] == 'T';
    assert s == b + ("PT" + y);
    assert forall i | |s| - |y| <= i < |s| :: Digit(s[i]);
  }

  /** Whatever stands before it, the number at the end can be read off. */
  lemma NumberAtEnd(a: string, b: string, m: nat, n: nat)
    requires a + ("PT" + Decimal(m)) == b + ("PT" + Decimal(n))
    ensures m == n
  {
    DecimalDigits(m);
    DecimalDigits(n);
    NotShorter(a, b, Decimal(m), Decimal(n));
    NotShorter(b, a, Decimal(n), Decimal(m));
    Attempts.SplitRight(a, b, "PT" + Decimal(m), "PT" + Decimal(n));
    Attempts.SplitRight("PT", "PT", Decimal(m), Decimal(n));
    DecimalInjective(m, n);
  }

  lemma KeyNamesEntry(e: BookEntry, f: BookEntry)
    requires EventKey(e) == EventKey(f)
    ensures e.number == f.number
  {
    var a, b := "paper:" + e.symbol.base + "/" + e.symbol.quote + ":" + ExchangeId(e) + ":",
                "paper:" + f.symbol.base + "/" + f.symbol.quote + ":" + ExchangeId(f) + ":";
    Attempts.SplitRight(a + TradeId(e), b + TradeId(f), ":TRADE", ":TRADE");
    NumberAtEnd(a, b, e.number, f.number);
  }

  lemma IdNamesEntry(e: BookEntry, f: BookEntry)
    requires ExchangeId(e) == ExchangeId(f)
    ensures e.number == f.number
  {
    assert ExchangeId(e)[1..] == Decimal(e.number) && ExchangeId(f)[1..] == Decimal(f.number);
    DecimalInjective(e.number, f.number);
  }

  // ------------------------------------------------------------------ the book as an exchange

  /** Orders are numbered by their row ids, and every entry is a real execution. */
  ghost predicate Proper(book: Book) {
    && Filed(book)
    && (forall c, d | c in book && d in book && c != d :: book[c].number != book[d].number)
    && (forall c | c in book :: book[c].qty > 0.0 && book[c].price > 0.0 && book[c].time != 0)
  }

  lemma KeysDiffer(book: Book)
    requires Proper(book)
    ensures forall c, d | c in book && d in book && EventKey(book[c]) == EventKey(book[d]) :: c == d
  {
    forall c, d | c in book && d in book && EventKey(book[c]) == EventKey(book[d])
      ensures c == d
    {
      KeyNamesEntry(book[c], book[d]);
    }
  }

  function Histories(book: Book, placed: set<ClientOrderId>): map<ClientOrderId, seq<Report>> {
    map c | c in placed :: if c in book then [ReportOn(book[c])] else []
  }

  function Keys(book: Book): set<string> {
    set c | c in book :: EventKey(book[c])
  }

  ghost function Behind(book: Book, k: string): (c: ClientOrderId)
    requires k in Keys(book)
    ensures c in book && EventKey(book[c]) == k
  {
    var c :| c in book && EventKey(book[c]) == k;
    c
  }

  ghost function Trades(book: Book): map<string, ExchangeFill> {
    map k | k in Keys(book) :: FillOn(book[Behind(book, k)])
  }

  /** Every order it has filled, with one report and one execution. It has no stream. */
  ghost function ExchangeOf(book: Book, placed: set<ClientOrderId>): (x: Exchange) {
    Exchange(Histories(book, placed), Trades(book), map[])
  }

  lemma TradeOfEntry(book: Book, c: ClientOrderId)
    requires Proper(book) && c in book
    ensures EventKey(book[c]) in Trades(book) && Trades(book)[EventKey(book[c])] == FillOn(book[c])
  {
    KeysDiffer(book);
    assert EventKey(book[c]) in Keys(book);
  }

  lemma HistoriesFit(book: Book, placed: set<ClientOrderId>, c: ClientOrderId)
    requires Proper(book) && book.Keys <= placed && c in placed
    ensures HistoryConsistent(ExchangeOf(book, placed), c)
  {
  }

  lemma IdsFit(book: Book, placed: set<ClientOrderId>, c: ClientOrderId, d: ClientOrderId)
    requires Proper(book) && book.Keys <= placed && c in placed && d in placed && c != d
    ensures IdsDiffer(ExchangeOf(book, placed), c, d)
  {
    if c in book && d in book && ExchangeId(book[c]) == ExchangeId(book[d]) {
      IdNamesEntry(book[c], book[d]);
    }
  }

  lemma TradesFit(book: Book, placed: set<ClientOrderId>, k: string)
    requires Proper(book) && book.Keys <= placed && k in Keys(book)
    ensures TradeConsistent(ExchangeOf(book, placed), k)
  {
    var x := ExchangeOf(book, placed);
    assert Behind(book, k) in book;
    forall l | l in x.trades && l != k
      ensures TradesDiffer(x, k, l)
    {
      assert Behind(book, l) in book;
    }
  }

  /** Whatever was submitted: ids are distinct, an execution has one key and one content. */
  lemma PaperIsConsistentExchange(book: Book, placed: set<ClientOrderId>)
    requires Proper(book) && book.Keys <= placed
    ensures Confluence.Consistent(ExchangeOf(book, placed))
  {
    var x := ExchangeOf(book, placed);
    hide Proper, EventKey, HistoryConsistent, IdsDiffer, TradeConsistent;
    forall c | c in x.history
      ensures HistoryConsistent(x, c)
    {
      HistoriesFit(book, placed, c);
    }
    forall c, d | c in x.history && d in x.history && c != d
      ensures IdsDiffer(x, c, d)
    {
      IdsFit(book, placed, c, d);
    }
    forall k | k in x.trades
      ensures TradeConsistent(x, k)
    {
      TradesFit(book, placed, k);
    }
  }

  /** A submission under a new row id keeps the book proper. */
  lemma SubmitKeepsProper(book: Book, o: OrderRow, isMarket: bool, price: Option<real>, entry: BookEntry)
    requires Proper(book) && entry.order == o.clientOrderId && entry.qty > 0.0 && entry.time != 0
    requires price.Some? ==> entry.price == price.value
    requires forall c | c in book :: book[c].number != entry.number
    ensures Proper(Answer(book, o, isMarket, price, entry).0)
  {
  }

  // ------------------------------------------------------------------ a ledger that is told what the book says

  /** Some of what the book says has arrived, in any order and any number of times, and no order of the book was given
      up; see `Confluence.LedgerCatchesUp`. */
  ghost predicate Told(start: Db, book: Book, n: map<ClientOrderId, int>, t: set<string>, db: Db) {
    && Proper(book) && book.Keys <= start.orders.Keys
    && Confluence.Consistent(ExchangeOf(book, start.orders.Keys)) && Confluence.Submitted(start, ExchangeOf(book, start.orders.Keys))
    && Caught(start, ExchangeOf(book, start.orders.Keys), n, t, db)
    && (forall c | c in book :: n[c] != GIVEN_UP)
  }

  lemma {:induction false} RecordedOne(fills: seq<Fill>, f: Fill)
    requires Distinct(fills) && forall g | g in fills && g.order == f.order :: g == f
    ensures RecordedQty(fills, f.order) == if f in fills then f.qty else 0.0
    decreases |fills|
  {
    if fills != [] {
      var rest, last := fills[..|fills| - 1], fills[|fills| - 1];
      assert fills == rest + [last] && last in fills && last !in rest;
      RecordedOne(rest, f);
    }
  }

  lemma FillBehind(start: Db, book: Book, n: map<ClientOrderId, int>, t: set<string>, db: Db, f: Fill)
    requires Told(start, book, n, t, db) && f in db.fills
    ensures f.eventKey in t && f.eventKey in Keys(book) && f.order == Behind(book, f.eventKey)
    ensures f == FillOfTrade(start, ExchangeOf(book, start.orders.Keys), f.eventKey)
  {
    assert Behind(book, f.eventKey) in book;
    assert RowFits(start, Behind(book, f.eventKey));
  }

  /** What is on record of an order is its one execution, once that has arrived. */
  lemma RecordedOfEntry(start: Db, book: Book, n: map<ClientOrderId, int>, t: set<string>, db: Db, c: ClientOrderId)
    requires Told(start, book, n, t, db) && c in book
    ensures RecordedQty(db.fills, c) == if EventKey(book[c]) in t then book[c].qty else 0.0
  {
    var x := ExchangeOf(book, start.orders.Keys);
    TradeOfEntry(book, c);
    KeysDiffer(book);
    var f := FillOfTrade(start, x, EventKey(book[c]));
    assert RowFits(start, c);
    forall g | g in db.fills && g.order == c
      ensures g == f
    {
      FillBehind(start, book, n, t, db, g);
    }
    if f in db.fills {
      FillBehind(start, book, n, t, db, f);
    }
    RecordedOne(db.fills, f);
  }

  /** The book has filled what was asked for, rounded down, and takes its fee in the quote asset. */
  ghost predicate BookFits(db: Db, book: Book) {
    forall c | c in book :: c in db.orders && book[c].symbol == db.orders[c].symbol && book[c].qty <= db.orders[c].requested
                            && book[c].symbol.base != book[c].symbol.quote
  }

  lemma EntryOrder(start: Db, book: Book, n: map<ClientOrderId, int>, t: set<string>, db: Db, c: ClientOrderId)
    requires Told(start, book, n, t, db) && c in book
    ensures c in db.orders && (Terminal(db.orders[c].status) ==> db.orders[c].executed == book[c].qty)
    ensures !Terminal(db.orders[c].status) ==> n[c] == -1
  {
    assert OrderHolds(start, ExchangeOf(book, start.orders.Keys), n, db, c);
  }

  lemma ReportIsHonest(start: Db, book: Book, n: map<ClientOrderId, int>, t: set<string>, db: Db, c: ClientOrderId)
    requires Told(start, book, n, t, db) && BookFits(db, book) && c in book
    ensures SellExposure.HonestReport(db, ReportOn(book[c]))
  {
    EntryOrder(start, book, n, t, db, c);
    RecordedOfEntry(start, book, n, t, db, c);
  }

  lemma FillIsHonest(start: Db, book: Book, n: map<ClientOrderId, int>, t: set<string>, db: Db, c: ClientOrderId, now: int)
    requires Told(start, book, n, t, db) && BookFits(db, book) && c in book
    ensures SellExposure.HonestFill(db, FillOn(book[c]), now)
  {
    var x := ExchangeOf(book, start.orders.Keys);
    TradeOfEntry(book, c);
    EntryOrder(start, book, n, t, db, c);
    RecordedOfEntry(start, book, n, t, db, c);
    ExpectedFill(start, x, n, t, db, EventKey(book[c]), now);
    RecordedExactly(start, x, t, db, EventKey(book[c]));
  }

  /** The simulated exchange never breaks what the exposure theorem trusts an exchange with. */
  lemma PaperIsHonest(start: Db, book: Book, n: map<ClientOrderId, int>, t: set<string>, db: Db, s: Symbol, a: Delivery)
    requires Told(start, book, n, t, db) && BookFits(db, book)
    requires Possible(ExchangeOf(book, start.orders.Keys), a) && (a.message.ByReport? || a.message.ByFill? || a.message.ByStream?)
    ensures SellExposure.Honest(db, s, StepOf(ExchangeOf(book, start.orders.Keys), a))
  {
    match a.message {
      case ByReport(c, i) =>
        assert c in book && i == 0;
        ReportIsHonest(start, book, n, t, db, c);
      case ByFill(k) =>
        assert Behind(book, k) in book;
        FillIsHonest(start, book, n, t, db, Behind(book, k), a.now);
    }
  }

  // ------------------------------------------------------------------ a fresh order

  /** Nothing has arrived about the order, so its exchange id is free and its execution is not on record: the whole
      path from acknowledgement to fill goes through. */
  lemma FreshPaperOrderIsFilled(start: Db, book: Book, n: map<ClientOrderId, int>, t: set<string>, db: Db, c: ClientOrderId,
                                now: int, grace: nat)
    requires Told(start, book, n, t, db) && c in book && n[c] == -1 && EventKey(book[c]) !in t
    ensures var e := book[c];
            var (db', ended) := Concluded(db, c, Submission.Outcome.Acknowledged(ReportOn(e), [FillOn(e)]), Answered(None), Answered([]), now, grace);
            && ended.Returned? && c in db'.orders && db'.orders[c].status == Filled
            && db'.orders[c].executed == e.qty && RecordedQty(db'.fills, c) == e.qty
  {
    var x := ExchangeOf(book, start.orders.Keys);
    FreshId(start, book, n, t, db, c);
    RecordedOfEntry(start, book, n, t, db, c);
    TradeOfEntry(book, c);
    ExpectedFill(start, x, n, t, db, EventKey(book[c]), now);
    RecordedExactly(start, x, t, db, EventKey(book[c]));
    PaperOrderIsFilled(db, c, book[c], now, grace);
  }

  lemma FreshId(start: Db, book: Book, n: map<ClientOrderId, int>, t: set<string>, db: Db, c: ClientOrderId)
    requires Told(start, book, n, t, db) && c in book && n[c] == -1
    ensures c in db.orders && db.orders[c].status == Submitting && db.orders[c].exchangeOrderId.None? && db.orders[c].executed == 0.0
    ensures ExchangeId(book[c]) !in db.byExchangeId && db.orders[c].clientOrderId == c
  {
    var x := ExchangeOf(book, start.orders.Keys);
    assert OrderHolds(start, x, n, db, c) && RowFits(db, c);
    var o := db.orders[c].(exchangeOrderId := Some(ExchangeId(book[c])));
    assert x.history[c] == [ReportOn(book[c])];
    assert ExchangeId(book[c]) in db.byExchangeId ==> Indexed(db, ExchangeId(book[c]));
    IdStaysFree(start, x, n, t, db, c, o);
  }
}
