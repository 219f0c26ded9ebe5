/** What may still be sold. The SELL orders of the bot together never claim more than the position that is
    tracked (engine/application/trading_cycle.py, engine/application/order_service.py). */
module SellExposure {
  import opened Common
  import opened OrderModel
  import opened PositionModel
  import opened PositionLaws
  import opened Ledger
  import opened LedgerLaws
  import opened Opening
  import opened Submission
  import opened Attempts

  // ------------------------------------------------------------------ exposure

  predicate Live(o: OrderRow) {
    !Terminal(o.status)
  }

  /** A live order may execute all that was requested, a terminal one has executed what it has. */
  function Claim(o: OrderRow): real {
    if Live(o) then o.requested else o.executed
  }

  function Unsold(db: Db, c: ClientOrderId): real {
    if c in db.orders && db.orders[c].side == Sell then Claim(db.orders[c]) - RecordedQty(db.fills, c) else 0.0
  }

  function UnsoldBut(db: Db, c: ClientOrderId, but: Option<ClientOrderId>): real {
    if but == Some(c) then 0.0 else Unsold(db, c)
  }

  function ExposureOf(db: Db, cs: seq<ClientOrderId>, but: Option<ClientOrderId>): real
    decreases |cs|
  {
    if cs == [] then 0.0 else ExposureOf(db, cs[..|cs| - 1], but) + UnsoldBut(db, cs[|cs| - 1], but)
  }

  /** Over all SELL orders: what they may still take, or have taken but is not yet in the position. */
  function Exposure(db: Db): real {
    ExposureOf(db, db.created, None)
  }

  function ExposureBut(db: Db, but: Option<ClientOrderId>): real {
    ExposureOf(db, db.created, but)
  }

  /** Every order of the list claims at least 0. */
  ghost predicate Claims(db: Db, cs: seq<ClientOrderId>) {
    forall c | c in cs :: Unsold(db, c) >= 0.0
  }

  lemma {:induction false} ExposureNonNegative(db: Db, cs: seq<ClientOrderId>, but: Option<ClientOrderId>)
    requires Claims(db, cs)
    ensures ExposureOf(db, cs, but) >= 0.0
    decreases |cs|
  {
    if cs != [] {
      ExposureNonNegative(db, cs[..|cs| - 1], but);
      assert cs[|cs| - 1] in cs;
    }
  }

  lemma {:induction false} ClaimWithin(db: Db, cs: seq<ClientOrderId>, but: Option<ClientOrderId>, c: ClientOrderId)
    requires Claims(db, cs) && c in cs
    ensures UnsoldBut(db, c, but) <= ExposureOf(db, cs, but)
    decreases |cs|
  {
    var rest := cs[..|cs| - 1];
    ExposureNonNegative(db, rest, but);
    assert cs[|cs| - 1] in cs;
    if c in rest {
      ClaimWithin(db, rest, but, c);
    }
  }

  lemma {:induction false} ExposureShrinks(db: Db, db': Db, cs: seq<ClientOrderId>, but: Option<ClientOrderId>)
    requires forall c | c in cs :: Unsold(db', c) <= Unsold(db, c)
    ensures ExposureOf(db', cs, but) <= ExposureOf(db, cs, but)
    decreases |cs|
  {
    if cs != [] {
      ExposureShrinks(db, db', cs[..|cs| - 1], but);
      assert cs[|cs| - 1] in cs;
    }
  }

  lemma {:induction false} ExposureShrinksBy(db: Db, db': Db, cs: seq<ClientOrderId>, but: Option<ClientOrderId>,
                                             c: ClientOrderId, q: real)
    requires q >= 0.0 && c in cs && but != Some(c)
    requires forall x | x in cs :: Unsold(db', x) <= Unsold(db, x)
    requires Unsold(db', c) <= Unsold(db, c) - q
    ensures ExposureOf(db', cs, but) <= ExposureOf(db, cs, but) - q
    decreases |cs|
  {
    var rest := cs[..|cs| - 1];
    assert cs[|cs| - 1] in cs;
    if c in rest {
      ExposureShrinksBy(db, db', rest, but, c, q);
    } else {
      ExposureShrinks(db, db', rest, but);
    }
  }

  lemma {:induction false} ExposureOfNothing(db: Db, cs: seq<ClientOrderId>, but: Option<ClientOrderId>)
    requires forall c | c in cs && but != Some(c) :: Unsold(db, c) == 0.0
    ensures ExposureOf(db, cs, but) == 0.0
    decreases |cs|
  {
    if cs != [] {
      ExposureOfNothing(db, cs[..|cs| - 1], but);
      assert cs[|cs| - 1] in cs;
    }
  }

  lemma {:induction false} RecordedOfNone(fills: seq<Fill>, c: ClientOrderId)
    requires forall f | f in fills :: f.order != c
    ensures RecordedQty(fills, c) == 0.0
    decreases |fills|
  {
    if fills != [] {
      RecordedOfNone(fills[..|fills| - 1], c);
      assert fills[|fills| - 1] in fills;
    }
  }

  // ------------------------------------------------------------------ the invariant

  /** Orders placed for the position that was opened at one moment share a stem. */
  function Epoch(openedAt: Option<int>): string {
    if openedAt.None? then "na"
    else if openedAt.value < 0 then "-" + Decimal(-openedAt.value)
    else Decimal(openedAt.value)
  }

  function StopDecision(openedAt: Option<int>): Decision {
    Decision(Epoch(openedAt), ProtectiveStop)
  }

  function SideOf(p: Purpose): Side {
    if p.Entry? then Buy else Sell
  }

  ghost predicate SellFits(db: Db, s: Symbol, c: ClientOrderId)
    requires c in db.orders
  {
    var o := db.orders[c];
    && o.symbol == s && o.side == SideOf(o.purpose)
    && (o.side == Sell ==> 0.0 <= RecordedQty(db.fills, c) <= Claim(o) && o.executed <= o.requested)
  }

  ghost predicate OneLiveSell(db: Db) {
    forall c, d {:trigger db.orders[c], db.orders[d]} | c in db.orders && d in db.orders ::
      db.orders[c].side == Sell && Live(db.orders[c]) && db.orders[d].side == Sell && Live(db.orders[d]) ==> c == d
  }

  /** A live stop that may still sell belongs to the position as it stands. */
  ghost predicate StopFits(db: Db, s: Symbol, c: ClientOrderId)
    requires c in db.orders
  {
    db.orders[c].purpose.ProtectiveStop? && Live(db.orders[c]) && Unsold(db, c) > 0.0 ==>
      exists j: nat | j < 10 :: c == OrderOf(StopDecision(PositionOf(db, s).openedAt), j)
  }

  ghost predicate Disciplined(db: Db, d: Decision, k: nat)
    requires k < 10
  {
    IntentId(d, k) in db.intents ==>
      && k < MaxAttempts(d.purpose) && SpentBelow(db, d, k)
      && OrderOf(d, k) in db.orders && db.orders[OrderOf(d, k)].purpose == d.purpose
  }

  /** What the recorded executions of the instrument amount to. */
  function NetHeld(db: Db, s: Symbol): real {
    SumOf(FillsOf(db.fills, s), NetQty)
  }

  ghost predicate FillFits(db: Db, f: Fill) {
    f.order in db.orders && (f.side == Sell ==> Delivered(f) >= 0.0)
  }

  /** Fills belong to orders, and no order has sold more than it claims. */
  ghost predicate Tidy(db: Db, s: Symbol) {
    && WellFormed(db)
    && (forall f {:trigger FillFits(db, f)} | f in db.fills :: FillFits(db, f))
    && (forall c {:trigger SellFits(db, s, c)} | c in db.orders :: SellFits(db, s, c))
  }

  ghost predicate Safe(db: Db, s: Symbol) {
    && Tidy(db, s)
    && PositionOf(db, s).qty == NetHeld(db, s)
    && (forall c {:trigger StopFits(db, s, c)} | c in db.orders :: StopFits(db, s, c))
    && OneLiveSell(db)
    && Exposure(db) <= PositionOf(db, s).qty
    && (forall d, k: nat {:trigger Disciplined(db, d, k)} | k < 10 :: Disciplined(db, d, k))
  }

  lemma SafeClaims(db: Db, s: Symbol)
    requires Tidy(db, s)
    ensures Claims(db, db.created)
  {
    forall c | c in db.created
      ensures Unsold(db, c) >= 0.0
    {
      assert SellFits(db, s, c);
    }
  }

  // ------------------------------------------------------------------ what the exchange is trusted with

  /** No report says that more was executed than requested, a terminal status comes with the final
      quantity, and the recorded executions are part of it. */
  ghost predicate HonestReport(db: Db, r: Report)
    requires WellFormed(db)
  {
    var located := Locate(db, Some(r.clientOrderId), r.exchangeOrderId);
    located.Some? ==>
      var c := located.value;
      && c in db.orders
      && r.executedQty <= db.orders[c].requested
      && (Terminal(db.orders[c].status) ==> r.executedQty <= db.orders[c].executed)
      && (Terminal(r.status) ==> RecordedQty(db.fills, c) <= r.executedQty)
  }

  /** A BUY leaves something after its commission. A SELL is part of what its order may execute, and pays no
      commission in the base asset. */
  ghost predicate HonestFill(db: Db, xf: ExchangeFill, now: int)
    requires WellFormed(db)
  {
    var located := Locate(db, xf.clientOrderId, xf.exchangeOrderId);
    located.Some? && located.value in db.orders ==>
      if db.orders[located.value].side != Sell then
        xf.qty - (if xf.commissionAsset == Some(db.orders[located.value].symbol.base) then xf.commission else 0.0) > 0.0
      else
      && xf.qty >= 0.0
      && xf.commissionAsset != Some(db.orders[located.value].symbol.base)
      && (!Recorded(db.fills, FillOf(db.orders[located.value], xf, now)) ==>
            RecordedQty(db.fills, located.value) + xf.qty <= Claim(db.orders[located.value]))
  }

  /** In order of execution no sale takes more than was held, and the execution that opened the position is the one
      that its opening time names. */
  ghost predicate ExecutedAsRecorded(db: Db, s: Symbol) {
    Clean(EmptyPosition(s), Executed(db, s)) && PositionOf(db, s).openedAt == OpenedAt(s, Executed(db, s))
  }

  /** No stop is live that may still sell. */
  ghost predicate NoStopRests(db: Db) {
    forall c | c in db.orders && db.orders[c].purpose.ProtectiveStop? && Live(db.orders[c]) :: Unsold(db, c) == 0.0
  }

  /** A rebuild after which the position has another opening time. */
  ghost predicate Renames(db: Db, s: Symbol, step: Step) {
    step.op == RebuildPosition(s) && PositionOf(db, s).openedAt != OpenedAt(s, Executed(db, s))
  }

  ghost predicate Honest(db: Db, s: Symbol, step: Step)
    requires WellFormed(db)
  {
    match step.op
    case TakeReport(r) => HonestReport(db, r)
    case TakeFill(xf) => HonestFill(db, xf, step.now)
    case TakeEvent(ev) =>
      var marked := MarkProcessed(db, ev.eventKey);
      && HonestReport(marked, ev.report)
      && (ev.fill.Some? ==> HonestFill(ApplyReport(marked, ev.report, step.now).0, ev.fill.value, step.now))
    case Refuse(c, _) => c in db.orders ==> RecordedQty(db.fills, c) <= db.orders[c].executed
    case RebuildPosition(symbol) => symbol == s ==> Clean(EmptyPosition(s), Executed(db, s)) && (Renames(db, s, step) ==> NoStopRests(db))
    case Persist(_) => false
    case _ => true
  }

  // ------------------------------------------------------------------ how the tables may move

  ghost predicate RowMoves(db: Db, db': Db, c: ClientOrderId)
    requires c in db.orders && c in db'.orders
  {
    var o, o' := db.orders[c], db'.orders[c];
    && Later(o, o')
    && o'.symbol == o.symbol && o'.side == o.side && o'.purpose == o.purpose && o'.requested == o.requested
    && (Terminal(o.status) ==> o'.executed == o.executed)
    && (o.executed <= o.requested ==> o'.executed <= o.requested)
    && (Terminal(o'.status) && !Terminal(o.status) ==> RecordedQty(db.fills, c) <= o'.executed)
  }

  /** Orders move forward, everything else the exposure depends on stays. */
  ghost predicate Moves(db: Db, db': Db, s: Symbol) {
    && WellFormed(db')
    && db'.orders.Keys == db.orders.Keys && db'.created == db.created && db'.intents == db.intents && db'.fills == db.fills
    && PositionOf(db', s).qty == PositionOf(db, s).qty && PositionOf(db', s).openedAt == PositionOf(db, s).openedAt
    && (forall c {:trigger RowMoves(db, db', c)} | c in db.orders :: RowMoves(db, db', c))
  }

  lemma UnsoldMoves(db: Db, db': Db, s: Symbol, c: ClientOrderId)
    requires Tidy(db, s) && Moves(db, db', s)
    ensures Unsold(db', c) <= Unsold(db, c)
    ensures c in db'.orders ==> SellFits(db', s, c)
    ensures Unsold(db', c) >= 0.0
  {
    if c in db.orders {
      assert RowMoves(db, db', c) && SellFits(db, s, c);
    }
  }

  lemma SpentStays(db: Db, db': Db, s: Symbol, d: Decision, k: nat)
    requires Moves(db, db', s) && k <= 10 && SpentBelow(db, d, k)
    ensures SpentBelow(db', d, k)
  {
    forall j | 0 <= j < k
      ensures Spent(db', d, j)
    {
      assert Spent(db, d, j);
      assert RowMoves(db, db', OrderOf(d, j));
    }
  }

  lemma DisciplineStays(db: Db, db': Db, s: Symbol, d: Decision, k: nat)
    requires Safe(db, s) && Moves(db, db', s) && k < 10
    ensures Disciplined(db', d, k)
  {
    assert Disciplined(db, d, k);
    if IntentId(d, k) in db.intents {
      SpentStays(db, db', s, d, k);
      assert RowMoves(db, db', OrderOf(d, k));
    }
  }

  lemma MovesTidy(db: Db, db': Db, s: Symbol)
    requires Tidy(db, s) && Moves(db, db', s)
    ensures Tidy(db', s)
  {
    forall c | c in db'.orders
      ensures SellFits(db', s, c)
    {
      UnsoldMoves(db, db', s, c);
    }
    forall f | f in db'.fills
      ensures FillFits(db', f)
    {
      assert FillFits(db, f);
    }
  }

  lemma MovesKeep(db: Db, db': Db, s: Symbol)
    requires Safe(db, s) && Moves(db, db', s)
    ensures Safe(db', s)
  {
    MovesTidy(db, db', s);
    forall c
      ensures Unsold(db', c) <= Unsold(db, c)
    {
      UnsoldMoves(db, db', s, c);
    }
    ExposureShrinks(db, db', db.created, None);
    forall c | c in db'.orders
      ensures StopFits(db', s, c)
    {
      assert RowMoves(db, db', c) && StopFits(db, s, c);
    }
    MovesKeepOneLive(db, db', s);
    forall d, k: nat | k < 10
      ensures Disciplined(db', d, k)
    {
      DisciplineStays(db, db', s, d, k);
    }
  }

  lemma MovesKeepOneLive(db: Db, db': Db, s: Symbol)
    requires OneLiveSell(db) && Moves(db, db', s)
    ensures OneLiveSell(db')
  {
    forall c | c in db'.orders
      ensures RowMoves(db, db', c)
    {
    }
  }

  // ------------------------------------------------------------------ reports and other order updates

  lemma MergeMoves(o: OrderRow, r: Report, now: int)
    ensures var m := Merge(o, r, now);
            m.Merged? ==>
              && m.row.clientOrderId == o.clientOrderId && m.row.symbol == o.symbol && m.row.side == o.side
              && m.row.purpose == o.purpose && m.row.requested == o.requested
              && m.row.executed == Max(o.executed, r.executedQty)
              && (m.row.status == o.status || m.row.status == r.status)
  {
  }

  /** Saving a row that moved forward. */
  lemma UpdateMoves(db: Db, o: OrderRow, s: Symbol)
    requires WellFormed(db) && Forward(db, o)
    requires RowMoves(db, Updated(db, o), o.clientOrderId)
    ensures Moves(db, Updated(db, o), s)
  {
    var db' := Updated(db, o);
    forall c | c in db.orders
      ensures RowMoves(db, db', c)
    {
    }
  }

  lemma NothingMoves(db: Db, db': Db, s: Symbol)
    requires WellFormed(db) && WellFormed(db')
    requires db'.orders == db.orders && db'.created == db.created && db'.intents == db.intents && db'.fills == db.fills
    requires PositionOf(db', s).qty == PositionOf(db, s).qty && PositionOf(db', s).openedAt == PositionOf(db, s).openedAt
    ensures Moves(db, db', s)
  {
    forall c | c in db.orders
      ensures RowMoves(db, db', c)
    {
    }
  }

  lemma ReportMoves(db: Db, r: Report, now: int, s: Symbol)
    requires WellFormed(db) && HonestReport(db, r)
    ensures Moves(db, ApplyReport(db, r, now).0, s)
  {
    var o := ReportIsUpdate(db, r, now);
    if o.None? {
      NothingMoves(db, db, s);
    } else {
      ReportedRow(db, r, now, o.value);
      UpdateMoves(db, o.value, s);
    }
  }

  /** The row that a report saves is the merge of the row it was located by. */
  lemma ReportedRow(db: Db, r: Report, now: int, o: OrderRow)
    requires WellFormed(db) && Forward(db, o) && ApplyReport(db, r, now).0 == Updated(db, o) && HonestReport(db, r)
    ensures RowMoves(db, Updated(db, o), o.clientOrderId)
  {
    var located := Locate(db, Some(r.clientOrderId), r.exchangeOrderId);
    assert Updated(db, o).orders[o.clientOrderId] == o.(version := o.version + 1);
    if located.Some? {
      LocatedFits(db, Some(r.clientOrderId), r.exchangeOrderId);
      MergeMoves(db.orders[located.value], r, now);
      var m := Merge(db.orders[located.value], r, now);
      if m.Merged? && m.changed && !IdTaken(db, m.row) {
        assert Updated(db, m.row).orders[located.value] == m.row.(version := m.row.version + 1);
      }
    }
  }

  lemma RefusalMoves(db: Db, c: ClientOrderId, reason: string, now: int, s: Symbol)
    requires WellFormed(db) && c in db.orders && RecordedQty(db.fills, c) <= db.orders[c].executed
    ensures Moves(db, Reject(db, c, reason, now).0, s)
  {
    var o := RejectIsUpdate(db, c, reason, now);
    assert RowFits(db, c);
    if o.None? {
      NothingMoves(db, db, s);
    } else {
      assert Updated(db, o.value).orders[o.value.clientOrderId] == Reject(db, c, reason, now).0.orders[o.value.clientOrderId];
      RefusedRow(db, c, reason, now);
      UpdateMoves(db, RejectedRow(db.orders[c], reason, now), s);
    }
  }

  lemma RefusedRow(db: Db, c: ClientOrderId, reason: string, now: int)
    requires WellFormed(db) && c in db.orders && RowFits(db, c) && RejectVerdict(db.orders[c].status) == Accepted(true)
    requires RecordedQty(db.fills, c) <= db.orders[c].executed
    ensures Forward(db, RejectedRow(db.orders[c], reason, now))
    ensures RowMoves(db, Updated(db, RejectedRow(db.orders[c], reason, now)), c)
  {
  }

  lemma FlagMoves(db: Db, c: ClientOrderId, s: Symbol)
    requires WellFormed(db) && c in db.orders
    ensures Moves(db, FlagAmbiguous(db, c), s)
  {
    assert RowFits(db, c);
    var o := db.orders[c].(ambiguous := true);
    assert Forward(db, o) && RowMoves(db, Updated(db, o), c);
    UpdateMoves(db, o, s);
    var flagged := FlagAmbiguous(db, c);
    NothingMoves(Updated(db, o), flagged, s);
    MovesOn(db, Updated(db, o), flagged, s);
  }

  /** Moving and then only writing elsewhere is moving. */
  lemma MovesOn(a: Db, b: Db, c: Db, s: Symbol)
    requires Moves(a, b, s) && WellFormed(c)
    requires c.orders == b.orders && c.created == b.created && c.intents == b.intents && c.fills == b.fills
    requires PositionOf(c, s).qty == PositionOf(b, s).qty && PositionOf(c, s).openedAt == PositionOf(b, s).openedAt
    ensures Moves(a, c, s)
  {
    forall x | x in a.orders
      ensures RowMoves(a, c, x)
    {
      assert RowMoves(a, b, x);
    }
  }

  // ------------------------------------------------------------------ executions

  lemma SellMovesPosition(p: PositionRow, f: Fill)
    requires p.qty >= 0.0 && f.side == Sell && f.qty >= 0.0 && f.commissionAsset != Some(f.symbol.base)
    ensures Apply(p, f).qty == Max(0.0, p.qty - f.qty)
    ensures Apply(p, f).qty > 0.0 ==> Apply(p, f).openedAt == p.openedAt
  {
  }

  lemma OtherFillMovesPosition(p: PositionRow, f: Fill)
    requires p.qty >= 0.0 && f.side != Sell
    ensures Apply(p, f).qty >= p.qty
    ensures p.qty > 0.0 ==> Apply(p, f).openedAt == p.openedAt
  {
  }

  /** A new execution of an order of the bot. */
  ghost predicate Lands(db: Db, f: Fill, s: Symbol) {
    && f.order in db.orders && f.symbol == s && f.side == db.orders[f.order].side
    && (f.side != Sell ==> f.side == Buy && Received(f) > 0.0)
    && (f.side == Sell ==> f.qty >= 0.0 && f.commissionAsset != Some(s.base)
                           && RecordedQty(db.fills, f.order) + f.qty <= Claim(db.orders[f.order]))
  }

  lemma UnsoldLands(db: Db, f: Fill, s: Symbol, c: ClientOrderId)
    requires WellFormed(db) && Lands(db, f, s)
    ensures Unsold(FillRecorded(db, f), c) ==
            Unsold(db, c) - (if f.side == Sell && c == f.order then f.qty else 0.0)
  {
    RecordedAppend(db.fills, f, c);
  }

  lemma RowLands(db: Db, f: Fill, s: Symbol, c: ClientOrderId)
    requires Tidy(db, s) && Lands(db, f, s) && c in db.orders
    ensures SellFits(FillRecorded(db, f), s, c)
  {
    assert SellFits(db, s, c);
    RecordedAppend(db.fills, f, c);
  }

  lemma ExposureLands(db: Db, f: Fill, s: Symbol, but: Option<ClientOrderId>)
    requires Safe(db, s) && Lands(db, f, s)
    ensures ExposureBut(FillRecorded(db, f), but) <=
            ExposureBut(db, but) - (if f.side == Sell && but != Some(f.order) then f.qty else 0.0)
  {
    var db' := FillRecorded(db, f);
    forall c
      ensures Unsold(db', c) <= Unsold(db, c)
    {
      UnsoldLands(db, f, s, c);
    }
    if f.side == Sell && but != Some(f.order) {
      UnsoldLands(db, f, s, f.order);
      assert RowFits(db, f.order);
      ExposureShrinksBy(db, db', db.created, but, f.order, f.qty);
    } else {
      ExposureShrinks(db, db', db.created, but);
    }
  }

  /** A recorded SELL never takes more than is tracked, so it is never flagged as an oversell. */
  lemma WithinTracked(db: Db, f: Fill, s: Symbol)
    requires Safe(db, s) && Lands(db, f, s) && f.side == Sell
    ensures f.qty <= PositionOf(db, s).qty
    ensures AnomaliesOf(PositionOf(db, s), f) == []
  {
    SafeClaims(db, s);
    assert RowFits(db, f.order);
    ClaimWithin(db, db.created, None, f.order);
  }

  lemma StopLands(db: Db, f: Fill, s: Symbol, c: ClientOrderId)
    requires Safe(db, s) && Lands(db, f, s) && c in db.orders
    requires Exposure(FillRecorded(db, f)) <= PositionOf(FillRecorded(db, f), s).qty
    requires Claims(FillRecorded(db, f), db.created)
    ensures StopFits(FillRecorded(db, f), s, c)
  {
    var db' := FillRecorded(db, f);
    assert StopFits(db, s, c);
    UnsoldLands(db, f, s, c);
    assert RowFits(db, c);
    if Unsold(db', c) > 0.0 {
      ClaimWithin(db', db'.created, None, c);
      SafeClaims(db, s);
      ClaimWithin(db, db.created, None, c);
      PositionLands(db, f, s);
    }
  }

  lemma PositionLands(db: Db, f: Fill, s: Symbol)
    requires WellFormed(db) && Lands(db, f, s)
    ensures var p, p' := PositionOf(db, s), PositionOf(FillRecorded(db, f), s);
            && p'.qty >= p.qty - (if f.side == Sell then f.qty else 0.0)
            && (p.qty > 0.0 && p'.qty > 0.0 ==> p'.openedAt == p.openedAt)
  {
    var p := PositionOf(db, s);
    if f.side == Sell {
      SellMovesPosition(p, f);
    } else {
      OtherFillMovesPosition(p, f);
    }
  }

  lemma NetAppend(fills: seq<Fill>, f: Fill, s: Symbol)
    requires f.symbol == s
    ensures SumOf(FillsOf(fills + [f], s), NetQty) == SumOf(FillsOf(fills, s), NetQty) + NetQty(f)
  {
    FillsOfAppend(fills, f, s);
    var fs := FillsOf(fills, s);
    assert (fs + [f])[..|fs + [f]| - 1] == fs;
  }

  lemma UnclippedQty(p: PositionRow, f: Fill)
    requires p.qty >= 0.0 && if f.side == Sell then Delivered(f) <= p.qty else f.side == Buy && Received(f) > 0.0
    ensures Apply(p, f).qty == p.qty + NetQty(f)
  {
    StepQty(p, f);
  }

  /** A quantity that is the sum of its fills stays one. */
  lemma NetStays(db: Db, f: Fill, s: Symbol)
    requires WellFormed(db) && PositionOf(db, s).qty == NetHeld(db, s) && f.symbol == s
    requires if f.side == Sell then Delivered(f) <= PositionOf(db, s).qty else f.side == Buy && Received(f) > 0.0
    ensures PositionOf(FillRecorded(db, f), s).qty == NetHeld(FillRecorded(db, f), s)
  {
    hide Apply, FillsOf, SumOf, RowFits, Indexed, NetQty;
    var p := PositionOf(db, s);
    assert p.qty >= 0.0 && PositionOf(FillRecorded(db, f), s) == Apply(p, f);
    assert FillRecorded(db, f).fills == db.fills + [f];
    hide PositionOf, FillRecorded, WellFormed, Delivered, Received;
    NetAppend(db.fills, f, s);
    UnclippedQty(p, f);
  }

  lemma NetLands(db: Db, f: Fill, s: Symbol)
    requires Safe(db, s) && Lands(db, f, s)
    ensures PositionOf(FillRecorded(db, f), s).qty == NetHeld(FillRecorded(db, f), s)
  {
    if f.side == Sell {
      WithinTracked(db, f, s);
    }
    NetStays(db, f, s);
  }

  lemma FillTidy(db: Db, f: Fill, s: Symbol)
    requires Tidy(db, s) && Lands(db, f, s)
    ensures Tidy(FillRecorded(db, f), s)
  {
    var db' := FillRecorded(db, f);
    forall g | g in db'.fills
      ensures FillFits(db', g)
    {
      assert g in db.fills ==> FillFits(db, g);
    }
    forall c | c in db'.orders
      ensures SellFits(db', s, c)
    {
      RowLands(db, f, s, c);
    }
  }

  lemma DisciplineLands(db: Db, f: Fill, s: Symbol, d: Decision, k: nat)
    requires Safe(db, s) && Lands(db, f, s) && k < 10
    ensures Disciplined(FillRecorded(db, f), d, k)
  {
    assert Disciplined(db, d, k);
    assert forall j | 0 <= j < k :: Spent(FillRecorded(db, f), d, j) == Spent(db, d, j);
  }

  lemma FillKeeps(db: Db, f: Fill, s: Symbol)
    requires Safe(db, s) && Lands(db, f, s)
    ensures Safe(FillRecorded(db, f), s)
  {
    var db' := FillRecorded(db, f);
    assert OneLiveSell(db');
    assert Exposure(db) <= PositionOf(db, s).qty;
    ExposureLands(db, f, s, None);
    PositionLands(db, f, s);
    assert Exposure(db') <= PositionOf(db', s).qty;
    NetLands(db, f, s);
    FillTidy(db, f, s);
    SafeClaims(db', s);
    hide FillRecorded, Tidy, Lands, OneLiveSell, StopFits, Disciplined, NetHeld, Exposure;
    forall c | c in db'.orders
      ensures StopFits(db', s, c)
    {
      StopLands(db, f, s, c);
    }
    forall d, k: nat | k < 10
      ensures Disciplined(db', d, k)
    {
      DisciplineLands(db, f, s, d, k);
    }
  }

  // ------------------------------------------------------------------ every transaction of the other writers

  /** How one transaction of another writer changes what the exposure depends on: orders move, and at most
      one new execution lands. */
  ghost predicate Effect(db: Db, mid: Db, s: Symbol, f: Option<Fill>, db': Db) {
    && Moves(db, mid, s)
    && match f
       case None => mid == db'
       case Some(x) => Lands(mid, x, s) && FillRecorded(mid, x) == db'
  }

  lemma FillEffect(db: Db, xf: ExchangeFill, now: int, s: Symbol) returns (f: Option<Fill>)
    requires Safe(db, s) && HonestFill(db, xf, now)
    ensures f.None? ==> IngestFill(db, xf, now).0 == db
    ensures f.Some? ==> Lands(db, f.value, s) && IngestFill(db, xf, now).0 == FillRecorded(db, f.value)
  {
    f := None;
    var located := Locate(db, xf.clientOrderId, xf.exchangeOrderId);
    if located.Some? {
      LocatedFits(db, xf.clientOrderId, xf.exchangeOrderId);
      assert SellFits(db, s, located.value);
      var x := FillOf(db.orders[located.value], xf, now);
      if !Recorded(db.fills, x) {
        f := Some(x);
      }
    }
  }

  lemma EventEffect(db: Db, ev: StreamEvent, now: int, s: Symbol) returns (mid: Db, f: Option<Fill>)
    requires Safe(db, s) && Honest(db, s, Step(TakeEvent(ev), now))
    ensures Effect(db, mid, s, f, HandleEvent(db, ev, now).0)
  {
    var marked := MarkProcessed(db, ev.eventKey);
    var (db', result) := HandleEvent(db, ev, now);
    NothingMoves(db, marked, s);
    f := None;
    if result.StreamApplied? {
      mid := ApplyReport(marked, ev.report, now).0;
      ReportMoves(marked, ev.report, now, s);
      MovesFrom(db, marked, mid, s);
      if ev.fill.Some? {
        MovesKeep(db, mid, s);
        f := FillEffect(mid, ev.fill.value, now, s);
      }
    } else {
      mid := db';
      NothingMoves(db, db', s);
    }
  }

  lemma MovesFrom(a: Db, b: Db, c: Db, s: Symbol)
    requires Moves(b, c, s) && WellFormed(a)
    requires a.orders == b.orders && a.created == b.created && a.intents == b.intents && a.fills == b.fills
    requires a.positions == b.positions
    ensures Moves(a, c, s)
  {
    forall x | x in a.orders
      ensures RowMoves(a, c, x)
    {
      assert RowMoves(b, c, x);
    }
  }

  lemma OrderStepMoves(db: Db, step: Step, s: Symbol)
    requires WellFormed(db) && Honest(db, s, step) && (step.op.TakeReport? || step.op.Refuse? || step.op.Flag?)
    ensures Moves(db, After(db, step), s)
  {
    match step.op {
      case TakeReport(r) =>
        ReportMoves(db, r, step.now, s);
        MovesOn(db, ApplyReport(db, r, step.now).0, After(db, step), s);
      case Refuse(c, reason) =>
        if c in db.orders {
          RefusalMoves(db, c, reason, step.now, s);
        } else {
          NothingMoves(db, db, s);
        }
      case Flag(c) =>
        if c in db.orders {
          FlagMoves(db, c, s);
        } else {
          NothingMoves(db, db, s);
        }
    }
  }

  lemma {:induction false} SalesOf(fills: seq<Fill>, s: Symbol)
    requires SalesDeliver(fills)
    ensures SalesDeliver(FillsOf(fills, s))
    decreases |fills|
  {
    if fills != [] {
      assert fills[|fills| - 1] in fills && forall g | g in fills[..|fills| - 1] :: g in fills;
      SalesOf(fills[..|fills| - 1], s);
    }
  }

  lemma SafeSales(db: Db, s: Symbol)
    requires Safe(db, s)
    ensures SalesDeliver(FillsOf(db.fills, s))
  {
    forall f | f in db.fills && f.side == Sell
      ensures Delivered(f) >= 0.0
    {
      assert FillFits(db, f);
    }
    SalesOf(db.fills, s);
  }

  /** A rebuild keeps the quantity exactly when nothing is clipped in order of execution, and the opening time
      exactly when it names the execution that opens there. */
  lemma RebuildKeepsExactly(db: Db, s: Symbol)
    requires Safe(db, s)
    ensures var p := PositionOf(PositionRebuilt(db, s), s);
            && (p.qty == PositionOf(db, s).qty <==> ClipAll(EmptyPosition(s), Executed(db, s)) == 0.0)
            && (p.openedAt == PositionOf(db, s).openedAt <==> PositionOf(db, s).openedAt == OpenedAt(s, Executed(db, s)))
  {
    SafeSales(db, s);
    RebuildOpens(db, s);
    ByTimeKeepsFills(FillsOf(db.fills, s));
    SumPermutes(Executed(db, s), FillsOf(db.fills, s), NetQty);
    Conservation(EmptyPosition(s), Executed(db, s));
  }

  lemma RebuildMoves(db: Db, s: Symbol)
    requires Safe(db, s) && ExecutedAsRecorded(db, s)
    ensures Moves(db, PositionRebuilt(db, s), s)
  {
    RebuildKeepsExactly(db, s);
    CleanIsExact(EmptyPosition(s), Executed(db, s));
    NothingMoves(db, PositionRebuilt(db, s), s);
  }

  lemma PositionStepMoves(db: Db, step: Step, s: Symbol)
    requires Safe(db, s) && Honest(db, s, step) && !Renames(db, s, step)
    requires step.op.MarkPosition? || step.op.SetStop? || step.op.RebuildPosition?
    ensures Moves(db, After(db, step), s)
  {
    if step.op.RebuildPosition? && step.op.symbol == s {
      RebuildMoves(db, s);
    } else {
      NothingMoves(db, After(db, step), s);
    }
  }

  lemma StepEffect(db: Db, step: Step, s: Symbol) returns (mid: Db, f: Option<Fill>)
    requires Safe(db, s) && Honest(db, s, step) && !Renames(db, s, step)
    ensures Effect(db, mid, s, f, After(db, step))
  {
    if step.op.TakeFill? {
      NothingMoves(db, db, s);
      mid := db;
      f := FillEffect(db, step.op.fill, step.now, s);
    } else if step.op.TakeEvent? {
      mid, f := EventEffect(db, step.op.event, step.now, s);
    } else if step.op.TakeReport? || step.op.Refuse? || step.op.Flag? {
      OrderStepMoves(db, step, s);
      mid, f := After(db, step), None;
    } else {
      PositionStepMoves(db, step, s);
      mid, f := After(db, step), None;
    }
  }

  /** A position that is the fold of its fills in a clean order, as it is while no sale has taken more than was
      held, is never lowered by a rebuild. */
  lemma RebuildTakesNothingAway(db: Db, s: Symbol, recorded: seq<Fill>)
    requires WellFormed(db) && ExplainedBy(db, s, recorded) && Clean(EmptyPosition(s), recorded)
    ensures PositionOf(PositionRebuilt(db, s), s).qty >= PositionOf(db, s).qty
  {
    var executed := ByTime(FillsOf(db.fills, s));
    ByTimeKeepsFills(FillsOf(db.fills, s));
    SameQuantityExactly(EmptyPosition(s), recorded, executed);
    var marked := EmptyPosition(s).(lastMark := PositionOf(db, s).lastMark);
    CoreAppliesAll(EmptyPosition(s), marked, executed);
    assert CoreOf(ApplyAll(marked, executed)).qty == CoreOf(ApplyAll(EmptyPosition(s), executed)).qty;
  }

  /** A rebuild after which the quantity is the same and the position is named by another opening time. */
  lemma RebuildRenames(db: Db, s: Symbol)
    requires Safe(db, s) && Clean(EmptyPosition(s), Executed(db, s))
    ensures var db1 := PositionRebuilt(db, s);
            && Tidy(db1, s) && OneLiveSell(db1)
            && PositionOf(db1, s).qty == PositionOf(db, s).qty && PositionOf(db1, s).openedAt == OpenedAt(s, Executed(db, s))
            && db1.orders == db.orders && db1.fills == db.fills && db1.intents == db.intents && db1.byExchangeId == db.byExchangeId
  {
    RebuildKeepsExactly(db, s);
    SafeSales(db, s);
    RebuildOpens(db, s);
    CleanIsExact(EmptyPosition(s), Executed(db, s));
    var db1 := PositionRebuilt(db, s);
    forall c | c in db1.orders
      ensures SellFits(db1, s, c)
    {
      assert SellFits(db, s, c);
    }
    forall f | f in db1.fills
      ensures FillFits(db1, f)
    {
      assert FillFits(db, f);
    }
  }

  lemma SpentByOrders(db: Db, db': Db, d: Decision, k: nat)
    requires k <= 10 && db'.orders == db.orders && SpentBelow(db, d, k)
    ensures SpentBelow(db', d, k)
  {
    forall j | 0 <= j < k
      ensures Spent(db', d, j)
    {
      assert Spent(db, d, j);
    }
  }

  /** While no stop is live that may still sell, the position may be renamed. */
  lemma RenameKeeps(db: Db, s: Symbol)
    requires Safe(db, s) && Clean(EmptyPosition(s), Executed(db, s)) && NoStopRests(db)
    ensures Safe(PositionRebuilt(db, s), s)
  {
    RebuildRenames(db, s);
    var db1 := PositionRebuilt(db, s);
    assert db1.created == db.created && NetHeld(db1, s) == NetHeld(db, s);
    hide PositionRebuilt, PositionOf, Clean, OpenedAt, Executed, Tidy, NetHeld;
    forall c
      ensures Unsold(db1, c) == Unsold(db, c)
    {
    }
    ExposureShrinks(db, db1, db.created, None);
    forall c | c in db1.orders
      ensures StopFits(db1, s, c)
    {
    }
    forall d, k: nat | k < 10
      ensures Disciplined(db1, d, k)
    {
      assert Disciplined(db, d, k);
      if IntentId(d, k) in db.intents {
        SpentByOrders(db, db1, d, k);
      }
    }
  }

  /** Reports, executions, stream events, rejections, flags, marks, stops and rebuilds, in any order from any
      process, keep the exposure within the position. */
  lemma LedgerKeepsSafe(db: Db, step: Step, s: Symbol)
    requires Safe(db, s) && Honest(db, s, step)
    ensures Safe(After(db, step), s)
  {
    if Renames(db, s, step) {
      RenameKeeps(db, s);
    } else {
      var mid, f := StepEffect(db, step, s);
      MovesKeep(db, mid, s);
      if f.Some? {
        FillKeeps(mid, f.value, s);
      }
    }
  }
}
