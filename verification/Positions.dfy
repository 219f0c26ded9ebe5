/** Position and P&L accounting (engine/application/position_service.py). */
module PositionModel {
  import opened Common
  import opened OrderModel

  /** One row of the `fills` table; its row id is its place in the table. */
  datatype Fill = Fill(
    order: ClientOrderId, tradeId: string, symbol: Symbol, side: Side,
    qty: real, price: real, quoteQty: real, commission: real, commissionAsset: Option<string>,
    time: int, eventKey: string)

  /** The values of one row of the `positions` table. */
  datatype PositionRow = PositionRow(
    symbol: Symbol, qty: real, average: real, realized: real, unrealized: real,
    lastMark: Option<real>, stop: Option<real>, feesOther: map<string, real>, openedAt: Option<int>)

  datatype Anomaly = BuyNonPositive | SellExceedsPosition | UnknownSide(name: string)

  const TOLERANCE: real := 0.000000000001

  function EmptyPosition(symbol: Symbol): PositionRow {
    PositionRow(symbol, 0.0, 0.0, 0.0, 0.0, None, None, map[], None)
  }

  // ------------------------------------------------------------------ what one fill moves

  function Gross(f: Fill): real {
    if f.quoteQty > 0.0 then f.quoteQty else f.qty * f.price
  }

  function FeeIn(f: Fill, asset: string): real {
    if f.commissionAsset == Some(asset) then f.commission else 0.0
  }

  function Received(f: Fill): real { f.qty - FeeIn(f, f.symbol.base) }
  function Cost(f: Fill): real { Gross(f) + FeeIn(f, f.symbol.quote) }
  function Delivered(f: Fill): real { f.qty + FeeIn(f, f.symbol.base) }
  function Proceeds(f: Fill): real { Gross(f) - FeeIn(f, f.symbol.quote) }

  /** A commission in a third asset is only tallied. */
  predicate PaysOther(f: Fill) {
    f.commission > 0.0 && f.commissionAsset.Some? && f.commissionAsset.value !in {f.symbol.base, f.symbol.quote}
  }

  function TallyFee(fees: map<string, real>, f: Fill): map<string, real> {
    if !PaysOther(f) then fees
    else
      var a := f.commissionAsset.value;
      fees[a := (if a in fees then fees[a] else 0.0) + f.commission]
  }

  predicate Oversells(p: PositionRow, f: Fill) {
    f.side == Sell && Delivered(f) > p.qty + TOLERANCE
  }

  function AnomaliesOf(p: PositionRow, f: Fill): seq<Anomaly> {
    match f.side
    case Buy => if Received(f) <= 0.0 then [BuyNonPositive] else []
    case Sell => if Oversells(p, f) then [SellExceedsPosition] else []
    case OtherSide(name) => [UnknownSide(name)]
  }

  function RealizedBy(p: PositionRow, f: Fill): real {
    if f.side != Sell then 0.0
    else Proceeds(f) - p.average * (if Oversells(p, f) then p.qty else Delivered(f))
  }

  function Bought(p: PositionRow, f: Fill): PositionRow
    requires p.qty + Received(f) != 0.0
  {
    var qty := p.qty + Received(f);
    p.(qty := qty, average := (p.qty * p.average + Cost(f)) / qty,
       openedAt := if p.qty <= 0.0 then Some(f.time) else p.openedAt)
  }

  function Sold(p: PositionRow, f: Fill): PositionRow {
    var qty := Max(0.0, p.qty - Delivered(f));
    var p' := p.(qty := qty, realized := p.realized + RealizedBy(p, f));
    if qty == 0.0 then p'.(average := 0.0, stop := None, openedAt := None) else p'
  }

  function Marked(p: PositionRow, price: real): PositionRow {
    p.(lastMark := Some(price), unrealized := if p.qty > 0.0 then (price - p.average) * p.qty else 0.0)
  }

  function Remarked(p: PositionRow): PositionRow {
    if p.lastMark.Some? then Marked(p, p.lastMark.value) else p
  }

  function Apply(p: PositionRow, f: Fill): (p': PositionRow)
    requires p.qty >= 0.0
    ensures p'.qty >= 0.0
    ensures p'.symbol == p.symbol && p'.lastMark == p.lastMark
  {
    var p1 := p.(feesOther := TallyFee(p.feesOther, f));
    match f.side
    case Buy => if Received(f) <= 0.0 then p1 else Remarked(Bought(p1, f))
    case Sell => Remarked(Sold(p1, f))
    case OtherSide(_) => Remarked(p1)
  }

  function ApplyAll(p: PositionRow, fs: seq<Fill>): (p': PositionRow)
    requires p.qty >= 0.0
    ensures p'.qty >= 0.0
    ensures p'.symbol == p.symbol && p'.lastMark == p.lastMark
    decreases |fs|
  {
    if fs == [] then p else Apply(ApplyAll(p, fs[..|fs| - 1]), fs[|fs| - 1])
  }

  function AnomaliesAll(p: PositionRow, fs: seq<Fill>): seq<Anomaly>
    requires p.qty >= 0.0
    decreases |fs|
  {
    if fs == [] then []
    else var rest := fs[..|fs| - 1]; AnomaliesAll(p, rest) + AnomaliesOf(ApplyAll(p, rest), fs[|fs| - 1])
  }

  // ------------------------------------------------------------------ the entity, updated in place

  class Position {
    const symbol: Symbol
    var qty: real
    var average: real
    var realized: real
    var unrealized: real
    var lastMark: Option<real>
    var stop: Option<real>
    var feesOther: map<string, real>
    var openedAt: Option<int>

    function Row(): PositionRow
      reads this
    {
      PositionRow(symbol, qty, average, realized, unrealized, lastMark, stop, feesOther, openedAt)
    }

    constructor FromRow(r: PositionRow)
      ensures Row() == r
    {
      symbol, qty, average, realized, unrealized := r.symbol, r.qty, r.average, r.realized, r.unrealized;
      lastMark, stop, feesOther, openedAt := r.lastMark, r.stop, r.feesOther, r.openedAt;
    }

    method Mark(price: real)
      modifies this`lastMark, this`unrealized
      ensures Row() == Marked(old(Row()), price)
    {
      lastMark := Some(price);
      unrealized := if qty > 0.0 then (price - average) * qty else 0.0;
    }

    method ApplyFill(f: Fill) returns (realizedDelta: real, anomalies: seq<Anomaly>)
      requires qty >= 0.0
      modifies this
      ensures Row() == Apply(old(Row()), f)
      ensures anomalies == AnomaliesOf(old(Row()), f)
      ensures realizedDelta == RealizedBy(old(Row()), f)
    {
      realizedDelta, anomalies := 0.0, [];
      TallyCommission(f);
      if f.side == Buy {
        if Received(f) <= 0.0 {
          anomalies := [BuyNonPositive];
          return;
        }
        ApplyBuy(f);
      } else if f.side == Sell {
        realizedDelta, anomalies := ApplySell(f);
      } else {
        anomalies := [UnknownSide(f.side.name)];
      }
      if lastMark.Some? {
        Mark(lastMark.value);
      }
    }

    method TallyCommission(f: Fill)
      modifies this`feesOther
      ensures feesOther == TallyFee(old(feesOther), f)
    {
      var fee, asset := f.commission, f.commissionAsset;
      if fee > 0.0 && asset.Some? && asset.value !in {f.symbol.base, f.symbol.quote} {
        var tally := if asset.value in feesOther then feesOther[asset.value] else 0.0;
        feesOther := feesOther[asset.value := tally + fee];
      }
    }

    method ApplyBuy(f: Fill)
      requires qty >= 0.0 && Received(f) > 0.0
      modifies this`qty, this`average, this`openedAt
      ensures Row() == Bought(old(Row()), f)
    {
      var newQty := qty + Received(f);
      average := (qty * average + Cost(f)) / newQty;
      if qty <= 0.0 {
        openedAt := Some(f.time);
      }
      qty := newQty;
    }

    method ApplySell(f: Fill) returns (realizedDelta: real, anomalies: seq<Anomaly>)
      requires f.side == Sell
      modifies this`qty, this`average, this`realized, this`stop, this`openedAt
      ensures Row() == Sold(old(Row()), f)
      ensures anomalies == AnomaliesOf(old(Row()), f)
      ensures realizedDelta == RealizedBy(old(Row()), f)
    {
      anomalies := [];
      var delivered, deliveredForCost := Delivered(f), Delivered(f);
      if delivered > qty + TOLERANCE {
        anomalies := [SellExceedsPosition];
        deliveredForCost := qty;
      }
      realizedDelta := Proceeds(f) - average * deliveredForCost;
      realized := realized + realizedDelta;
      qty := Max(0.0, qty - delivered);
      if qty == 0.0 {
        average, stop, openedAt := 0.0, None, None;
      }
    }
  }

  /** The position derived from scratch: the last mark survives, the stop only while something is held. */
  function Rebuilt(existing: PositionRow, fs: seq<Fill>): (p: PositionRow)
    ensures p.qty >= 0.0
  {
    var p := ApplyAll(EmptyPosition(existing.symbol).(lastMark := existing.lastMark), fs);
    if p.qty > 0.0 then p.(stop := existing.stop) else p
  }

  function RebuildAnomalies(existing: PositionRow, fs: seq<Fill>): seq<Anomaly> {
    AnomaliesAll(EmptyPosition(existing.symbol).(lastMark := existing.lastMark), fs)
  }

  method Rebuild(existing: PositionRow, fs: seq<Fill>) returns (row: PositionRow, anomalies: seq<Anomaly>)
    ensures row == Rebuilt(existing, fs)
    ensures anomalies == RebuildAnomalies(existing, fs)
  {
    ghost var start := EmptyPosition(existing.symbol).(lastMark := existing.lastMark);
    var p := new Position.FromRow(EmptyPosition(existing.symbol).(lastMark := existing.lastMark));
    anomalies := [];
    for i := 0 to |fs|
      invariant p.Row() == ApplyAll(start, fs[..i])
      invariant anomalies == AnomaliesAll(start, fs[..i])
    {
      assert fs[..i + 1][..i] == fs[..i];
      var _, found := p.ApplyFill(fs[i]);
      anomalies := anomalies + found;
    }
    assert fs[..|fs|] == fs;
    if p.qty > 0.0 {
      p.stop := existing.stop;
    }
    row := p.Row();
  }

  // ------------------------------------------------------------------ paper cash

  /** What a fill adds to the quote balance; anything that is not a SELL is paid for. */
  function CashFlow(f: Fill): real {
    if f.side == Sell then Proceeds(f) else -Cost(f)
  }

  function SumOf(fs: seq<Fill>, g: Fill -> real): real
    decreases |fs|
  {
    if fs == [] then 0.0 else SumOf(fs[..|fs| - 1], g) + g(fs[|fs| - 1])
  }

  method PaperCash(start: real, fs: seq<Fill>) returns (cash: real)
    ensures cash == start + SumOf(fs, CashFlow)
  {
    cash := start;
    for i := 0 to |fs|
      invariant cash == start + SumOf(fs[..i], CashFlow)
    {
      assert fs[..i + 1][..i] == fs[..i];
      var f := fs[i];
      var gross := if f.quoteQty > 0.0 then f.quoteQty else f.qty * f.price;
      var fee := if f.commissionAsset == Some(f.symbol.quote) then f.commission else 0.0;
      cash := cash + (if f.side == Sell then gross - fee else -(gross + fee));
    }
    assert fs[..|fs|] == fs;
  }

  function Equity(quoteTotal: real, p: PositionRow, mark: real): real {
    quoteTotal + p.qty * mark
  }
}
