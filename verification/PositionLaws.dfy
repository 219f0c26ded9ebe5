/** What the position does and does not remember of the order in which fills arrive, and how it
    relates to the paper cash balance (engine/application/position_service.py). */
module PositionLaws {
  import opened Common
  import opened OrderModel
  import opened PositionModel

  // ------------------------------------------------------------------ one fill

  /** Realized P&L less the book value of what is still held. */
  function Basis(p: PositionRow): real {
    p.realized - p.qty * p.average
  }

  function NetQty(f: Fill): real {
    match f.side
    case Buy => Received(f)
    case Sell => -Delivered(f)
    case OtherSide(_) => 0.0
  }

  /** Base quantity the tracked position refuses to lose, because it never goes below zero and
      ignores a BUY that receives nothing. */
  function Clip(p: PositionRow, f: Fill): real {
    match f.side
    case Buy => if Received(f) <= 0.0 then -Received(f) else 0.0
    case Sell => if Delivered(f) > p.qty then Delivered(f) - p.qty else 0.0
    case OtherSide(_) => 0.0
  }

  /** Money the P&L misses: a sale inside the tolerance band is charged for more than was held, and
      an ignored fill is still paid for. */
  function Gap(p: PositionRow, f: Fill): real {
    match f.side
    case Buy => if Received(f) <= 0.0 then Cost(f) else 0.0
    case Sell => if InBand(p, f) then -(p.average * (Delivered(f) - p.qty)) else 0.0
    case OtherSide(_) => Cost(f)
  }

  lemma MulDiv(x: real, n: real)
    requires n != 0.0
    ensures n * (x / n) == x
  {
  }

  lemma QuotientIs(x: real, n: real, q: real)
    requires n != 0.0 && n * q == x
    ensures x / n == q
  {
    assert n * (x / n) == x;
    assert n * (x / n - q) == 0.0;
  }

  lemma Distribute(q: real, d: real, a: real)
    ensures (q - d) * a == q * a - a * d
  {
  }

  /** The basis that is left when d of q units held at average a are gone. */
  lemma BasisLeft(q: real, a: real, d: real, q': real, a': real)
    requires q' == Max(0.0, q - d) && a' == if q' == 0.0 then 0.0 else a
    ensures q' * a' == if d <= q then q * a - a * d else 0.0
  {
    if q' == 0.0 {
      assert q' * a' == 0.0;
      if d <= q {
        assert q == d;
        Distribute(q, d, a);
      }
    } else {
      Distribute(q, d, a);
    }
  }

  /** Selling d of q units held at average a, when `charged` units are expensed. */
  lemma SellBasis(q: real, a: real, d: real, charged: real, realized: real, proceeds: real, q': real, a': real)
    requires q' == Max(0.0, q - d) && a' == if q' == 0.0 then 0.0 else a
    ensures realized + (proceeds - a * charged) - q' * a'
         == realized - q * a + proceeds + (if d <= q then a * d else q * a) - a * charged
  {
    BasisLeft(q, a, d, q', a');
  }

  lemma StepQty(p: PositionRow, f: Fill)
    requires p.qty >= 0.0
    ensures Apply(p, f).qty == p.qty + NetQty(f) + Clip(p, f)
  {
  }

  lemma BuyAverages(p: PositionRow, f: Fill)
    requires p.qty >= 0.0 && f.side == Buy && Received(f) > 0.0
    ensures var p' := Apply(p, f);
            && p'.qty == p.qty + Received(f) && p'.realized == p.realized
            && p'.average == (p.qty * p.average + Cost(f)) / (p.qty + Received(f))
  {
  }

  lemma StepBasisBuy(p: PositionRow, f: Fill)
    requires p.qty >= 0.0 && f.side == Buy
    ensures Basis(Apply(p, f)) == Basis(p) + CashFlow(f) + Gap(p, f)
  {
    if Received(f) > 0.0 {
      BuyAverages(p, f);
      MulDiv(p.qty * p.average + Cost(f), p.qty + Received(f));
      hide Apply, Received, Cost;
    }
  }

  lemma StepBasisSell(p: PositionRow, f: Fill)
    requires p.qty >= 0.0 && f.side == Sell
    ensures Basis(Apply(p, f)) == Basis(p) + CashFlow(f) + Gap(p, f)
  {
    var p' := Apply(p, f);
    var charged := if Oversells(p, f) then p.qty else Delivered(f);
    SellBasis(p.qty, p.average, Delivered(f), charged, p.realized, Proceeds(f), p'.qty, p'.average);
    if p.qty < Delivered(f) <= p.qty + TOLERANCE {
      assert p.average * (Delivered(f) - p.qty) == p.average * Delivered(f) - p.qty * p.average;
    }
  }

  lemma StepBasis(p: PositionRow, f: Fill)
    requires p.qty >= 0.0
    ensures Basis(Apply(p, f)) == Basis(p) + CashFlow(f) + Gap(p, f)
  {
    match f.side {
      case Buy => StepBasisBuy(p, f);
      case Sell => StepBasisSell(p, f);
      case OtherSide(_) =>
    }
  }

  function ClipAll(p: PositionRow, fs: seq<Fill>): (c: real)
    requires p.qty >= 0.0
    ensures c >= 0.0
    decreases |fs|
  {
    if fs == [] then 0.0
    else var rest, f := fs[..|fs| - 1], fs[|fs| - 1]; ClipAll(p, rest) + Clip(ApplyAll(p, rest), f)
  }

  function GapAll(p: PositionRow, fs: seq<Fill>): real
    requires p.qty >= 0.0
    decreases |fs|
  {
    if fs == [] then 0.0
    else var rest, f := fs[..|fs| - 1], fs[|fs| - 1]; GapAll(p, rest) + Gap(ApplyAll(p, rest), f)
  }

  // ------------------------------------------------------------------ all fills

  /** Tracked quantity and basis, for every history whatever: net traffic, plus what was clipped
      or missed. */
  lemma {:induction false} Conservation(p: PositionRow, fs: seq<Fill>)
    requires p.qty >= 0.0
    ensures ApplyAll(p, fs).qty == p.qty + SumOf(fs, NetQty) + ClipAll(p, fs)
    ensures Basis(ApplyAll(p, fs)) == Basis(p) + SumOf(fs, CashFlow) + GapAll(p, fs)
    decreases |fs|
  {
    if fs != [] {
      var rest, f := fs[..|fs| - 1], fs[|fs| - 1];
      Conservation(p, rest);
      StepQty(ApplyAll(p, rest), f);
      StepBasis(ApplyAll(p, rest), f);
    }
  }

  /** Realized P&L and unrealized P&L at a mark. */
  function ProfitAt(p: PositionRow, mark: real): real {
    p.realized + (mark - p.average) * p.qty
  }

  lemma ProfitIsBasis(p: PositionRow, mark: real)
    ensures ProfitAt(p, mark) == Basis(p) + p.qty * mark
  {
    assert (mark - p.average) * p.qty == mark * p.qty - p.average * p.qty;
  }

  lemma EquityOf(start: real, flow: real, gap: real, p: PositionRow, mark: real)
    requires Basis(p) == flow + gap
    ensures Equity(start + flow, p, mark) == start + ProfitAt(p, mark) - gap
  {
    ProfitIsBasis(p, mark);
  }

  /** Paper cash plus marked holdings is the starting balance plus all P&L, up to the missed money. */
  lemma EquityIdentity(start: real, symbol: Symbol, fs: seq<Fill>, mark: real)
    ensures var p := ApplyAll(EmptyPosition(symbol), fs);
            var cash := start + SumOf(fs, CashFlow);
            && Equity(cash, p, mark) == start + ProfitAt(p, mark) - GapAll(EmptyPosition(symbol), fs)
            && (Equity(cash, p, mark) == start + ProfitAt(p, mark) <==> GapAll(EmptyPosition(symbol), fs) == 0.0)
  {
    var empty := EmptyPosition(symbol);
    assert Basis(empty) == 0.0;
    hide Basis, Equity, ProfitAt, CashFlow;
    Conservation(empty, fs);
    EquityOf(start, SumOf(fs, CashFlow), GapAll(empty, fs), ApplyAll(empty, fs), mark);
  }

  /** Every fill but a BUY of nothing or a fill of no known side, at prices that are not negative. */
  ghost predicate Ordinary(f: Fill) {
    && f.side in {Buy, Sell}
    && (f.side == Buy ==> Received(f) > 0.0 && Cost(f) >= 0.0)
  }

  predicate InBand(p: PositionRow, f: Fill) {
    f.side == Sell && p.qty < Delivered(f) <= p.qty + TOLERANCE
  }

  /** `unit` for every sale inside the tolerance band. */
  function BandAllowance(p: PositionRow, fs: seq<Fill>, unit: real): real
    requires p.qty >= 0.0
    decreases |fs|
  {
    if fs == [] then 0.0
    else
      var rest, f := fs[..|fs| - 1], fs[|fs| - 1];
      BandAllowance(p, rest, unit) + (if InBand(ApplyAll(p, rest), f) then unit else 0.0)
  }

  lemma BuyAverage(p: PositionRow, f: Fill)
    requires p.qty >= 0.0 && f.side == Buy && Received(f) > 0.0
    ensures (p.qty + Received(f)) * Apply(p, f).average == p.qty * p.average + Cost(f)
  {
    MulDiv(p.qty * p.average + Cost(f), p.qty + Received(f));
  }

  lemma AverageStaysInRange(p: PositionRow, f: Fill, ceiling: real)
    requires p.qty >= 0.0 && 0.0 <= p.average <= ceiling && Ordinary(f)
    requires f.side == Buy ==> Cost(f) <= ceiling * Received(f)
    ensures 0.0 <= Apply(p, f).average <= ceiling
  {
    if f.side == Buy {
      BuyAverage(p, f);
      WeightedAverage(p.qty, p.average, Received(f), Cost(f), ceiling, Apply(p, f).average);
    }
  }

  lemma WeightedAverage(qty: real, average: real, received: real, cost: real, ceiling: real, mean: real)
    requires qty >= 0.0 && received > 0.0 && 0.0 <= average <= ceiling && 0.0 <= cost <= ceiling * received
    requires (qty + received) * mean == qty * average + cost
    ensures 0.0 <= mean <= ceiling
  {
    var n := qty + received;
    var held, all := qty * average, qty * ceiling;
    ScaleOrder(0.0, average, qty);
    ScaleOrder(average, ceiling, qty);
    assert 0.0 <= held <= all;
    assert n * ceiling == all + ceiling * received;
    assert 0.0 <= n * mean <= n * ceiling;
    MulOrder(mean, ceiling, n);
    MulOrder(0.0, mean, n);
  }

  lemma ScaleOrder(x: real, y: real, n: real)
    requires n >= 0.0 && x <= y
    ensures n * x <= n * y
  {
    assert n * (y - x) >= 0.0;
    assert n * (y - x) == n * y - n * x;
  }

  lemma MulOrder(x: real, y: real, n: real)
    requires n > 0.0
    ensures n * x <= n * y <==> x <= y
  {
    if x < y {
      assert n * (y - x) > 0.0;
    } else {
      assert n * (x - y) >= 0.0;
    }
  }

  lemma BandGapBound(average: real, excess: real, ceiling: real)
    requires 0.0 <= average <= ceiling && 0.0 <= excess <= TOLERANCE
    ensures 0.0 <= average * excess <= ceiling * TOLERANCE
  {
    ScaleOrder(0.0, average, excess);
    ScaleOrder(average, ceiling, excess);
    ScaleOrder(excess, TOLERANCE, ceiling);
  }

  lemma StepErrorBound(q: PositionRow, f: Fill, ceiling: real, unit: real)
    requires q.qty >= 0.0 && 0.0 <= q.average <= ceiling && Ordinary(f) && unit == ceiling * TOLERANCE
    ensures 0.0 <= -Gap(q, f) <= if InBand(q, f) then unit else 0.0
  {
    if InBand(q, f) {
      BandGapBound(q.average, Delivered(f) - q.qty, ceiling);
    }
  }

  ghost predicate Priced(fs: seq<Fill>, ceiling: real) {
    forall f | f in fs :: Ordinary(f) && (f.side == Buy ==> Cost(f) <= ceiling * Received(f))
  }

  lemma {:induction false} AverageInRange(p: PositionRow, fs: seq<Fill>, ceiling: real)
    requires p.qty >= 0.0 && 0.0 <= p.average <= ceiling && Priced(fs, ceiling)
    ensures 0.0 <= ApplyAll(p, fs).average <= ceiling
    decreases |fs|
  {
    hide Apply, Ordinary, Cost, Received;
    if fs != [] {
      var rest, f := fs[..|fs| - 1], fs[|fs| - 1];
      assert f in fs && forall g | g in rest :: g in fs;
      AverageInRange(p, rest, ceiling);
      AverageStaysInRange(ApplyAll(p, rest), f, ceiling);
    }
  }

  /** With unit costs up to `ceiling`, equity is overstated against P&L by at most ceiling * 1e-12 for
      each sale inside the tolerance band; flagged oversells cost nothing. */
  lemma {:induction false} EquityErrorBound(p: PositionRow, fs: seq<Fill>, ceiling: real, unit: real)
    requires p.qty >= 0.0 && 0.0 <= p.average <= ceiling && Priced(fs, ceiling) && unit == ceiling * TOLERANCE
    ensures 0.0 <= -GapAll(p, fs) <= BandAllowance(p, fs, unit)
    decreases |fs|
  {
    if fs != [] {
      var rest, f := fs[..|fs| - 1], fs[|fs| - 1];
      assert f in fs && forall g | g in rest :: g in fs;
      EquityErrorBound(p, rest, ceiling, unit);
      AverageInRange(p, rest, ceiling);
      StepErrorBound(ApplyAll(p, rest), f, ceiling, unit);
    }
  }

  // ------------------------------------------------------------------ exactly when the two views of equity agree

  /** A BUY that receives something for money, or a SELL that delivers no less than nothing. */
  ghost predicate Traded(f: Fill) {
    Ordinary(f) && (f.side == Buy ==> Cost(f) > 0.0) && (f.side == Sell ==> Delivered(f) >= 0.0)
  }

  /** What is held has cost something, and what is not held costs nothing. */
  ghost predicate Costed(p: PositionRow) {
    p.qty >= 0.0 && (if p.qty > 0.0 then p.average > 0.0 else p.average == 0.0)
  }

  lemma PositiveMean(n: real, mean: real, sum: real)
    requires n > 0.0 && n * mean == sum && sum > 0.0
    ensures mean > 0.0
  {
    MulOrder(mean, 0.0, n);
  }

  lemma StaysCosted(p: PositionRow, f: Fill)
    requires Costed(p) && Traded(f)
    ensures Costed(Apply(p, f))
  {
    if f.side == Buy {
      BuyAverages(p, f);
      BuyAverage(p, f);
      ScaleOrder(0.0, p.average, p.qty);
      hide Apply, Received, Cost;
      PositiveMean(p.qty + Received(f), Apply(p, f).average, p.qty * p.average + Cost(f));
    }
  }

  /** A sale of what is held, charged for more than is held. */
  predicate BandSale(p: PositionRow, f: Fill) {
    p.qty > 0.0 && InBand(p, f)
  }

  lemma GapOfStep(p: PositionRow, f: Fill)
    requires Costed(p) && Traded(f)
    ensures Gap(p, f) <= 0.0 && (Gap(p, f) < 0.0 <==> BandSale(p, f))
  {
    if InBand(p, f) {
      MulOrder(p.average, 0.0, Delivered(f) - p.qty);
    }
  }

  /** The fill at k is such a sale when its turn comes. */
  predicate BandSaleAt(p: PositionRow, fs: seq<Fill>, k: nat)
    requires p.qty >= 0.0 && k < |fs|
  {
    BandSale(ApplyAll(p, fs[..k]), fs[k])
  }

  ghost predicate NoBandSale(p: PositionRow, fs: seq<Fill>)
    requires p.qty >= 0.0
  {
    forall k | 0 <= k < |fs| :: !BandSaleAt(p, fs, k)
  }

  lemma SameBandSale(p: PositionRow, fs: seq<Fill>, k: nat)
    requires p.qty >= 0.0 && k < |fs| - 1
    ensures BandSaleAt(p, fs[..|fs| - 1], k) == BandSaleAt(p, fs, k)
  {
    assert fs[..|fs| - 1][..k] == fs[..k];
  }

  lemma NoBandSaleBefore(p: PositionRow, fs: seq<Fill>)
    requires p.qty >= 0.0 && fs != []
    ensures NoBandSale(p, fs) <==> NoBandSale(p, fs[..|fs| - 1]) && !BandSaleAt(p, fs, |fs| - 1)
  {
    hide BandSaleAt;
    var rest := fs[..|fs| - 1];
    forall k: nat | k < |rest|
      ensures BandSaleAt(p, rest, k) == BandSaleAt(p, fs, k)
    {
      SameBandSale(p, fs, k);
    }
  }

  lemma {:induction false} MissedExactly(p: PositionRow, fs: seq<Fill>)
    requires Costed(p) && forall f | f in fs :: Traded(f)
    ensures Costed(ApplyAll(p, fs))
    ensures GapAll(p, fs) <= 0.0 && (GapAll(p, fs) == 0.0 <==> NoBandSale(p, fs))
    decreases |fs|
  {
    if fs != [] {
      var rest, f := fs[..|fs| - 1], fs[|fs| - 1];
      assert f in fs && forall g | g in rest :: g in fs;
      MissedExactly(p, rest);
      NoBandSaleBefore(p, fs);
      hide Apply, Gap, Traded, Costed, BandSale;
      StaysCosted(ApplyAll(p, rest), f);
      GapOfStep(ApplyAll(p, rest), f);
    }
  }

  /** Paper cash plus marked holdings is the starting balance plus all P&L exactly when no sale, from a position that
      held something, took more than was held and less than the tolerance beyond it. Flagged oversells do not matter,
      nor does a sale from nothing. */
  lemma EquityAgreesExactly(start: real, symbol: Symbol, fs: seq<Fill>, mark: real)
    requires forall f | f in fs :: Traded(f)
    ensures var p := ApplyAll(EmptyPosition(symbol), fs);
            Equity(start + SumOf(fs, CashFlow), p, mark) == start + ProfitAt(p, mark)
            <==> forall k | 0 <= k < |fs| :: !BandSaleAt(EmptyPosition(symbol), fs, k)
  {
    EquityIdentity(start, symbol, fs, mark);
    MissedExactly(EmptyPosition(symbol), fs);
  }

  // ------------------------------------------------------------------ order of arrival

  /** A history in which no fill is clipped or ignored. */
  ghost predicate Clean(p: PositionRow, fs: seq<Fill>)
    requires p.qty >= 0.0
    decreases |fs|
  {
    fs != [] ==>
      var rest, f := fs[..|fs| - 1], fs[|fs| - 1];
      && Clean(p, rest)
      && f.side in {Buy, Sell}
      && (f.side == Buy ==> Received(f) > 0.0)
      && (f.side == Sell ==> Delivered(f) <= ApplyAll(p, rest).qty)
  }

  lemma {:induction false} CleanIsExact(p: PositionRow, fs: seq<Fill>)
    requires p.qty >= 0.0 && Clean(p, fs)
    ensures ClipAll(p, fs) == 0.0 && GapAll(p, fs) == 0.0
    ensures AnomaliesAll(p, fs) == []
    decreases |fs|
  {
    if fs != [] {
      CleanIsExact(p, fs[..|fs| - 1]);
    }
  }

  lemma {:induction false} NoClipIsClean(p: PositionRow, fs: seq<Fill>)
    requires p.qty >= 0.0 && ClipAll(p, fs) == 0.0
    requires forall f | f in fs :: f.side in {Buy, Sell} && (f.side == Buy ==> Received(f) > 0.0)
    ensures Clean(p, fs)
    decreases |fs|
  {
    if fs != [] {
      var rest := fs[..|fs| - 1];
      assert fs[|fs| - 1] in fs && forall g | g in rest :: g in fs;
      assert Clip(ApplyAll(p, rest), fs[|fs| - 1]) >= 0.0;
      NoClipIsClean(p, rest);
    }
  }

  lemma {:induction false} CleanFills(p: PositionRow, fs: seq<Fill>)
    requires p.qty >= 0.0 && Clean(p, fs)
    ensures forall f | f in fs :: f.side in {Buy, Sell} && (f.side == Buy ==> Received(f) > 0.0)
    decreases |fs|
  {
    if fs != [] {
      CleanFills(p, fs[..|fs| - 1]);
      assert fs == fs[..|fs| - 1] + [fs[|fs| - 1]];
    }
  }

  lemma {:induction false} SumRemove(fs: seq<Fill>, j: nat, g: Fill -> real)
    requires j < |fs|
    ensures SumOf(fs, g) == SumOf(fs[..j] + fs[j + 1..], g) + g(fs[j])
    decreases |fs|
  {
    var n := |fs| - 1;
    var without := fs[..j] + fs[j + 1..];
    if j == n {
      assert without == fs[..n];
    } else {
      SumRemove(fs[..n], j, g);
      assert without[..|without| - 1] == fs[..n][..j] + fs[..n][j + 1..];
      assert without[|without| - 1] == fs[n];
    }
  }

  lemma Without(gs: seq<Fill>, j: nat)
    requires j < |gs|
    ensures multiset(gs) == multiset(gs[..j] + gs[j + 1..]) + multiset{gs[j]}
  {
    assert gs == gs[..j] + ([gs[j]] + gs[j + 1..]);
  }

  /** Taking the last fill of one order out of the other order leaves permutations. */
  lemma MatchLast(fs: seq<Fill>, gs: seq<Fill>) returns (j: nat)
    requires multiset(fs) == multiset(gs) && fs != []
    ensures j < |gs| && gs[j] == fs[|fs| - 1]
    ensures multiset(fs[..|fs| - 1]) == multiset(gs[..j] + gs[j + 1..])
  {
    var x := fs[|fs| - 1];
    assert x in multiset(gs);
    j :| 0 <= j < |gs| && gs[j] == x;
    Without(fs, |fs| - 1);
    Without(gs, j);
    assert fs[..|fs| - 1] + fs[|fs|..] == fs[..|fs| - 1];
    assert multiset(fs[..|fs| - 1]) == multiset(fs) - multiset{x};
    assert multiset(gs[..j] + gs[j + 1..]) == multiset(gs) - multiset{x};
  }

  lemma {:induction false} SumPermutes(fs: seq<Fill>, gs: seq<Fill>, g: Fill -> real)
    requires multiset(fs) == multiset(gs)
    ensures SumOf(fs, g) == SumOf(gs, g)
    decreases |fs|
  {
    assert |fs| == |multiset(fs)| == |multiset(gs)| == |gs|;
    if fs != [] {
      var j := MatchLast(fs, gs);
      SumRemove(gs, j, g);
      SumPermutes(fs[..|fs| - 1], gs[..j] + gs[j + 1..], g);
    }
  }

  // Commissions in other assets.

  function Tally(fees: map<string, real>, asset: string): real {
    if asset in fees then fees[asset] else 0.0
  }

  function OtherFee(asset: string): Fill -> real {
    (f: Fill) => if PaysOther(f) && f.commissionAsset == Some(asset) then f.commission else 0.0
  }

  ghost predicate PaidIn(fs: seq<Fill>, asset: string) {
    exists f | f in fs :: PaysOther(f) && f.commissionAsset == Some(asset)
  }

  lemma FeesOfApply(p: PositionRow, f: Fill)
    requires p.qty >= 0.0
    ensures Apply(p, f).feesOther == TallyFee(p.feesOther, f)
  {
  }

  lemma PaidInOneMore(fs: seq<Fill>, f: Fill, asset: string)
    ensures PaidIn(fs + [f], asset) <==> PaidIn(fs, asset) || (PaysOther(f) && f.commissionAsset == Some(asset))
  {
    assert forall g :: g in fs + [f] <==> g in fs || g == f;
  }

  lemma NothingPaidIn(asset: string)
    ensures !PaidIn([], asset)
  {
  }

  lemma {:induction false} FeesAre(p: PositionRow, fs: seq<Fill>, asset: string)
    requires p.qty >= 0.0
    ensures asset in ApplyAll(p, fs).feesOther <==> asset in p.feesOther || PaidIn(fs, asset)
    ensures Tally(ApplyAll(p, fs).feesOther, asset) == Tally(p.feesOther, asset) + SumOf(fs, OtherFee(asset))
    decreases |fs|
  {
    hide Apply, PaidIn;
    if fs == [] {
      assert !PaidIn(fs, asset) by {
        NothingPaidIn(asset);
      }
    } else {
      var rest, f := fs[..|fs| - 1], fs[|fs| - 1];
      FeesAre(p, rest, asset);
      assert fs == rest + [f];
      FeesOfApply(ApplyAll(p, rest), f);
      PaidInOneMore(rest, f, asset);
    }
  }

  lemma FeesPermute(p: PositionRow, fs: seq<Fill>, gs: seq<Fill>)
    requires p.qty >= 0.0 && multiset(fs) == multiset(gs)
    ensures ApplyAll(p, fs).feesOther == ApplyAll(p, gs).feesOther
  {
    var a, b := ApplyAll(p, fs).feesOther, ApplyAll(p, gs).feesOther;
    forall asset: string
      ensures asset in a <==> asset in b
      ensures asset in a ==> a[asset] == b[asset]
    {
      FeesAre(p, fs, asset);
      FeesAre(p, gs, asset);
      SumPermutes(fs, gs, OtherFee(asset));
      assert PaidIn(fs, asset) <==> PaidIn(gs, asset) by {
        assert forall f :: f in fs <==> f in multiset(fs);
        assert forall f :: f in gs <==> f in multiset(gs);
      }
      assert Tally(a, asset) == Tally(b, asset);
    }
  }

  lemma SameBook(p: PositionRow, fs: seq<Fill>, gs: seq<Fill>)
    requires p.qty >= 0.0 && multiset(fs) == multiset(gs)
    requires Clean(p, fs) && Clean(p, gs)
    ensures ApplyAll(p, fs).qty == ApplyAll(p, gs).qty
    ensures Basis(ApplyAll(p, fs)) == Basis(ApplyAll(p, gs))
  {
    Conservation(p, fs);
    Conservation(p, gs);
    CleanIsExact(p, fs);
    CleanIsExact(p, gs);
    SumPermutes(fs, gs, NetQty);
    SumPermutes(fs, gs, CashFlow);
  }

  lemma SameProfit(a: PositionRow, b: PositionRow, mark: real)
    requires a.qty == b.qty && Basis(a) == Basis(b)
    ensures ProfitAt(a, mark) == ProfitAt(b, mark)
    ensures a.qty == 0.0 ==> a.realized == b.realized
  {
    ProfitIsBasis(a, mark);
    ProfitIsBasis(b, mark);
  }

  /** Two clean arrival orders of the same fills agree on quantity, third-asset commissions and total
      P&L at every mark, hence on realized P&L once the position is flat. */
  lemma OrderIndependence(p: PositionRow, fs: seq<Fill>, gs: seq<Fill>, mark: real)
    requires p.qty >= 0.0 && multiset(fs) == multiset(gs)
    requires Clean(p, fs) && Clean(p, gs)
    ensures var a := ApplyAll(p, fs);
            var b := ApplyAll(p, gs);
            && a.qty == b.qty
            && a.feesOther == b.feesOther
            && ProfitAt(a, mark) == ProfitAt(b, mark)
            && (a.qty == 0.0 ==> a.realized == b.realized)
  {
    SameBook(p, fs, gs);
    FeesPermute(p, fs, gs);
    SameProfit(ApplyAll(p, fs), ApplyAll(p, gs), mark);
  }

  /** Against a clean reference order (the order of execution), another arrival order tracks the same
      quantity exactly when it is clean as well. */
  lemma SameQuantityExactly(p: PositionRow, executed: seq<Fill>, arrived: seq<Fill>)
    requires p.qty >= 0.0 && multiset(executed) == multiset(arrived) && Clean(p, executed)
    ensures ApplyAll(p, arrived).qty == ApplyAll(p, executed).qty <==> Clean(p, arrived)
    ensures ApplyAll(p, arrived).qty >= ApplyAll(p, executed).qty
  {
    Conservation(p, executed);
    Conservation(p, arrived);
    CleanIsExact(p, executed);
    SumPermutes(executed, arrived, NetQty);
    if Clean(p, arrived) {
      CleanIsExact(p, arrived);
    }
    if ClipAll(p, arrived) == 0.0 {
      CleanFills(p, executed);
      forall f | f in arrived ensures f in executed {
        assert f in multiset(arrived);
      }
      NoClipIsClean(p, arrived);
    }
  }

  lemma AppendFill(p: PositionRow, fs: seq<Fill>, f: Fill)
    requires p.qty >= 0.0
    ensures ApplyAll(p, fs + [f]) == Apply(ApplyAll(p, fs), f)
    ensures Clean(p, fs + [f]) <==>
              && Clean(p, fs) && f.side in {Buy, Sell}
              && (f.side == Buy ==> Received(f) > 0.0)
              && (f.side == Sell ==> Delivered(f) <= ApplyAll(p, fs).qty)
  {
    assert (fs + [f])[..|fs + [f]| - 1] == fs;
  }

  /** A commission-free fill of one unit, and two rows the example below passes through. */
  function Unit(side: Side, price: real, symbol: Symbol): Fill {
    Fill(BotOrder(""), "", symbol, side, 1.0, price, 0.0, 0.0, None, 0, "")
  }

  function Holding(symbol: Symbol, qty: real, average: real, realized: real): PositionRow {
    EmptyPosition(symbol).(qty := qty, average := average, realized := realized,
                           openedAt := if qty == 0.0 then None else Some(0))
  }

  lemma UnitBuy(symbol: Symbol, qty: real, average: real, realized: real, price: real, average': real)
    requires qty >= 0.0 && (qty + 1.0) * average' == qty * average + price
    ensures Apply(Holding(symbol, qty, average, realized), Unit(Buy, price, symbol))
         == Holding(symbol, qty + 1.0, average', realized)
  {
    QuotientIs(qty * average + price, qty + 1.0, average');
  }

  lemma UnitSell(symbol: Symbol, qty: real, average: real, realized: real, price: real)
    requires qty >= 1.0
    ensures Apply(Holding(symbol, qty, average, realized), Unit(Sell, price, symbol))
         == Holding(symbol, qty - 1.0, if qty == 1.0 then 0.0 else average, realized + price - average)
  {
    var p, f := Holding(symbol, qty, average, realized), Unit(Sell, price, symbol);
    assert Delivered(f) == 1.0 && Proceeds(f) == price && !Oversells(p, f);
    assert RealizedBy(p, f) == price - average;
  }

  lemma BuyBuySell(symbol: Symbol)
    ensures var p := EmptyPosition(symbol);
            var fs := [Unit(Buy, 100.0, symbol), Unit(Buy, 110.0, symbol)] + [Unit(Sell, 120.0, symbol)];
            Clean(p, fs) && ApplyAll(p, fs) == Holding(symbol, 1.0, 105.0, 15.0)
  {
    var p := EmptyPosition(symbol);
    var buy, more, sell := Unit(Buy, 100.0, symbol), Unit(Buy, 110.0, symbol), Unit(Sell, 120.0, symbol);
    assert [] + [buy] == [buy] && [buy] + [more] == [buy, more];
    AppendFill(p, [], buy);
    UnitBuy(symbol, 0.0, 0.0, 0.0, 100.0, 100.0);
    AppendFill(p, [buy], more);
    UnitBuy(symbol, 1.0, 100.0, 0.0, 110.0, 105.0);
    AppendFill(p, [buy, more], sell);
    UnitSell(symbol, 2.0, 105.0, 0.0, 120.0);
  }

  lemma BuySellBuy(symbol: Symbol)
    ensures var p := EmptyPosition(symbol);
            var gs := [Unit(Buy, 100.0, symbol), Unit(Sell, 120.0, symbol)] + [Unit(Buy, 110.0, symbol)];
            Clean(p, gs) && ApplyAll(p, gs) == Holding(symbol, 1.0, 110.0, 20.0)
  {
    var p := EmptyPosition(symbol);
    var buy, more, sell := Unit(Buy, 100.0, symbol), Unit(Buy, 110.0, symbol), Unit(Sell, 120.0, symbol);
    assert [] + [buy] == [buy] && [buy] + [sell] == [buy, sell];
    AppendFill(p, [], buy);
    UnitBuy(symbol, 0.0, 0.0, 0.0, 100.0, 100.0);
    AppendFill(p, [buy], sell);
    UnitSell(symbol, 1.0, 100.0, 0.0, 120.0);
    AppendFill(p, [buy, sell], more);
    UnitBuy(symbol, 0.0, 0.0, 20.0, 110.0, 110.0);
  }

  /** Average price and realized P&L do remember the order: buy, buy, sell against buy, sell, buy. */
  lemma AverageRemembersOrder(symbol: Symbol)
    ensures exists fs: seq<Fill>, gs: seq<Fill> ::
              && multiset(fs) == multiset(gs)
              && Clean(EmptyPosition(symbol), fs) && Clean(EmptyPosition(symbol), gs)
              && ApplyAll(EmptyPosition(symbol), fs).average < ApplyAll(EmptyPosition(symbol), gs).average
              && ApplyAll(EmptyPosition(symbol), fs).realized < ApplyAll(EmptyPosition(symbol), gs).realized
  {
    var buy, more, sell := Unit(Buy, 100.0, symbol), Unit(Buy, 110.0, symbol), Unit(Sell, 120.0, symbol);
    BuyBuySell(symbol);
    BuySellBuy(symbol);
    assert multiset([buy, more] + [sell]) == multiset([buy, sell] + [more]);
  }
}
