/** What a fill moves, written out; what the fields of a position say about one another in every state of the ledger; and
    when a fill is an anomaly (engine/application/position_service.py, engine/domain/models.py). */
module PositionRecords {
  import opened Common
  import opened OrderModel
  import opened PositionModel
  import opened Ledger

  // ------------------------------------------------------------------ one fill, written out

  function FeeOf(f: Fill, asset: string): real {
    if f.commissionAsset.Some? && f.commissionAsset.value == asset then f.commission else 0.0
  }

  /** The money that changes hands: the quote quantity, or quantity times price where there is none. */
  function Money(f: Fill): real {
    if f.quoteQty > 0.0 then f.quoteQty else f.qty * f.price
  }

  /** A BUY: a fee in the base asset comes off what is received, one in the quote asset adds to what it costs. The average
      is what all that is held has cost, per unit; what was held before keeps its opening time. */
  lemma BuyMoves(p: PositionRow, f: Fill)
    requires p.qty >= 0.0 && f.side == Buy && f.qty > FeeOf(f, f.symbol.base)
    ensures var p' := Apply(p, f);
            && p'.qty == p.qty + f.qty - FeeOf(f, f.symbol.base)
            && p'.average * p'.qty == p.qty * p.average + Money(f) + FeeOf(f, f.symbol.quote)
            && p'.realized == p.realized && p'.stop == p.stop
            && p'.openedAt == (if p.qty > 0.0 then p.openedAt else Some(f.time))
            && RealizedBy(p, f) == 0.0
  {
    hide FeeIn, Remarked;
    Fees(f);
    RemarkOnly(Bought(p.(feesOther := TallyFee(p.feesOther, f)), f));
    MeanTimesSize(p.qty * p.average + Cost(f), p.qty + Received(f));
  }

  lemma Fees(f: Fill)
    ensures forall asset :: FeeIn(f, asset) == FeeOf(f, asset)
  {
  }

  lemma RemarkOnly(p: PositionRow)
    ensures Remarked(p) == p.(unrealized := Remarked(p).unrealized)
  {
  }

  lemma MeanTimesSize(sum: real, size: real)
    requires size != 0.0
    ensures sum / size * size == sum
  {
  }

  /** A SELL: a fee in the base asset is delivered on top, one in the quote asset comes off the proceeds. What is held is
      charged at its average, but never more than is held once the SELL exceeds it by more than the tolerance; at zero the
      average, the stop and the opening time are gone. */
  lemma SellMoves(p: PositionRow, f: Fill)
    requires p.qty >= 0.0 && f.side == Sell
    ensures var p' := Apply(p, f);
            var delivered := f.qty + FeeOf(f, f.symbol.base);
            var charged := if delivered > p.qty + 0.000000000001 then p.qty else delivered;
            && p'.qty == (if delivered > p.qty then 0.0 else p.qty - delivered)
            && p'.realized == p.realized + RealizedBy(p, f)
            && RealizedBy(p, f) == Money(f) - FeeOf(f, f.symbol.quote) - p.average * charged
            && (if p'.qty == 0.0 then p'.average == 0.0 && p'.stop == None && p'.openedAt == None
                else p'.average == p.average && p'.stop == p.stop && p'.openedAt == p.openedAt)
  {
    hide FeeIn, Remarked;
    Fees(f);
    RemarkOnly(Sold(p.(feesOther := TallyFee(p.feesOther, f)), f));
  }

  /** The paper balance: a SELL brings its money less the fee in the quote asset; anything else takes it with the fee. */
  lemma CashMoves(f: Fill)
    ensures CashFlow(f) == if f.side == Sell then Money(f) - FeeOf(f, f.symbol.quote) else -(Money(f) + FeeOf(f, f.symbol.quote))
  {
    hide FeeIn;
    Fees(f);
  }

  /** Anything else, a BUY that brings nothing included, moves at most the tally of fees in third assets. */
  lemma OtherMovesNothing(p: PositionRow, f: Fill)
    requires p.qty >= 0.0 && (f.side.OtherSide? || (f.side == Buy && f.qty <= FeeOf(f, f.symbol.base)))
    ensures var p' := Apply(p, f);
            p' == p.(feesOther := p'.feesOther, unrealized := p'.unrealized) && RealizedBy(p, f) == 0.0
  {
  }

  /** A fee in a third asset adds to the tally of that asset, and to no other. */
  lemma ThirdAssetIsTallied(p: PositionRow, f: Fill)
    requires p.qty >= 0.0
    ensures var p' := Apply(p, f);
            var third := f.commission > 0.0 && f.commissionAsset.Some?
                         && f.commissionAsset.value != f.symbol.base && f.commissionAsset.value != f.symbol.quote;
            if !third then p'.feesOther == p.feesOther
            else
              && p'.feesOther.Keys == p.feesOther.Keys + {f.commissionAsset.value}
              && forall a | a in p'.feesOther ::
                   p'.feesOther[a] == (if a in p.feesOther then p.feesOther[a] else 0.0)
                                      + (if a == f.commissionAsset.value then f.commission else 0.0)
  {
    hide Gross, FeeIn;
    var p' := Apply(p, f);
    assert p'.feesOther == TallyFee(p.feesOther, f);
  }

  // ------------------------------------------------------------------ anomalies

  /** A BUY that brings nothing, a SELL of more than is held and the tolerance, or neither of the two. */
  predicate Odd(held: real, f: Fill) {
    match f.side
    case Buy => f.qty <= FeeOf(f, f.symbol.base)
    case Sell => f.qty + FeeOf(f, f.symbol.base) > held + 0.000000000001
    case OtherSide(_) => true
  }

  lemma AnomalyExactly(p: PositionRow, f: Fill)
    ensures |AnomaliesOf(p, f)| == if Odd(p.qty, f) then 1 else 0
  {
  }

  predicate OddAt(p: PositionRow, fs: seq<Fill>, k: nat)
    requires p.qty >= 0.0 && k < |fs|
  {
    Odd(ApplyAll(p, fs[..k]).qty, fs[k])
  }

  ghost function OddPlaces(p: PositionRow, fs: seq<Fill>): set<int>
    requires p.qty >= 0.0
  {
    set k | 0 <= k < |fs| && OddAt(p, fs, k)
  }

  lemma OddPlacesGrow(p: PositionRow, fs: seq<Fill>)
    requires p.qty >= 0.0 && fs != []
    ensures var n := |fs| - 1;
            OddPlaces(p, fs) == OddPlaces(p, fs[..n]) + if Odd(ApplyAll(p, fs[..n]).qty, fs[n]) then {n} else {}
  {
    hide Odd, ApplyAll;
    var n := |fs| - 1;
    forall k | 0 <= k < n
      ensures OddAt(p, fs, k) == OddAt(p, fs[..n], k)
    {
      assert fs[..k] == fs[..n][..k] && fs[k] == fs[..n][k];
    }
  }

  /** A history has as many anomalies as odd fills: none exactly when no fill is odd where it stands. */
  lemma {:induction false} AnomaliesExactly(p: PositionRow, fs: seq<Fill>)
    requires p.qty >= 0.0
    ensures |AnomaliesAll(p, fs)| == |OddPlaces(p, fs)|
    ensures AnomaliesAll(p, fs) == [] <==> forall k | 0 <= k < |fs| :: !OddAt(p, fs, k)
    decreases |fs|
  {
    hide OddAt, Odd, AnomaliesOf, ApplyAll;
    if fs == [] {
      assert OddPlaces(p, fs) == {};
    } else {
      var n := |fs| - 1;
      AnomaliesExactly(p, fs[..n]);
      AnomalyExactly(ApplyAll(p, fs[..n]), fs[n]);
      OddPlacesGrow(p, fs);
      hide OddPlaces;
      assert n !in OddPlaces(p, fs[..n]) by {
        NotYet(p, fs[..n]);
      }
    }
    EmptyExactly(p, fs);
  }

  lemma NotYet(p: PositionRow, fs: seq<Fill>)
    requires p.qty >= 0.0
    ensures |fs| !in OddPlaces(p, fs)
  {
  }

  lemma EmptyExactly(p: PositionRow, fs: seq<Fill>)
    requires p.qty >= 0.0
    ensures |OddPlaces(p, fs)| == 0 <==> forall k | 0 <= k < |fs| :: !OddAt(p, fs, k)
  {
    hide OddAt;
    assert forall k | 0 <= k < |fs| && OddAt(p, fs, k) :: k in OddPlaces(p, fs);
    assert (forall k | 0 <= k < |fs| :: !OddAt(p, fs, k)) ==> OddPlaces(p, fs) == {};
  }

  // ------------------------------------------------------------------ every position in every state

  /** A marked position carries the profit at its last mark, one that was never marked none; it has an opening time and an
      average only while something is held. */
  ghost predicate Agrees(p: PositionRow) {
    && p.unrealized == (if p.lastMark.Some? && p.qty > 0.0 then (p.lastMark.value - p.average) * p.qty else 0.0)
    && (p.qty <= 0.0 ==> p.average == 0.0 && p.openedAt == None)
  }

  lemma ApplyAgrees(p: PositionRow, f: Fill)
    requires p.qty >= 0.0 && Agrees(p)
    ensures Agrees(Apply(p, f))
    ensures Apply(p, f).stop == if f.side == Sell && Apply(p, f).qty == 0.0 then None else p.stop
  {
    hide FeeIn, Gross;
  }

  lemma {:induction false} ApplyAllAgrees(p: PositionRow, fs: seq<Fill>)
    requires p.qty >= 0.0 && Agrees(p)
    ensures Agrees(ApplyAll(p, fs)) && (p.stop == None ==> ApplyAll(p, fs).stop == None)
    decreases |fs|
  {
    hide Agrees, Apply;
    if fs != [] {
      ApplyAllAgrees(p, fs[..|fs| - 1]);
      ApplyAgrees(ApplyAll(p, fs[..|fs| - 1]), fs[|fs| - 1]);
    }
  }

  /** From scratch the last mark survives, and the stop exactly while something is held. */
  lemma RebuildKeepsMarkAndStop(existing: PositionRow, fs: seq<Fill>)
    ensures var p := Rebuilt(existing, fs);
            && Agrees(p) && p.symbol == existing.symbol && p.lastMark == existing.lastMark
            && p.stop == (if p.qty > 0.0 then existing.stop else None)
  {
    hide Apply;
    ApplyAllAgrees(EmptyPosition(existing.symbol).(lastMark := existing.lastMark), fs);
  }

  /** A mark changes the mark and the profit it shows. */
  lemma MarkRevalues(p: PositionRow, price: real)
    ensures var p' := Marked(p, price);
            && p' == p.(lastMark := Some(price), unrealized := p'.unrealized) && p'.lastMark == Some(price)
            && p'.unrealized == (if p.qty > 0.0 then p.qty * (price - p.average) else 0.0)
  {
  }

  /** A stop, a mark and a rebuild write the position of one symbol and nothing else; a stop only the stop. */
  lemma OnePositionIsWritten(db: Db, symbol: Symbol, price: real)
    requires WellFormed(db)
    ensures StopSet(db, symbol, price) ==
            db.(positions := db.positions[symbol := PositionOf(db, symbol).(stop := Some(price))])
    ensures PositionMarked(db, symbol, price) ==
            db.(positions := db.positions[symbol := PositionOf(PositionMarked(db, symbol, price), symbol)])
    ensures PositionRebuilt(db, symbol) == db.(positions := db.positions[symbol := PositionOf(PositionRebuilt(db, symbol), symbol)])
  {
    hide Rebuilt, FillsOf, ByTime;
    PositionsFit(db, symbol);
    RebuildKeepsMarkAndStop(PositionOf(db, symbol), ByTime(FillsOf(db.fills, symbol)));
  }

  lemma PositionsFit(db: Db, symbol: Symbol)
    requires WellFormed(db)
    ensures PositionOf(db, symbol).symbol == symbol
  {
  }

  ghost predicate AllAgree(db: Db) {
    forall s | s in db.positions :: Agrees(db.positions[s])
  }

  lemma EmptyAgrees(symbol: Symbol)
    ensures Agrees(EmptyPosition(symbol))
  {
  }

  lemma FillAgrees(db: Db, xf: ExchangeFill, now: int)
    requires WellFormed(db) && AllAgree(db)
    ensures AllAgree(IngestFill(db, xf, now).0)
  {
    hide Agrees, Apply, Enqueued;
    var located := Locate(db, xf.clientOrderId, xf.exchangeOrderId);
    if located.Some? {
      LocatedFits(db, xf.clientOrderId, xf.exchangeOrderId);
      var f := FillOf(db.orders[located.value], xf, now);
      EmptyAgrees(f.symbol);
      ApplyAgrees(PositionOf(db, f.symbol), f);
    }
  }

  lemma EventAgrees(db: Db, ev: StreamEvent, now: int)
    requires WellFormed(db) && AllAgree(db)
    ensures AllAgree(HandleEvent(db, ev, now).0)
  {
    var marked := MarkProcessed(db, ev.eventKey);
    ReportKeepsPositions(marked, ev.report, now);
    var db1 := ApplyReport(marked, ev.report, now).0;
    if ev.fill.Some? {
      FillAgrees(db1, ev.fill.value, now);
    }
    hide ApplyReport, IngestFill, WellFormed, Agrees;
  }

  lemma ReportKeepsPositions(db: Db, r: Report, now: int)
    requires WellFormed(db)
    ensures ApplyReport(db, r, now).0.positions == db.positions
  {
    var located := Locate(db, Some(r.clientOrderId), r.exchangeOrderId);
    if located.Some? {
      LocatedFits(db, Some(r.clientOrderId), r.exchangeOrderId);
    }
  }

  lemma PositionStepAgrees(db: Db, s: Step)
    requires WellFormed(db) && AllAgree(db) && (s.op.MarkPosition? || s.op.SetStop? || s.op.RebuildPosition?)
    ensures AllAgree(After(db, s))
  {
    hide Rebuilt;
    EmptyAgrees(s.op.symbol);
    match s.op {
      case MarkPosition(symbol, price) =>
      case SetStop(symbol, price) =>
      case RebuildPosition(symbol) =>
        RebuildKeepsMarkAndStop(PositionOf(db, symbol), ByTime(FillsOf(db.fills, symbol)));
    }
  }

  lemma OrderStepKeepsPositions(db: Db, s: Step)
    requires WellFormed(db) && (s.op.Persist? || s.op.TakeReport? || s.op.Refuse? || s.op.Flag?)
    ensures After(db, s).positions == db.positions
  {
    if s.op.TakeReport? {
      ReportKeepsPositions(db, s.op.report, s.now);
    } else if s.op.Refuse? && s.op.order in db.orders {
      assert RowFits(db, s.op.order);
    } else if s.op.Flag? && s.op.order in db.orders {
      assert RowFits(db, s.op.order);
    }
  }

  lemma StepAgrees(db: Db, s: Step)
    requires WellFormed(db) && AllAgree(db)
    ensures AllAgree(After(db, s))
  {
    if s.op.TakeFill? {
      FillAgrees(db, s.op.fill, s.now);
    } else if s.op.TakeEvent? {
      EventAgrees(db, s.op.event, s.now);
    } else if s.op.MarkPosition? || s.op.SetStop? || s.op.RebuildPosition? {
      PositionStepAgrees(db, s);
    } else {
      OrderStepKeepsPositions(db, s);
    }
  }

  /** From an empty ledger, over every run of every writer: the fields of every position agree with one another. */
  lemma {:induction false} EveryPositionAgrees(steps: seq<Step>)
    ensures AllAgree(Run(EMPTY, steps))
    decreases |steps|
  {
    if steps != [] {
      hide Agrees, After;
      EveryPositionAgrees(steps[..|steps| - 1]);
      StepAgrees(Run(EMPTY, steps[..|steps| - 1]), steps[|steps| - 1]);
    }
  }
}
