/** What the backtester's loop conserves, and that it never looks ahead. */
module BacktestLaws {
  import opened Common
  import opened Sizing
  import opened Backtest

  function PnlOf(trades: seq<Trade>): real
    decreases |trades|
  {
    if trades == [] then 0.0 else PnlOf(trades[..|trades| - 1]) + trades[|trades| - 1].pnl
  }

  lemma PnlAppend(trades: seq<Trade>, t: Trade)
    ensures PnlOf(trades + [t]) == PnlOf(trades) + t.pnl
  {
    assert (trades + [t])[..|trades + [t]| - 1] == trades;
  }

  /** What the open position has cost. */
  function OpenCost(a: Account): real {
    if a.qty > 0.0 then Value(a.qty, a.entryPx) + a.entryFee else 0.0
  }

  /** Each trade ends before the next begins, and all have ended before `end`. */
  ghost predicate InOrder(trades: seq<Trade>, end: int) {
    && (forall k | 0 <= k < |trades| :: 0 <= trades[k].entryAt <= trades[k].exitAt < end)
    && (forall j, k | 0 <= j < k < |trades| :: trades[j].exitAt < trades[k].entryAt)
  }

  ghost predicate Solvent(a: Account) {
    && a.cash >= 0.0 && a.qty >= 0.0 && a.entryPx >= 0.0 && a.entryFee >= 0.0
    && (a.qty > 0.0 ==> a.entryPx > 0.0)
    && forall k | 0 <= k < |a.equity| :: a.equity[k] >= 0.0
  }

  ghost predicate Conserves(a: Account, cfg: Config) {
    a.cash + OpenCost(a) == cfg.initial + PnlOf(a.trades)
  }

  /** In the middle of bar i, or, with i + 1, behind it. */
  ghost predicate Placed(a: Account, i: int) {
    && (if a.qty > 0.0 then InOrder(a.trades, a.entryAt) && 0 <= a.entryAt <= i else InOrder(a.trades, i + 1))
  }

  // ------------------------------------------------------------------ arithmetic

  lemma NonNegative(x: real, y: real)
    requires x >= 0.0 && y >= 0.0
    ensures x * y >= 0.0
  {
  }

  lemma FeeWithin(amount: real, cfg: Config)
    requires SaneCosts(cfg) && amount >= 0.0
    ensures 0.0 <= Fee(amount, cfg) <= amount
  {
    NonNegative(amount, cfg.feeRate);
    NonNegative(amount, 1.0 - cfg.feeRate);
    assert amount * (1.0 - cfg.feeRate) == amount - amount * cfg.feeRate;
  }

  lemma SellPriceWithin(rawPx: real, cfg: Config)
    requires SaneCosts(cfg) && rawPx >= 0.0
    ensures SellPrice(rawPx, cfg) >= 0.0
  {
    NonNegative(rawPx, 1.0 - Slip(cfg));
  }

  lemma MostCoversFee(cash: real, notional: real, cfg: Config)
    requires SaneCosts(cfg) && notional <= Most(cash, cfg)
    ensures notional + Fee(notional, cfg) <= cash
  {
    var rate := 1.0 + cfg.feeRate;
    Quotient(cash, rate);
    Scaled(notional, cash / rate, rate);
    assert notional * rate == notional + notional * cfg.feeRate;
  }

  lemma UnitsAtPrice(notional: real, px: real)
    requires px > 0.0 && notional > 0.0
    ensures Units(notional, px) > 0.0 && Value(Units(notional, px), px) == notional
  {
    Quotient(notional, px);
    SignOfQuotient(notional / px, px);
  }

  lemma NotionalWithinMost(cash: real, px: real, cfg: Config)
    requires SaneCosts(cfg)
    ensures Notional(cash, px, cfg) <= Most(cash, cfg)
  {
  }

  // ------------------------------------------------------------------ one bar

  lemma CloseConserves(a: Account, i: int, rawPx: real, reason: Reason, cfg: Config)
    requires SaneCosts(cfg) && rawPx >= 0.0 && a.qty > 0.0
    requires Solvent(a) && Conserves(a, cfg) && Placed(a, i)
    ensures var b := Closed(a, i, rawPx, reason, cfg);
            Solvent(b) && Conserves(b, cfg) && Placed(b, i) && b.qty == 0.0 && b.equity == a.equity
  {
    var px := SellPrice(rawPx, cfg);
    SellPriceWithin(rawPx, cfg);
    NonNegative(a.qty, px);
    FeeWithin(Value(a.qty, px), cfg);
    var b := Closed(a, i, rawPx, reason, cfg);
    PnlAppend(a.trades, b.trades[|a.trades|]);
  }

  lemma EnterConserves(a: Account, i: int, px: real, cfg: Config)
    requires SaneCosts(cfg) && px > 0.0 && a.qty == 0.0 && 0 <= i
    requires Solvent(a) && Conserves(a, cfg) && InOrder(a.trades, i)
    ensures var b := Entered(a, i, px, cfg);
            Solvent(b) && Conserves(b, cfg) && Placed(b, i) && b.equity == a.equity
  {
    hide Value, Fee, Most, Units, Below, PositionSize;
    var notional := Notional(a.cash, px, cfg);
    NotionalWithinMost(a.cash, px, cfg);
    if notional > 0.0 {
      MostCoversFee(a.cash, notional, cfg);
      FeeWithin(notional, cfg);
      UnitsAtPrice(notional, px);
    }
  }

  lemma OpenConserves(a: Account, i: int, b: Bar, signal: Option<real>, cfg: Config)
    requires SaneCosts(cfg) && SaneBar(b) && 0 <= i
    requires Solvent(a) && Conserves(a, cfg) && Placed(a, i - 1)
    ensures var a' := Acted(a, i, b, signal, cfg);
            Solvent(a') && Conserves(a', cfg) && Placed(a', i) && a'.equity == a.equity
  {
    hide Closed, Entered, BuyPrice;
    BuyPriceIsPositive(b, cfg);
    if signal.Some? && a.qty > 0.0 && (signal.value < 0.0 || HeldTooLong(a, i, cfg)) {
      CloseConserves(a, i, b.open, if signal.value < 0.0 then OnSignal else OnTime, cfg);
    } else if signal.Some? && a.qty == 0.0 && signal.value > 0.0 && !a.halted {
      EnterConserves(a, i, BuyPrice(b.open, cfg), cfg);
    }
  }

  lemma BarConserves(a: Account, i: int, b: Bar, signal: Option<real>, cfg: Config)
    requires SaneCosts(cfg) && SaneBar(b) && 0 <= i
    requires Solvent(a) && Conserves(a, cfg) && Placed(a, i - 1)
    ensures var a' := AfterBar(a, i, b, signal, cfg);
            Solvent(a') && Conserves(a', cfg) && Placed(a', i) && |a'.equity| == |a.equity| + 1
  {
    hide Acted, Closed, Value;
    var a1 := NewDay(a, b);
    assert OpenCost(a1) == OpenCost(a);
    OpenConserves(a1, i, b, signal, cfg);
    var a2 := Acted(a1, i, b, signal, cfg);
    if a2.qty > 0.0 && a2.stopPx.Some? && b.low <= a2.stopPx.value {
      CloseConserves(a2, i, Min(a2.stopPx.value, b.open), OnStop, cfg);
    }
    MarkConserves(Stopped(a2, i, b, cfg), i, b, cfg);
  }

  lemma MarkConserves(a: Account, i: int, b: Bar, cfg: Config)
    requires SaneBar(b) && Solvent(a) && Conserves(a, cfg) && Placed(a, i)
    ensures var a' := Marked(a, b, cfg);
            Solvent(a') && Conserves(a', cfg) && Placed(a', i) && |a'.equity| == |a.equity| + 1
  {
    NonNegative(a.qty, b.close);
    assert Value(a.qty, b.close) >= 0.0;
    assert OpenCost(Marked(a, b, cfg)) == OpenCost(a);
  }

  // ------------------------------------------------------------------ every run

  /** After any number of bars, whatever the signals: no borrowing, no short, no negative equity; cash and the
      cost of what is open are the initial cash and the profits of the closed trades; trades do not overlap. */
  lemma {:induction false} EveryBarConserves(bars: seq<Bar>, signals: seq<real>, cfg: Config, n: nat)
    requires SaneInput(bars, signals, cfg) && n <= |bars|
    ensures var a := AfterBars(bars, signals, cfg, n);
            Solvent(a) && Conserves(a, cfg) && Placed(a, n - 1) && |a.equity| == n
  {
    if n > 0 {
      EveryBarConserves(bars, signals, cfg, n - 1);
      BarConserves(AfterBars(bars, signals, cfg, n - 1), n - 1, bars[n - 1],
                   if n >= 2 then Some(signals[n - 2]) else None, cfg);
    }
  }

  /** The run as a whole: what is left is the initial cash and the profits of the trades, and that is the
      last equity; the trades follow one another. */
  lemma RunConserves(bars: seq<Bar>, signals: seq<real>, cfg: Config)
    requires SaneInput(bars, signals, cfg)
    ensures var a := Outcome(bars, signals, cfg);
            && a.qty == 0.0 && a.cash == cfg.initial + PnlOf(a.trades) && a.cash >= 0.0
            && |a.equity| == |bars| && (bars != [] ==> a.equity[|bars| - 1] == a.cash)
            && (forall k | 0 <= k < |a.equity| :: a.equity[k] >= 0.0)
            && InOrder(a.trades, |bars|)
  {
    hide AfterBar, Closed, Value;
    var n := |bars|;
    EveryBarConserves(bars, signals, cfg, n);
    var a := AfterBars(bars, signals, cfg, n);
    if n > 0 {
      if a.qty > 0.0 {
        CloseConserves(a, n - 1, bars[n - 1].close, AtEnd, cfg);
      } else {
        LastEquity(bars, signals, cfg);
      }
    }
  }

  /** Flat at the last close, the last equity is the cash. */
  lemma LastEquity(bars: seq<Bar>, signals: seq<real>, cfg: Config)
    requires SaneInput(bars, signals, cfg) && bars != [] && AfterBars(bars, signals, cfg, |bars|).qty == 0.0
    ensures var a := AfterBars(bars, signals, cfg, |bars|);
            |a.equity| > 0 && a.equity[|a.equity| - 1] == a.cash
  {
    hide Acted, Stopped;
    var n := |bars|;
    var before := AfterBars(bars, signals, cfg, n - 1);
    var signal := if n >= 2 then Some(signals[n - 2]) else None;
    var a := Stopped(Acted(NewDay(before, bars[n - 1]), n - 1, bars[n - 1], signal, cfg), n - 1, bars[n - 1], cfg);
    assert AfterBars(bars, signals, cfg, n) == Marked(a, bars[n - 1], cfg);
    assert Value(0.0, bars[n - 1].close) == 0.0;
  }

  // ------------------------------------------------------------------ causality

  /** Two histories that agree on the bars up to bar n and on the signals before it lead to the same account:
      what comes later, and the signal of the last bar itself, cannot have been used. */
  lemma {:induction false} NoLookahead(bars: seq<Bar>, signals: seq<real>, bars': seq<Bar>, signals': seq<real>,
                                       cfg: Config, n: nat)
    requires SaneInput(bars, signals, cfg) && SaneInput(bars', signals', cfg)
    requires n <= |bars| && n <= |bars'| && bars[..n] == bars'[..n]
    requires n > 0 ==> signals[..n - 1] == signals'[..n - 1]
    ensures AfterBars(bars, signals, cfg, n) == AfterBars(bars', signals', cfg, n)
  {
    if n > 0 {
      hide AfterBar;
      assert bars[n - 1] == bars[..n][n - 1] == bars'[n - 1];
      assert bars[..n - 1] == bars[..n][..n - 1] == bars'[..n - 1];
      if n >= 2 {
        assert signals[..n - 2] == signals[..n - 1][..n - 2] == signals'[..n - 2];
        assert signals[n - 2] == signals[..n - 1][n - 2] == signals'[n - 2];
      }
      NoLookahead(bars, signals, bars', signals', cfg, n - 1);
    }
  }

  // ------------------------------------------------------------------ the daily halt

  /** Nothing was bought between two points of the run. */
  ghost predicate NoEntrySince(a: Account, a': Account) {
    a'.qty > 0.0 ==> a.qty > 0.0 && a'.entryAt == a.entryAt
  }

  lemma HaltedBar(a: Account, i: int, b: Bar, signal: Option<real>, cfg: Config)
    requires SaneCosts(cfg) && SaneBar(b) && a.halted && a.day == Some(b.day)
    ensures var a' := AfterBar(a, i, b, signal, cfg);
            a'.halted && a'.day == Some(b.day) && NoEntrySince(a, a')
  {
    hide Value, Fee, SellPrice, Below;
  }

  /** Once halted, for the rest of the day positions are at most closed. */
  lemma {:induction false} HaltLastsTheDay(bars: seq<Bar>, signals: seq<real>, cfg: Config, k: nat, n: nat)
    requires SaneInput(bars, signals, cfg) && 0 < k <= n <= |bars|
    requires forall j | k <= j < n :: bars[j].day == bars[k - 1].day
    requires AfterBars(bars, signals, cfg, k).halted
    ensures var a, a' := AfterBars(bars, signals, cfg, k), AfterBars(bars, signals, cfg, n);
            a'.halted && NoEntrySince(a, a') && a'.day == Some(bars[k - 1].day)
    decreases n
  {
    if k < n {
      HaltLastsTheDay(bars, signals, cfg, k, n - 1);
      HaltedBar(AfterBars(bars, signals, cfg, n - 1), n - 1, bars[n - 1], if n >= 2 then Some(signals[n - 2]) else None, cfg);
    } else {
      DayOf(AfterBars(bars, signals, cfg, k - 1), k - 1, bars[k - 1], if k >= 2 then Some(signals[k - 2]) else None, cfg);
    }
  }

  lemma DayOf(a: Account, i: int, b: Bar, signal: Option<real>, cfg: Config)
    requires SaneCosts(cfg) && SaneBar(b)
    ensures AfterBar(a, i, b, signal, cfg).day == Some(b.day)
  {
    hide Value, Fee, SellPrice, Below, BuyPrice, Units, Notional;
  }
}
