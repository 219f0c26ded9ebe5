/** What every trade of a backtest is: when it was entered and left, at which price, for how much; and when the daily
    halt was on (research/backtest.py). */
module BacktestTrades {
  import opened Common
  import opened Sizing
  import opened Backtest
  import opened BacktestLaws

  // ------------------------------------------------------------------ one trade

  /** Against the trader on every fill. */
  function Slipped(cfg: Config): real {
    cfg.slippageBps / 10000.0
  }

  function HasStop(cfg: Config): bool {
    cfg.stopPct.Some? && cfg.stopPct.value != 0.0
  }

  function StopOf(entryPx: real, cfg: Config): real
    requires HasStop(cfg)
  {
    entryPx * (1.0 - cfg.stopPct.value / 100.0)
  }

  /** Nothing closes the position at the open of bar j: it was entered there, or the signal before does not say sell
      and the time is not over. */
  ghost predicate KeptAtOpen(signals: seq<real>, cfg: Config, entryAt: int, j: int) {
    entryAt < j <= |signals| ==>
      && (j > 0 ==> signals[j - 1] >= 0.0)
      && (cfg.maxHold.Some? && cfg.maxHold.value != 0 ==> j - entryAt < cfg.maxHold.value)
  }

  /** The low of bar j stays above the stop. */
  ghost predicate KeptInside(bars: seq<Bar>, cfg: Config, entryPx: real, j: int) {
    0 <= j < |bars| && HasStop(cfg) ==> bars[j].low > StopOf(entryPx, cfg)
  }

  /** Held through the bars from its entry up to, but not including, bar n. */
  ghost predicate HeldUntil(bars: seq<Bar>, signals: seq<real>, cfg: Config, entryAt: int, entryPx: real, n: int) {
    forall j | entryAt <= j < n :: KeptAtOpen(signals, cfg, entryAt, j) && KeptInside(bars, cfg, entryPx, j)
  }

  /** Entered on a positive signal of the bar before, at the open, slipped upwards. */
  ghost predicate EnteredWell(bars: seq<Bar>, signals: seq<real>, cfg: Config, entryAt: int, entryPx: real) {
    && 0 < entryAt < |bars| && |signals| == |bars| && signals[entryAt - 1] > 0.0
    && entryPx == bars[entryAt].open * (1.0 + Slipped(cfg))
  }

  /** Left for the reason that is given, and for no earlier one, at the price that goes with it. */
  ghost predicate LeftWell(bars: seq<Bar>, signals: seq<real>, cfg: Config, t: Trade) {
    && t.entryAt <= t.exitAt < |bars| && |signals| == |bars| && 0 <= t.exitAt
    && HeldUntil(bars, signals, cfg, t.entryAt, t.entryPx, t.exitAt)
    && var b := bars[t.exitAt];
       match t.reason
       case OnStop =>
         && KeptAtOpen(signals, cfg, t.entryAt, t.exitAt)
         && HasStop(cfg) && b.low <= StopOf(t.entryPx, cfg)
         && t.exitPx == (if b.open < StopOf(t.entryPx, cfg) then b.open else StopOf(t.entryPx, cfg)) * (1.0 - Slipped(cfg))
       case OnSignal =>
         && t.entryAt < t.exitAt && t.exitAt > 0 && signals[t.exitAt - 1] < 0.0
         && t.exitPx == b.open * (1.0 - Slipped(cfg))
       case OnTime =>
         && t.entryAt < t.exitAt && t.exitAt > 0 && signals[t.exitAt - 1] >= 0.0
         && cfg.maxHold.Some? && cfg.maxHold.value != 0 && t.exitAt - t.entryAt >= cfg.maxHold.value
         && t.exitPx == b.open * (1.0 - Slipped(cfg))
       case AtEnd =>
         && t.exitAt == |bars| - 1
         && KeptAtOpen(signals, cfg, t.entryAt, t.exitAt) && KeptInside(bars, cfg, t.entryPx, t.exitAt)
         && t.exitPx == b.close * (1.0 - Slipped(cfg))
  }

  /** What is bought for the cash there is: all of it with the fee on top, or what risks the share of it. */
  ghost predicate BoughtFor(cfg: Config, cash: real, px: real, qty: real) {
    && qty > 0.0 && qty * px + qty * px * cfg.feeRate <= cash
    && (qty * px + qty * px * cfg.feeRate == cash
        || (cfg.riskSizing && HasStop(cfg) && qty == PositionSize(cash, px, cfg.riskPct, cfg.stopPct.value)))
    && (cfg.riskSizing && HasStop(cfg) ==> qty <= PositionSize(cash, px, cfg.riskPct, cfg.stopPct.value))
  }

  /** Proceeds less their fee, less cost and its fee. */
  ghost predicate PaysOff(cfg: Config, t: Trade) {
    t.pnl == t.qty * t.exitPx - t.qty * t.exitPx * cfg.feeRate - (t.qty * t.entryPx + t.qty * t.entryPx * cfg.feeRate)
  }

  /** The k-th trade in full: the cash it is bought for is what the trades before it have left. */
  ghost predicate IsTrade(bars: seq<Bar>, signals: seq<real>, cfg: Config, trades: seq<Trade>, k: int) {
    0 <= k < |trades| ==>
      var t := trades[k];
      && EnteredWell(bars, signals, cfg, t.entryAt, t.entryPx) && LeftWell(bars, signals, cfg, t)
      && BoughtFor(cfg, cfg.initial + PnlOf(trades[..k]), t.entryPx, t.qty) && PaysOff(cfg, t)
  }

  // ------------------------------------------------------------------ what the loop keeps

  ghost predicate TradesFit(bars: seq<Bar>, signals: seq<real>, cfg: Config, a: Account) {
    forall k | 0 <= k < |a.trades| :: IsTrade(bars, signals, cfg, a.trades, k)
  }

  /** The open position: entered well, held through every bar before bar n. */
  ghost predicate OpenFits(bars: seq<Bar>, signals: seq<real>, cfg: Config, a: Account, n: int) {
    a.qty > 0.0 ==>
      && EnteredWell(bars, signals, cfg, a.entryAt, a.entryPx) && a.entryAt <= n
      && HeldUntil(bars, signals, cfg, a.entryAt, a.entryPx, n)
      && a.stopPx == (if HasStop(cfg) then Some(StopOf(a.entryPx, cfg)) else None)
      && a.entryFee == a.qty * a.entryPx * cfg.feeRate
      && BoughtFor(cfg, cfg.initial + PnlOf(a.trades), a.entryPx, a.qty)
  }

  ghost predicate Fits(bars: seq<Bar>, signals: seq<real>, cfg: Config, a: Account, n: int) {
    TradesFit(bars, signals, cfg, a) && OpenFits(bars, signals, cfg, a, n)
  }

  lemma AppendKeepsTrades(bars: seq<Bar>, signals: seq<real>, cfg: Config, trades: seq<Trade>, t: Trade)
    requires forall k | 0 <= k < |trades| :: IsTrade(bars, signals, cfg, trades, k)
    requires EnteredWell(bars, signals, cfg, t.entryAt, t.entryPx) && LeftWell(bars, signals, cfg, t)
    requires BoughtFor(cfg, cfg.initial + PnlOf(trades), t.entryPx, t.qty) && PaysOff(cfg, t)
    ensures forall k | 0 <= k < |trades + [t]| :: IsTrade(bars, signals, cfg, trades + [t], k)
  {
    hide EnteredWell, LeftWell, BoughtFor, PaysOff;
    var all := trades + [t];
    forall k | 0 <= k < |all|
      ensures IsTrade(bars, signals, cfg, all, k)
    {
      if k < |trades| {
        assert IsTrade(bars, signals, cfg, trades, k);
        assert all[..k] == trades[..k] && all[k] == trades[k];
      } else {
        assert all[..k] == trades && all[k] == t;
      }
    }
  }

  /** A sale of the open position, for a reason that holds, at its price. */
  lemma CloseFits(bars: seq<Bar>, signals: seq<real>, cfg: Config, a: Account, i: int, rawPx: real, reason: Reason)
    requires TradesFit(bars, signals, cfg, a) && OpenFits(bars, signals, cfg, a, i) && a.qty > 0.0
    requires LeftWell(bars, signals, cfg,
                      Trade(a.entryAt, a.entryPx, i, rawPx * (1.0 - Slipped(cfg)), a.qty, 0.0, reason))
    ensures Fits(bars, signals, cfg, Closed(a, i, rawPx, reason, cfg), i)
  {
    hide EnteredWell, HeldUntil, BoughtFor, KeptAtOpen, KeptInside, StopOf;
    var t := Closed(a, i, rawPx, reason, cfg).trades[|a.trades|];
    assert LeftWell(bars, signals, cfg, t);
    assert PaysOff(cfg, t);
    AppendKeepsTrades(bars, signals, cfg, a.trades, t);
  }

  // ------------------------------------------------------------------ entering

  lemma AllSpent(cash: real, cfg: Config)
    requires SaneCosts(cfg)
    ensures Most(cash, cfg) + Most(cash, cfg) * cfg.feeRate == cash
  {
    var rate := 1.0 + cfg.feeRate;
    Quotient(cash, rate);
    assert cash / rate * rate == cash / rate + cash / rate * cfg.feeRate;
  }

  lemma UnitsAre(units: real, px: real)
    requires px > 0.0
    ensures units * px / px == units
  {
  }

  lemma FewerUnits(notional: real, units: real, px: real)
    requires px > 0.0 && notional <= units * px
    ensures notional / px <= units
  {
    var gap := units - notional / px;
    Quotient(notional, px);
    assert gap * px == units * px - notional;
    SignOfQuotient(gap, px);
  }

  lemma EntryBuys(cash: real, px: real, cfg: Config)
    requires SaneCosts(cfg) && px > 0.0 && Notional(cash, px, cfg) > 0.0
    ensures BoughtFor(cfg, cash, px, Units(Notional(cash, px, cfg), px))
  {
    hide Most, PositionSize;
    var notional := Notional(cash, px, cfg);
    NotionalWithinMost(cash, px, cfg);
    MostCoversFee(cash, notional, cfg);
    UnitsAtPrice(notional, px);
    AllSpent(cash, cfg);
    if cfg.riskSizing && HasStop(cfg) {
      var units := PositionSize(cash, px, cfg.riskPct, cfg.stopPct.value);
      FewerUnits(notional, units, px);
      UnitsAre(units, px);
    }
  }

  lemma EnterFits(bars: seq<Bar>, signals: seq<real>, cfg: Config, a: Account, i: int)
    requires SaneInput(bars, signals, cfg) && 0 < i < |bars| && TradesFit(bars, signals, cfg, a) && a.qty == 0.0
    requires Conserves(a, cfg) && signals[i - 1] > 0.0
    ensures BuyPrice(bars[i].open, cfg) > 0.0
    ensures var b := Entered(a, i, BuyPrice(bars[i].open, cfg), cfg);
            Fits(bars, signals, cfg, b, i) && (b.qty > 0.0 ==> b.entryAt == i)
  {
    hide IsTrade, Notional, Units, BoughtFor;
    BuyPriceIsPositive(bars[i], cfg);
    var px := BuyPrice(bars[i].open, cfg);
    var notional := Notional(a.cash, px, cfg);
    if notional > 0.0 {
      EntryBuys(a.cash, px, cfg);
      UnitsAtPrice(notional, px);
    }
  }

  // ------------------------------------------------------------------ one bar

  function SignalBefore(signals: seq<real>, i: int): Option<real> {
    if 0 < i <= |signals| then Some(signals[i - 1]) else None
  }

  lemma ActedFits(bars: seq<Bar>, signals: seq<real>, cfg: Config, a: Account, i: int)
    requires SaneInput(bars, signals, cfg) && 0 <= i < |bars| && Fits(bars, signals, cfg, a, i)
    requires Conserves(a, cfg) && Placed(a, i - 1) && a.qty >= 0.0
    ensures var b := Acted(a, i, bars[i], SignalBefore(signals, i), cfg);
            Fits(bars, signals, cfg, b, i) && (b.qty > 0.0 ==> KeptAtOpen(signals, cfg, b.entryAt, i))
  {
    hide Closed, Entered, BuyPrice, HeldUntil, EnteredWell, BoughtFor, IsTrade;
    var signal := SignalBefore(signals, i);
    if i > 0 {
      if a.qty > 0.0 && (signal.value < 0.0 || HeldTooLong(a, i, cfg)) {
        var reason := if signal.value < 0.0 then OnSignal else OnTime;
        CloseFits(bars, signals, cfg, a, i, bars[i].open, reason);
        ClosedIsFlat(a, i, bars[i].open, reason, cfg);
      } else if a.qty == 0.0 && signal.value > 0.0 && !a.halted {
        EnterFits(bars, signals, cfg, a, i);
      }
    }
  }

  lemma StoppedFits(bars: seq<Bar>, signals: seq<real>, cfg: Config, a: Account, i: int)
    requires SaneInput(bars, signals, cfg) && 0 <= i < |bars| && Fits(bars, signals, cfg, a, i)
    requires a.qty > 0.0 ==> KeptAtOpen(signals, cfg, a.entryAt, i)
    ensures Fits(bars, signals, cfg, Stopped(a, i, bars[i], cfg), i + 1)
  {
    hide Closed, EnteredWell, BoughtFor, IsTrade, StopOf, KeptAtOpen;
    if a.qty > 0.0 && a.stopPx.Some? && bars[i].low <= a.stopPx.value {
      CloseFits(bars, signals, cfg, a, i, Min(a.stopPx.value, bars[i].open), OnStop);
      ClosedIsFlat(a, i, Min(a.stopPx.value, bars[i].open), OnStop, cfg);
    }
  }

  lemma ClosedIsFlat(a: Account, i: int, rawPx: real, reason: Reason, cfg: Config)
    ensures Closed(a, i, rawPx, reason, cfg).qty == 0.0
  {
  }

  lemma BarFits(bars: seq<Bar>, signals: seq<real>, cfg: Config, a: Account, i: int)
    requires SaneInput(bars, signals, cfg) && 0 <= i < |bars| && Fits(bars, signals, cfg, a, i)
    requires Conserves(a, cfg) && Placed(a, i - 1) && Solvent(a)
    ensures Fits(bars, signals, cfg, AfterBar(a, i, bars[i], SignalBefore(signals, i), cfg), i + 1)
  {
    hide Acted, Stopped, Closed, EnteredWell, BoughtFor, IsTrade, HeldUntil;
    var a1 := NewDay(a, bars[i]);
    assert OpenCost(a1) == OpenCost(a);
    ActedFits(bars, signals, cfg, a1, i);
    StoppedFits(bars, signals, cfg, Acted(a1, i, bars[i], SignalBefore(signals, i), cfg), i);
  }

  lemma OneMoreBar(bars: seq<Bar>, signals: seq<real>, cfg: Config, n: nat)
    requires SaneInput(bars, signals, cfg) && 0 < n <= |bars|
    ensures AfterBars(bars, signals, cfg, n) ==
            AfterBar(AfterBars(bars, signals, cfg, n - 1), n - 1, bars[n - 1], SignalBefore(signals, n - 1), cfg)
  {
    hide AfterBar;
  }

  lemma {:induction false} EveryBarFits(bars: seq<Bar>, signals: seq<real>, cfg: Config, n: nat)
    requires SaneInput(bars, signals, cfg) && n <= |bars|
    ensures Fits(bars, signals, cfg, AfterBars(bars, signals, cfg, n), n)
  {
    hide *;
    if n == 0 {
      NothingFits(bars, signals, cfg);
    } else {
      OneMoreBar(bars, signals, cfg, n);
      EveryBarFits(bars, signals, cfg, n - 1);
      EveryBarConserves(bars, signals, cfg, n - 1);
      BarFits(bars, signals, cfg, AfterBars(bars, signals, cfg, n - 1), n - 1);
    }
  }

  lemma NothingFits(bars: seq<Bar>, signals: seq<real>, cfg: Config)
    requires SaneInput(bars, signals, cfg)
    ensures Fits(bars, signals, cfg, AfterBars(bars, signals, cfg, 0), 0)
  {
  }

  /** Every trade of a run: entered at the slipped open of a bar that follows a positive signal, for all the cash or for
      the share at risk; held through every bar in between, that is with no sell signal, no time exit and no low at the
      stop; and left for the first reason that came up, at its price: the slipped open after a sell signal or when the
      time was over, the slipped smaller of stop and open on the first bar whose low reached the stop, the bar of the
      entry included, or the last close. */
  lemma EveryTradeIsWell(bars: seq<Bar>, signals: seq<real>, cfg: Config)
    requires SaneInput(bars, signals, cfg)
    ensures var a := Outcome(bars, signals, cfg);
            forall k | 0 <= k < |a.trades| :: IsTrade(bars, signals, cfg, a.trades, k)
  {
    hide AfterBar, Closed, IsTrade, LeftWell, EnteredWell, BoughtFor;
    var n := |bars|;
    EveryBarFits(bars, signals, cfg, n);
    EveryBarConserves(bars, signals, cfg, n);
    var a := AfterBars(bars, signals, cfg, n);
    if n > 0 && a.qty > 0.0 {
      EndFits(bars, signals, cfg, a);
    }
  }

  lemma EndFits(bars: seq<Bar>, signals: seq<real>, cfg: Config, a: Account)
    requires bars != [] && Fits(bars, signals, cfg, a, |bars|) && a.qty > 0.0 && a.entryAt < |bars|
    ensures TradesFit(bars, signals, cfg, Closed(a, |bars| - 1, bars[|bars| - 1].close, AtEnd, cfg))
  {
    hide KeptAtOpen, KeptInside, BoughtFor, IsTrade;
    CloseFits(bars, signals, cfg, a, |bars| - 1, bars[|bars| - 1].close, AtEnd);
  }

  // ------------------------------------------------------------------ what a bar does besides trading

  /** Trading leaves the books of the day alone. */
  ghost predicate SameDayBooks(a: Account, b: Account) {
    a.equity == b.equity && a.dayStart == b.dayStart && a.day == b.day && a.halted == b.halted && a.prevEq == b.prevEq
  }

  lemma TradingKeepsBooks(a: Account, i: int, b: Bar, signal: Option<real>, cfg: Config)
    requires SaneCosts(cfg) && SaneBar(b)
    ensures SameDayBooks(a, Acted(a, i, b, signal, cfg)) && SameDayBooks(a, Stopped(a, i, b, cfg))
  {
    hide Value, Fee, SellPrice, Below, BuyPrice, Units, Notional;
  }

  /** Each bar is marked at its close; a new day starts from the equity of the bar before, with the halt lifted; and the
      halt comes on exactly when the close leaves less than the limit allows. */
  lemma BarMarks(a: Account, i: int, b: Bar, signal: Option<real>, cfg: Config)
    requires SaneCosts(cfg) && SaneBar(b)
    ensures var a' := AfterBar(a, i, b, signal, cfg);
            var sameDay := a.day == Some(b.day);
            && a'.equity == a.equity + [a'.prevEq] && a'.prevEq == a'.cash + a'.qty * b.close && a'.day == Some(b.day)
            && a'.dayStart == (if sameDay then a.dayStart else a.prevEq)
            && (a'.halted <==> (sameDay && a.halted) || FellBelow(cfg, a'.prevEq, a'.dayStart))
  {
    var a1 := NewDay(a, b);
    var a2 := Acted(a1, i, b, signal, cfg);
    TradingKeepsBooks(a1, i, b, signal, cfg);
    TradingKeepsBooks(a2, i, b, signal, cfg);
    MarkExactly(Stopped(a2, i, b, cfg), b, cfg);
    hide Acted, Stopped, Marked, FellBelow;
  }

  lemma MarkExactly(a: Account, b: Bar, cfg: Config)
    ensures var a' := Marked(a, b, cfg);
            && a' == a.(equity := a.equity + [a'.prevEq], prevEq := a'.prevEq, halted := a'.halted)
            && a'.prevEq == a.cash + a.qty * b.close && (a'.halted <==> a.halted || FellBelow(cfg, a'.prevEq, a.dayStart))
  {
  }

  predicate FellBelow(cfg: Config, equity: real, dayStart: real) {
    cfg.dailyLossPct.Some? && cfg.dailyLossPct.value != 0.0 && equity < dayStart * (1.0 - cfg.dailyLossPct.value / 100.0)
  }

  /** The equity curve: a value for each bar, its cash and holdings at its close. */
  lemma {:induction false} EquityIsMarked(bars: seq<Bar>, signals: seq<real>, cfg: Config, k: nat, n: nat)
    requires SaneInput(bars, signals, cfg) && k < n <= |bars|
    ensures |AfterBars(bars, signals, cfg, n).equity| == n
    ensures var a := AfterBars(bars, signals, cfg, k + 1);
            AfterBars(bars, signals, cfg, n).equity[k] == a.prevEq == a.cash + a.qty * bars[k].close
    decreases n
  {
    hide AfterBar;
    EveryBarConserves(bars, signals, cfg, n);
    EveryBarConserves(bars, signals, cfg, n - 1);
    BarMarks(AfterBars(bars, signals, cfg, n - 1), n - 1, bars[n - 1], if n >= 2 then Some(signals[n - 2]) else None, cfg);
    if k < n - 1 {
      EquityIsMarked(bars, signals, cfg, k, n - 1);
    }
  }

  // ------------------------------------------------------------------ the daily halt

  /** Bars s to n - 1 are of one day, and bar s is its first. */
  ghost predicate DayFrom(bars: seq<Bar>, s: int, n: int) {
    && 0 <= s < n <= |bars| && (s > 0 ==> bars[s - 1].day != bars[s].day)
    && forall j | s <= j < n :: bars[j].day == bars[s].day
  }

  /** What a day is measured against: the equity at the last close of the day before. */
  function Baseline(cfg: Config, equity: seq<real>, s: nat): real
    requires s <= |equity|
  {
    if s == 0 then cfg.initial else equity[s - 1]
  }

  ghost predicate LostToday(cfg: Config, equity: seq<real>, s: nat, n: nat)
    requires s <= n <= |equity|
  {
    exists j | s <= j < n :: FellBelow(cfg, equity[j], Baseline(cfg, equity, s))
  }

  /** After bar n - 1 the halt is on exactly if some close of that day so far was below the day's limit. */
  lemma {:induction false} HaltExactly(bars: seq<Bar>, signals: seq<real>, cfg: Config, s: nat, n: nat)
    requires SaneInput(bars, signals, cfg) && DayFrom(bars, s, n)
    ensures var a := AfterBars(bars, signals, cfg, n);
            && |a.equity| == n && a.day == Some(bars[n - 1].day)
            && a.dayStart == Baseline(cfg, a.equity, s) && (a.halted <==> LostToday(cfg, a.equity, s, n))
    decreases n
  {
    hide AfterBar, FellBelow;
    var before, a := AfterBars(bars, signals, cfg, n - 1), AfterBars(bars, signals, cfg, n);
    EveryBarConserves(bars, signals, cfg, n - 1);
    BarMarks(before, n - 1, bars[n - 1], if n >= 2 then Some(signals[n - 2]) else None, cfg);
    if s < n - 1 {
      HaltExactly(bars, signals, cfg, s, n - 1);
      assert Baseline(cfg, a.equity, s) == Baseline(cfg, before.equity, s);
    } else if s > 0 {
      EquityIsMarked(bars, signals, cfg, s - 1, s);
      BarMarks(AfterBars(bars, signals, cfg, s - 1), s - 1, bars[s - 1], if s >= 2 then Some(signals[s - 2]) else None, cfg);
    }
    LostOrBefore(cfg, a.equity, before.equity, s, n);
  }

  lemma LostOrBefore(cfg: Config, all: seq<real>, before: seq<real>, s: nat, n: nat)
    requires s < n == |all| && before == all[..n - 1]
    ensures LostToday(cfg, all, s, n) <==> LostToday(cfg, before, s, n - 1) || FellBelow(cfg, all[n - 1], Baseline(cfg, all, s))
  {
    hide FellBelow;
    if LostToday(cfg, before, s, n - 1) {
      var j :| s <= j < n - 1 && FellBelow(cfg, before[j], Baseline(cfg, before, s));
      assert FellBelow(cfg, all[j], Baseline(cfg, all, s));
    }
    if LostToday(cfg, all, s, n) {
      var j :| s <= j < n && FellBelow(cfg, all[j], Baseline(cfg, all, s));
      assert j < n - 1 ==> FellBelow(cfg, before[j], Baseline(cfg, before, s));
    }
  }

  // ------------------------------------------------------------------ when a position is entered

  lemma PositiveQuotient(x: real, y: real)
    requires y > 0.0
    ensures x / y > 0.0 <==> x > 0.0
  {
    Quotient(x, y);
    SignOfQuotient(x / y, y);
  }

  lemma PositiveProduct(x: real, y: real)
    requires y > 0.0
    ensures x * y > 0.0 <==> x > 0.0
  {
  }

  lemma SizePositive(equity: real, price: real, riskPct: real, stopPct: real)
    ensures PositionSize(equity, price, riskPct, stopPct) > 0.0 <==> equity > 0.0 && price > 0.0 && riskPct > 0.0 && stopPct > 0.0
  {
    if equity > 0.0 && price > 0.0 && riskPct > 0.0 && stopPct > 0.0 {
      PositiveProduct(equity, riskPct / 100.0);
      PositiveQuotient(equity * (riskPct / 100.0), stopPct / 100.0);
      PositiveQuotient(Min(equity * (riskPct / 100.0) / (stopPct / 100.0), equity), price);
    }
  }

  /** There is money, and nothing in the configuration forbids to risk it. */
  predicate Affordable(cfg: Config, cash: real) {
    cash > 0.0 && (cfg.riskSizing && HasStop(cfg) ==> cfg.riskPct > 0.0 && cfg.stopPct.value > 0.0)
  }

  lemma NotionalPositive(cash: real, px: real, cfg: Config)
    requires SaneCosts(cfg) && px > 0.0
    ensures Notional(cash, px, cfg) > 0.0 <==> Affordable(cfg, cash)
  {
    hide PositionSize;
    PositiveQuotient(cash, 1.0 + cfg.feeRate);
    if cfg.riskSizing && HasStop(cfg) {
      SizePositive(cash, px, cfg.riskPct, cfg.stopPct.value);
      PositiveProduct(PositionSize(cash, px, cfg.riskPct, cfg.stopPct.value), px);
    }
  }

  /** A bar enters exactly when nothing is held, the signal before it says buy, its day is not halted and there is
      money for it. */
  lemma EntersExactly(bars: seq<Bar>, signals: seq<real>, cfg: Config, n: nat)
    requires SaneInput(bars, signals, cfg) && 0 < n < |bars|
    ensures var a, a' := AfterBars(bars, signals, cfg, n), AfterBars(bars, signals, cfg, n + 1);
            a'.entryAt == n <==>
              && a.qty == 0.0 && signals[n - 1] > 0.0 && Affordable(cfg, a.cash)
              && !(a.halted && bars[n - 1].day == bars[n].day)
  {
    hide AfterBar, Affordable;
    EntryBefore(bars, signals, cfg, n);
    var a := AfterBars(bars, signals, cfg, n);
    EveryBarConserves(bars, signals, cfg, n);
    BarMarks(AfterBars(bars, signals, cfg, n - 1), n - 1, bars[n - 1], if n >= 2 then Some(signals[n - 2]) else None, cfg);
    BarEnters(a, n, bars[n], signals[n - 1], cfg);
  }

  lemma {:induction false} EntryBefore(bars: seq<Bar>, signals: seq<real>, cfg: Config, n: nat)
    requires SaneInput(bars, signals, cfg) && n <= |bars|
    ensures AfterBars(bars, signals, cfg, n).entryAt < n
  {
    if n > 0 {
      hide AfterBar;
      EntryBefore(bars, signals, cfg, n - 1);
      EntryWithin(AfterBars(bars, signals, cfg, n - 1), n - 1, bars[n - 1], if n >= 2 then Some(signals[n - 2]) else None, cfg);
    }
  }

  lemma EntryWithin(a: Account, i: int, b: Bar, signal: Option<real>, cfg: Config)
    requires SaneCosts(cfg) && SaneBar(b) && a.entryAt < i
    ensures AfterBar(a, i, b, signal, cfg).entryAt <= i
  {
    hide Value, Fee, SellPrice, Below, BuyPrice, Units, Notional;
  }

  lemma BarEnters(a: Account, i: int, b: Bar, signal: real, cfg: Config)
    requires SaneCosts(cfg) && SaneBar(b) && a.entryAt < i && a.qty >= 0.0
    ensures AfterBar(a, i, b, Some(signal), cfg).entryAt == i <==>
              a.qty == 0.0 && signal > 0.0 && Affordable(cfg, a.cash) && !(a.halted && a.day == Some(b.day))
  {
    BuyPriceIsPositive(b, cfg);
    NotionalPositive(a.cash, BuyPrice(b.open, cfg), cfg);
    hide Value, Fee, SellPrice, Below, BuyPrice, Units, Notional, Affordable;
  }

  // ------------------------------------------------------------------ fees

  function FeesOf(cfg: Config, trades: seq<Trade>): real
    decreases |trades|
  {
    if trades == [] then 0.0
    else
      var t := trades[|trades| - 1];
      FeesOf(cfg, trades[..|trades| - 1]) + t.qty * t.entryPx * cfg.feeRate + t.qty * t.exitPx * cfg.feeRate
  }

  ghost predicate FeesFit(cfg: Config, a: Account) {
    a.fees == FeesOf(cfg, a.trades) + if a.qty > 0.0 then a.qty * a.entryPx * cfg.feeRate else 0.0
  }

  lemma CloseCharges(a: Account, i: int, rawPx: real, reason: Reason, cfg: Config)
    requires FeesFit(cfg, a) && a.qty > 0.0
    ensures FeesFit(cfg, Closed(a, i, rawPx, reason, cfg))
  {
    var trades := Closed(a, i, rawPx, reason, cfg).trades;
    assert trades[..|trades| - 1] == a.trades;
  }

  lemma EnterCharges(a: Account, i: int, px: real, cfg: Config)
    requires SaneCosts(cfg) && px > 0.0 && a.qty == 0.0 && FeesFit(cfg, a)
    ensures FeesFit(cfg, Entered(a, i, px, cfg))
  {
    hide Units, Notional, FeesOf;
    if Notional(a.cash, px, cfg) > 0.0 {
      UnitsAtPrice(Notional(a.cash, px, cfg), px);
    }
  }

  lemma OpenCharges(a: Account, i: int, b: Bar, signal: Option<real>, cfg: Config)
    requires SaneCosts(cfg) && SaneBar(b) && FeesFit(cfg, a)
    ensures FeesFit(cfg, Acted(a, i, b, signal, cfg))
  {
    hide Closed, Entered, BuyPrice, FeesFit;
    BuyPriceIsPositive(b, cfg);
    if signal.Some? && a.qty > 0.0 && (signal.value < 0.0 || HeldTooLong(a, i, cfg)) {
      CloseCharges(a, i, b.open, if signal.value < 0.0 then OnSignal else OnTime, cfg);
    } else if signal.Some? && a.qty == 0.0 && signal.value > 0.0 && !a.halted {
      EnterCharges(a, i, BuyPrice(b.open, cfg), cfg);
    }
  }

  lemma BarCharges(a: Account, i: int, b: Bar, signal: Option<real>, cfg: Config)
    requires SaneCosts(cfg) && SaneBar(b) && FeesFit(cfg, a)
    ensures FeesFit(cfg, AfterBar(a, i, b, signal, cfg))
  {
    hide Closed, Acted, FeesOf, Value, Below;
    OpenCharges(NewDay(a, b), i, b, signal, cfg);
    var a2 := Acted(NewDay(a, b), i, b, signal, cfg);
    if a2.qty > 0.0 && a2.stopPx.Some? && b.low <= a2.stopPx.value {
      CloseCharges(a2, i, Min(a2.stopPx.value, b.open), OnStop, cfg);
    }
  }

  lemma {:induction false} EveryBarCharges(bars: seq<Bar>, signals: seq<real>, cfg: Config, n: nat)
    requires SaneInput(bars, signals, cfg) && n <= |bars|
    ensures FeesFit(cfg, AfterBars(bars, signals, cfg, n))
  {
    if n > 0 {
      hide AfterBar, FeesFit;
      EveryBarCharges(bars, signals, cfg, n - 1);
      BarCharges(AfterBars(bars, signals, cfg, n - 1), n - 1, bars[n - 1], if n >= 2 then Some(signals[n - 2]) else None, cfg);
    } else {
      assert FeesFit(cfg, Fresh(cfg));
    }
  }

  /** The fees of a run are those of its trades, both ways. */
  lemma FeesExactly(bars: seq<Bar>, signals: seq<real>, cfg: Config)
    requires SaneInput(bars, signals, cfg)
    ensures var a := Outcome(bars, signals, cfg); a.fees == FeesOf(cfg, a.trades)
  {
    hide Closed;
    EveryBarCharges(bars, signals, cfg, |bars|);
    EveryBarConserves(bars, signals, cfg, |bars|);
    var a := AfterBars(bars, signals, cfg, |bars|);
    if bars != [] && a.qty > 0.0 {
      CloseCharges(a, |bars| - 1, bars[|bars| - 1].close, AtEnd, cfg);
      ClosedIsFlat(a, |bars| - 1, bars[|bars| - 1].close, AtEnd, cfg);
    }
  }
}
