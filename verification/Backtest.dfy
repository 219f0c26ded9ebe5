/** The bar loop of the backtester (research/backtest.py). */
module Backtest {
  import opened Common
  import opened Sizing

  datatype Bar = Bar(open: real, low: real, close: real, day: int)

  datatype Config = Config(
    initial: real, feeRate: real, slippageBps: real, riskSizing: bool, riskPct: real,
    stopPct: Option<real>, dailyLossPct: Option<real>, maxHold: Option<int>)

  datatype Reason = OnSignal | OnTime | OnStop | AtEnd

  datatype Trade = Trade(entryAt: int, entryPx: real, exitAt: int, exitPx: real, qty: real, pnl: real, reason: Reason)

  datatype Account = Account(
    cash: real, qty: real, entryPx: real, stopPx: Option<real>, entryAt: int, entryFee: real, fees: real,
    trades: seq<Trade>, equity: seq<real>, dayStart: real, day: Option<int>, halted: bool, prevEq: real)

  /** Positive prices and costs between nothing and everything. */
  predicate SaneBar(b: Bar) {
    b.open > 0.0 && b.low > 0.0 && b.close > 0.0
  }

  predicate SaneCosts(cfg: Config) {
    cfg.initial >= 0.0 && 0.0 <= cfg.feeRate <= 1.0 && 0.0 <= cfg.slippageBps <= 10000.0
  }

  /** An option that is set and not zero. */
  predicate Set(x: Option<real>) {
    x.Some? && x.value != 0.0
  }

  function Slip(cfg: Config): real {
    cfg.slippageBps / 10000.0
  }

  function Fresh(cfg: Config): Account {
    Account(cfg.initial, 0.0, 0.0, None, -1, 0.0, 0.0, [], [], cfg.initial, None, false, cfg.initial)
  }

  // ------------------------------------------------------------------ one bar

  function Value(qty: real, px: real): real { qty * px }
  function Fee(amount: real, cfg: Config): real { amount * cfg.feeRate }
  function BuyPrice(rawPx: real, cfg: Config): real { rawPx * (1.0 + Slip(cfg)) }
  function SellPrice(rawPx: real, cfg: Config): real { rawPx * (1.0 - Slip(cfg)) }
  function Below(x: real, pct: real): real { x * (1.0 - pct / 100.0) }

  function Closed(a: Account, i: int, rawPx: real, reason: Reason, cfg: Config): Account {
    var px := SellPrice(rawPx, cfg);
    var proceeds := Value(a.qty, px);
    var fee := Fee(proceeds, cfg);
    var pnl := proceeds - fee - (Value(a.qty, a.entryPx) + a.entryFee);
    a.(cash := a.cash + (proceeds - fee), fees := a.fees + fee, qty := 0.0,
       trades := a.trades + [Trade(a.entryAt, a.entryPx, i, px, a.qty, pnl, reason)])
  }

  /** With the fee on top it takes all the cash. */
  function Most(cash: real, cfg: Config): real
    requires cfg.feeRate >= 0.0
  {
    cash / (1.0 + cfg.feeRate)
  }

  function Notional(cash: real, px: real, cfg: Config): real
    requires cfg.feeRate >= 0.0
  {
    if cfg.riskSizing && Set(cfg.stopPct) then
      Min(Value(PositionSize(cash, px, cfg.riskPct, cfg.stopPct.value), px), Most(cash, cfg))
    else Most(cash, cfg)
  }

  function Units(notional: real, px: real): real
    requires px > 0.0
  {
    notional / px
  }

  function Entered(a: Account, i: int, px: real, cfg: Config): Account
    requires cfg.feeRate >= 0.0 && px > 0.0
  {
    var notional := Notional(a.cash, px, cfg);
    if notional <= 0.0 then a
    else
      var fee := Fee(notional, cfg);
      a.(entryFee := fee, cash := a.cash - (notional + fee), fees := a.fees + fee, qty := Units(notional, px), entryPx := px,
         entryAt := i, stopPx := if Set(cfg.stopPct) then Some(Below(px, cfg.stopPct.value)) else None)
  }

  predicate HeldTooLong(a: Account, i: int, cfg: Config) {
    cfg.maxHold.Some? && cfg.maxHold.value != 0 && i - a.entryAt >= cfg.maxHold.value
  }

  function NewDay(a: Account, b: Bar): Account {
    if a.day == Some(b.day) then a else a.(day := Some(b.day), dayStart := a.prevEq, halted := false)
  }

  /** At the open, on the signal of the bar before. */
  function Acted(a: Account, i: int, b: Bar, signal: Option<real>, cfg: Config): Account
    requires SaneCosts(cfg) && SaneBar(b)
  {
    if signal.None? then a
    else if a.qty > 0.0 && (signal.value < 0.0 || HeldTooLong(a, i, cfg)) then
      Closed(a, i, b.open, if signal.value < 0.0 then OnSignal else OnTime, cfg)
    else if a.qty == 0.0 && signal.value > 0.0 && !a.halted then
      BuyPriceIsPositive(b, cfg);
      Entered(a, i, BuyPrice(b.open, cfg), cfg)
    else a
  }

  lemma BuyPriceIsPositive(b: Bar, cfg: Config)
    requires SaneCosts(cfg) && SaneBar(b)
    ensures BuyPrice(b.open, cfg) > 0.0
  {
  }

  function Stopped(a: Account, i: int, b: Bar, cfg: Config): Account {
    if a.qty > 0.0 && a.stopPx.Some? && b.low <= a.stopPx.value then Closed(a, i, Min(a.stopPx.value, b.open), OnStop, cfg)
    else a
  }

  function Marked(a: Account, b: Bar, cfg: Config): Account {
    var eq := a.cash + Value(a.qty, b.close);
    a.(equity := a.equity + [eq], prevEq := eq,
       halted := a.halted || (Set(cfg.dailyLossPct) && eq < Below(a.dayStart, cfg.dailyLossPct.value)))
  }

  function AfterBar(a: Account, i: int, b: Bar, signal: Option<real>, cfg: Config): Account
    requires SaneCosts(cfg) && SaneBar(b)
  {
    Marked(Stopped(Acted(NewDay(a, b), i, b, signal, cfg), i, b, cfg), b, cfg)
  }

  ghost predicate SaneInput(bars: seq<Bar>, signals: seq<real>, cfg: Config) {
    SaneCosts(cfg) && |signals| == |bars| && forall k | 0 <= k < |bars| :: SaneBar(bars[k])
  }

  /** The account after the first n bars. */
  function AfterBars(bars: seq<Bar>, signals: seq<real>, cfg: Config, n: nat): Account
    requires SaneInput(bars, signals, cfg) && n <= |bars|
  {
    if n == 0 then Fresh(cfg)
    else
      AfterBar(AfterBars(bars, signals, cfg, n - 1), n - 1, bars[n - 1],
               if n >= 2 then Some(signals[n - 2]) else None, cfg)
  }

  /** What is still held at the end is sold at the last close. */
  function Outcome(bars: seq<Bar>, signals: seq<real>, cfg: Config): Account
    requires SaneInput(bars, signals, cfg)
  {
    var n := |bars|;
    var a := AfterBars(bars, signals, cfg, n);
    if n > 0 && a.qty > 0.0 && |a.equity| == n then
      var b := Closed(a, n - 1, bars[n - 1].close, AtEnd, cfg);
      b.(equity := b.equity[n - 1 := b.cash])
    else a
  }

  // ------------------------------------------------------------------ the loop, in place

  class Simulation {
    const cfg: Config
    var cash: real
    var qty: real
    var entryPx: real
    var stopPx: Option<real>
    var entryAt: int
    var entryFee: real
    var fees: real
    var trades: seq<Trade>
    var equity: seq<real>
    var dayStart: real
    var day: Option<int>
    var halted: bool
    var prevEq: real

    function State(): Account
      reads this
    {
      Account(cash, qty, entryPx, stopPx, entryAt, entryFee, fees, trades, equity, dayStart, day, halted, prevEq)
    }

    constructor (cfg: Config)
      ensures State() == Fresh(cfg) && this.cfg == cfg
    {
      this.cfg := cfg;
      cash, qty, entryPx, stopPx, entryAt, entryFee, fees := cfg.initial, 0.0, 0.0, None, -1, 0.0, 0.0;
      trades, equity, dayStart, day, halted, prevEq := [], [], cfg.initial, None, false, cfg.initial;
    }

    method ClosePosition(i: int, rawPx: real, reason: Reason)
      modifies this
      ensures State() == Closed(old(State()), i, rawPx, reason, cfg)
    {
      hide Value, Fee, SellPrice;
      var px := SellPrice(rawPx, cfg);
      var proceeds := Value(qty, px);
      var fee := Fee(proceeds, cfg);
      cash := cash + (proceeds - fee);
      fees := fees + fee;
      var pnl := proceeds - fee - (Value(qty, entryPx) + entryFee);
      trades := trades + [Trade(entryAt, entryPx, i, px, qty, pnl, reason)];
      qty := 0.0;
    }

    method Enter(i: int, px: real)
      requires cfg.feeRate >= 0.0 && px > 0.0
      modifies this
      ensures State() == Entered(old(State()), i, px, cfg)
    {
      hide Value, Fee, Most, Units, Below, PositionSize;
      var notional := Most(cash, cfg);
      if cfg.riskSizing && Set(cfg.stopPct) {
        var units := PositionSize(cash, px, cfg.riskPct, cfg.stopPct.value);
        notional := Min(Value(units, px), Most(cash, cfg));
      }
      if notional > 0.0 {
        entryFee := Fee(notional, cfg);
        cash := cash - (notional + entryFee);
        fees := fees + entryFee;
        qty, entryPx, entryAt := Units(notional, px), px, i;
        stopPx := if Set(cfg.stopPct) then Some(Below(px, cfg.stopPct.value)) else None;
      }
    }

    method OnOpen(i: int, b: Bar, signal: Option<real>)
      requires SaneCosts(cfg) && SaneBar(b)
      modifies this
      ensures State() == Acted(old(State()), i, b, signal, cfg)
    {
      hide Closed, Entered, BuyPrice;
      if signal.Some? {
        var s := signal.value;
        if qty > 0.0 && (s < 0.0 || HeldTooLong(State(), i, cfg)) {
          ClosePosition(i, b.open, if s < 0.0 then OnSignal else OnTime);
        } else if qty == 0.0 && s > 0.0 && !halted {
          BuyPriceIsPositive(b, cfg);
          Enter(i, BuyPrice(b.open, cfg));
        }
      }
    }

    method CheckStop(i: int, b: Bar)
      modifies this
      ensures State() == Stopped(old(State()), i, b, cfg)
    {
      if qty > 0.0 && stopPx.Some? && b.low <= stopPx.value {
        ClosePosition(i, Min(stopPx.value, b.open), OnStop);
      }
    }

    method MarkToMarket(b: Bar)
      modifies this
      ensures State() == Marked(old(State()), b, cfg)
    {
      hide Value, Below;
      var eq := cash + Value(qty, b.close);
      equity, prevEq := equity + [eq], eq;
      if Set(cfg.dailyLossPct) && eq < Below(dayStart, cfg.dailyLossPct.value) {
        halted := true;
      }
    }

    method OnBar(i: int, b: Bar, signal: Option<real>)
      requires SaneCosts(cfg) && SaneBar(b)
      modifies this
      ensures State() == AfterBar(old(State()), i, b, signal, cfg)
    {
      hide Acted, Stopped, Marked;
      if day != Some(b.day) {
        day, dayStart, halted := Some(b.day), prevEq, false;
      }
      OnOpen(i, b, signal);
      CheckStop(i, b);
      MarkToMarket(b);
    }
  }

  method Run(bars: seq<Bar>, signals: seq<real>, cfg: Config) returns (result: Account)
    requires SaneInput(bars, signals, cfg)
    ensures result == Outcome(bars, signals, cfg)
  {
    var sim := new Simulation(cfg);
    var n := |bars|;
    for i := 0 to n
      invariant sim.State() == AfterBars(bars, signals, cfg, i) && sim.cfg == cfg && |sim.equity| == i
    {
      sim.OnBar(i, bars[i], if i > 0 then Some(signals[i - 1]) else None);
    }
    if sim.qty > 0.0 {
      sim.ClosePosition(n - 1, bars[n - 1].close, AtEnd);
      sim.equity := sim.equity[n - 1 := sim.cash];
    }
    result := sim.State();
  }
}
