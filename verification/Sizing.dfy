/** Sizing and rounding: how much may be bought, and what the exchange accepts (risk_manager.py,
    engine/risk/manager.py, engine/domain/models.py). */
module Sizing {
  import opened Common

  function Min(a: real, b: real): (m: real) {
    if b < a then b else a
  }

  /** Towards zero, as Decimal's ROUND_DOWN does. */
  function Truncated(x: real): int {
    if x >= 0.0 then x.Floor else -((-x).Floor)
  }

  function FloorToStep(value: real, step: real): real {
    if step <= 0.0 then value else Truncated(value / step) as real * step
  }

  function Steps(n: int, step: real): real {
    n as real * step
  }

  ghost predicate MultipleOf(x: real, step: real) {
    exists n: int :: x == Steps(n, step)
  }

  function PositionSize(equity: real, price: real, riskPct: real, stopPct: real): real {
    if equity <= 0.0 || price <= 0.0 || riskPct <= 0.0 || stopPct <= 0.0 then 0.0
    else
      var value := Min(equity * (riskPct / 100.0) / (stopPct / 100.0), equity);
      Max(0.0, value / price)
  }

  function StopPrice(entry: real, stopPct: real): real {
    entry * (1.0 - stopPct / 100.0)
  }

  /** The limits of one instrument. */
  datatype SymbolRules = SymbolRules(stepSize: real, minQty: real, minNotional: real)

  predicate Tradeable(rules: SymbolRules, qty: real, price: real) {
    qty > 0.0 && qty >= rules.minQty && qty * price >= rules.minNotional
  }

  /** What is wanted, cut down to what is affordable, to whole steps and to what is accepted; 0 is a refusal. */
  function Placeable(wanted: real, price: real, rules: SymbolRules, quoteFree: Option<real>): real {
    var affordable := if quoteFree.Some? && price > 0.0 then Min(wanted, quoteFree.value / price) else wanted;
    var qty := FloorToStep(affordable, rules.stepSize);
    if Tradeable(rules, qty, price) then qty else 0.0
  }

  function SizeEntry(equity: real, price: real, rules: SymbolRules, quoteFree: Option<real>, riskPct: real,
                     stopPct: real): real
  {
    Placeable(PositionSize(equity, price, riskPct, stopPct), price, rules, quoteFree)
  }

  // ------------------------------------------------------------------ rounding

  lemma Quotient(x: real, y: real)
    requires y != 0.0
    ensures x / y * y == x
  {
  }

  lemma Scaled(a: real, b: real, c: real)
    requires a <= b && c >= 0.0
    ensures a * c <= b * c
  {
  }

  lemma NextStep(n: real, q: real, step: real, low: real, value: real)
    requires q < n + 1.0 && step > 0.0 && low == n * step && value == q * step
    ensures value < low + step
  {
    var gap := n + 1.0 - q;
    assert gap * step > 0.0;
    assert gap * step == (n + 1.0) * step - q * step;
    assert (n + 1.0) * step == low + step;
  }

  lemma TruncatedWhole(n: int)
    ensures Truncated(n as real) == n
  {
    assert (n as real).Floor == n && (-(n as real)).Floor == -n;
  }

  lemma StepsOver(n: int, step: real)
    requires step > 0.0
    ensures Steps(n, step) / step == n as real
  {
  }

  lemma SignOfQuotient(q: real, step: real)
    requires step > 0.0
    ensures q * step >= 0.0 ==> q >= 0.0
    ensures q * step <= 0.0 ==> q <= 0.0
  {
    if q < 0.0 {
      assert -q * step > 0.0;
    }
    if q > 0.0 {
      assert q * step > 0.0;
    }
  }

  lemma Within(n: real, q: real, step: real, low: real, value: real)
    requires step > 0.0 && 0.0 <= n <= q < n + 1.0 && low == n * step && value == q * step
    ensures 0.0 <= low <= value < low + step
  {
    Scaled(0.0, n, step);
    Scaled(n, q, step);
    NextStep(n, q, step, low, value);
  }

  lemma FloorWithin(q: real, step: real)
    requires step > 0.0 && q >= 0.0
    ensures 0.0 <= Steps(q.Floor, step) <= q * step < Steps(q.Floor, step) + step
  {
    Within(q.Floor as real, q, step, Steps(q.Floor, step), q * step);
  }

  lemma Opposite(n: int, q: real, step: real)
    ensures Steps(-n, step) == -Steps(n, step) && (-q) * step == -(q * step)
  {
    assert (-n) as real == -(n as real);
  }

  lemma TruncatedWithin(q: real, step: real)
    requires step > 0.0
    ensures q >= 0.0 ==> 0.0 <= Steps(Truncated(q), step) <= q * step < Steps(Truncated(q), step) + step
    ensures q <= 0.0 ==> Steps(Truncated(q), step) - step < q * step <= Steps(Truncated(q), step) <= 0.0
  {
    hide Steps;
    FloorWithin(if q >= 0.0 then q else -q, step);
    Opposite((-q).Floor, q, step);
  }

  lemma RoundedIsTruncated(value: real, step: real)
    requires step > 0.0
    ensures FloorToStep(value, step) == Steps(Truncated(value / step), step) && MultipleOf(FloorToStep(value, step), step)
  {
  }

  /** Rounding goes towards zero by less than a step, onto a multiple of the step. */
  lemma RoundsDown(value: real, step: real)
    requires step > 0.0
    ensures MultipleOf(FloorToStep(value, step), step)
    ensures value >= 0.0 ==> 0.0 <= FloorToStep(value, step) <= value < FloorToStep(value, step) + step
    ensures value <= 0.0 ==> FloorToStep(value, step) - step < value <= FloorToStep(value, step) <= 0.0
  {
    var q := value / step;
    Quotient(value, step);
    RoundedIsTruncated(value, step);
    SignOfQuotient(q, step);
    hide FloorToStep, MultipleOf, Steps, Truncated;
    TruncatedWithin(q, step);
  }

  lemma MoreSteps(n: int, m: int, step: real)
    requires n < m && step > 0.0
    ensures Steps(n, step) + step <= Steps(m, step)
  {
    var x, y := n as real, m as real;
    assert y - x >= 1.0;
    Scaled(1.0, y - x, step);
    assert (y - x) * step == y * step - x * step;
  }

  /** No multiple of the step between zero and the value is larger. */
  lemma RoundsToLargest(value: real, step: real, m: int)
    requires step > 0.0 && 0.0 <= Steps(m, step) <= value
    ensures Steps(m, step) <= FloorToStep(value, step)
  {
    RoundsDown(value, step);
    var n := Truncated(value / step);
    assert FloorToStep(value, step) == Steps(n, step);
    if m > n {
      MoreSteps(n, m, step);
    } else if m < n {
      MoreSteps(m, n, step);
    }
  }

  /** Rounding a second time, as submission does, changes nothing. */
  lemma RoundingIsIdempotent(value: real, step: real)
    ensures FloorToStep(FloorToStep(value, step), step) == FloorToStep(value, step)
  {
    if step > 0.0 {
      var n := Truncated(value / step);
      assert FloorToStep(value, step) == Steps(n, step);
      StepsOver(n, step);
      TruncatedWhole(n);
    }
  }

  // ------------------------------------------------------------------ sizing

  lemma SizeBounds(equity: real, price: real, riskPct: real, stopPct: real)
    requires price > 0.0
    ensures var size := PositionSize(equity, price, riskPct, stopPct);
            && size >= 0.0
            && (size > 0.0 ==> size * price <= equity && size * (price - StopPrice(price, stopPct)) <= equity * (riskPct / 100.0))
  {
    if equity > 0.0 && riskPct > 0.0 && stopPct > 0.0 {
      var risk, stop := equity * (riskPct / 100.0), stopPct / 100.0;
      var value := Min(risk / stop, equity);
      Quotient(risk, stop);
      Quotient(value, price);
      assert risk > 0.0 && value >= 0.0 && value / price >= 0.0;
      Scaled(value, risk / stop, stop);
      LossAtStop(value / price, price, stopPct);
    }
  }

  lemma LossAtStop(qty: real, price: real, stopPct: real)
    ensures qty * (price - StopPrice(price, stopPct)) == qty * price * (stopPct / 100.0)
  {
  }

  lemma PlaceableIsAffordable(wanted: real, price: real, rules: SymbolRules, quoteFree: Option<real>)
    requires price > 0.0 && Placeable(wanted, price, rules, quoteFree) != 0.0
    ensures var qty := Placeable(wanted, price, rules, quoteFree);
            && Tradeable(rules, qty, price) && qty <= wanted
            && (rules.stepSize > 0.0 ==> MultipleOf(qty, rules.stepSize))
            && FloorToStep(qty, rules.stepSize) == qty
            && (quoteFree.Some? ==> qty * price <= quoteFree.value)
  {
    var affordable := if quoteFree.Some? then Min(wanted, quoteFree.value / price) else wanted;
    RoundingIsIdempotent(affordable, rules.stepSize);
    if rules.stepSize > 0.0 {
      RoundsDown(affordable, rules.stepSize);
    }
    if quoteFree.Some? {
      AtPrice(FloorToStep(affordable, rules.stepSize), quoteFree.value, price);
    }
  }

  /** Buying less than what is bounded is bounded too. */
  lemma LessIsBounded(qty: real, wanted: real, equity: real, risk: real, price: real, stopPct: real)
    requires qty <= wanted && price > 0.0 && stopPct > 0.0
    requires wanted * price <= equity && wanted * (price - StopPrice(price, stopPct)) <= risk
    ensures qty * price <= equity && qty * (price - StopPrice(price, stopPct)) <= risk
  {
    Scaled(qty, wanted, price);
    SmallerLoss(qty, wanted, price, stopPct);
  }

  lemma WantedNeedsStop(equity: real, price: real, riskPct: real, stopPct: real)
    requires PositionSize(equity, price, riskPct, stopPct) > 0.0
    ensures stopPct > 0.0
  {
  }

  /** What is bought is a multiple of the step, is covered by the free quote balance and by the equity, loses
      at most the risk share when closed at the stop, and stays as it is when it is rounded again. */
  lemma EntryIsBounded(equity: real, price: real, rules: SymbolRules, quoteFree: Option<real>, riskPct: real, stopPct: real)
    requires price > 0.0 && SizeEntry(equity, price, rules, quoteFree, riskPct, stopPct) != 0.0
    ensures var qty := SizeEntry(equity, price, rules, quoteFree, riskPct, stopPct);
            && Tradeable(rules, qty, price)
            && (rules.stepSize > 0.0 ==> MultipleOf(qty, rules.stepSize))
            && FloorToStep(qty, rules.stepSize) == qty
            && qty * price <= equity
            && (quoteFree.Some? ==> qty * price <= quoteFree.value)
            && qty * (price - StopPrice(price, stopPct)) <= equity * (riskPct / 100.0)
  {
    hide PositionSize, Placeable;
    var wanted := PositionSize(equity, price, riskPct, stopPct);
    PlaceableIsAffordable(wanted, price, rules, quoteFree);
    SizeBounds(equity, price, riskPct, stopPct);
    WantedNeedsStop(equity, price, riskPct, stopPct);
    LessIsBounded(Placeable(wanted, price, rules, quoteFree), wanted, equity, equity * (riskPct / 100.0), price, stopPct);
  }

  lemma AtPrice(qty: real, quote: real, price: real)
    requires price > 0.0 && qty <= quote / price
    ensures qty * price <= quote
  {
    Quotient(quote, price);
    Scaled(qty, quote / price, price);
  }

  lemma SmallerLoss(qty: real, wanted: real, price: real, stopPct: real)
    requires qty * price <= wanted * price && stopPct >= 0.0
    ensures qty * (price - StopPrice(price, stopPct)) <= wanted * (price - StopPrice(price, stopPct))
  {
    LossAtStop(qty, price, stopPct);
    LossAtStop(wanted, price, stopPct);
    Scaled(qty * price, wanted * price, stopPct / 100.0);
  }

  // ------------------------------------------------------------------ daily loss

  /** The persisted state of one UTC day. */
  datatype Daily = Daily(date: int, dayStart: real, halted: bool)

  predicate LossReached(dayStart: real, equity: real, limitPct: real) {
    dayStart > 0.0 && (dayStart - equity) / dayStart * 100.0 >= limitPct
  }

  datatype Observation = Observation(date: int, equity: real)

  function DailyAfter(day: Option<Daily>, o: Observation, limitPct: real): Daily {
    var d := if day.Some? && day.value.date == o.date then day.value else Daily(o.date, o.equity, false);
    d.(halted := d.halted || LossReached(d.dayStart, o.equity, limitPct))
  }

  class RiskManager {
    var daily: Option<Daily>
    const limitPct: real

    constructor (limitPct: real)
      ensures daily.None? && this.limitPct == limitPct
    {
      daily, this.limitPct := None, limitPct;
    }

    method UpdateDaily(equity: real, today: int) returns (halted: bool)
      modifies this`daily
      ensures daily == Some(DailyAfter(old(daily), Observation(today, equity), limitPct))
      ensures halted == daily.value.halted
    {
      var st := Daily(today, equity, false);
      if daily.Some? && daily.value.date == today {
        st := daily.value;
      }
      halted := st.halted;
      if st.dayStart > 0.0 {
        var drawdownPct := (st.dayStart - equity) / st.dayStart * 100.0;
        if drawdownPct >= limitPct {
          halted := true;
        }
      }
      daily := Some(st.(halted := halted));
    }
  }

  function DailyRun(obs: seq<Observation>, limitPct: real): Option<Daily>
    decreases |obs|
  {
    if obs == [] then None
    else Some(DailyAfter(DailyRun(obs[..|obs| - 1], limitPct), obs[|obs| - 1], limitPct))
  }

  /** Where the last uninterrupted stretch of one date begins. */
  function DayBegin(obs: seq<Observation>): (k: nat)
    requires obs != []
    ensures k < |obs| && forall j | k <= j < |obs| :: obs[j].date == obs[|obs| - 1].date
    ensures k > 0 ==> obs[k - 1].date != obs[k].date
    decreases |obs|
  {
    var n := |obs| - 1;
    if n > 0 && obs[n - 1].date == obs[n].date then DayBegin(obs[..n]) else n
  }

  /** After any run of cycles entries are halted exactly when, since the day began, the equity has once been
      the limit below what it was at the day's first cycle: recovering does not lift the halt, midnight does. */
  lemma {:induction false} HaltedExactly(obs: seq<Observation>, limitPct: real)
    requires obs != []
    ensures var day := DailyRun(obs, limitPct);
            var begin := DayBegin(obs);
            && day.Some? && day.value.date == obs[|obs| - 1].date && day.value.dayStart == obs[begin].equity
            && (day.value.halted <==>
                  exists j :: begin <= j < |obs| && LossReached(obs[begin].equity, obs[j].equity, limitPct))
    decreases |obs|
  {
    var n := |obs| - 1;
    var begin := DayBegin(obs);
    if n > 0 {
      var rest := obs[..n];
      HaltedExactly(rest, limitPct);
      if obs[n - 1].date == obs[n].date {
        assert DayBegin(rest) == begin;
        assert forall j | 0 <= j < n :: rest[j] == obs[j];
        if j :| begin <= j < n && LossReached(obs[begin].equity, rest[j].equity, limitPct) {
          assert LossReached(obs[begin].equity, obs[j].equity, limitPct);
        }
        if j :| begin <= j < |obs| && LossReached(obs[begin].equity, obs[j].equity, limitPct) {
          assert j < n ==> LossReached(rest[begin].equity, rest[j].equity, limitPct);
        }
      }
    }
    assert LossReached(obs[begin].equity, obs[n].equity, limitPct) ==>
        exists j :: begin <= j < |obs| && LossReached(obs[begin].equity, obs[j].equity, limitPct);
  }
}
