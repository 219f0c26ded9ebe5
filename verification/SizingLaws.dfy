/** How much exactly is bought, and when exactly a day is lost (risk_manager.py, engine/risk/manager.py). */
module SizingLaws {
  import opened Common
  import opened Sizing

  // ------------------------------------------------------------------ the size

  lemma Undivided(x: real, share: real)
    requires share != 0.0
    ensures x / share * share == x
  {
  }

  /** With sane inputs the size spends all the equity or loses exactly the risked share of it at the stop, whichever is
      less; with anything else nothing is bought. */
  lemma SizeExactly(equity: real, price: real, riskPct: real, stopPct: real)
    ensures var size := PositionSize(equity, price, riskPct, stopPct);
            if equity > 0.0 && price > 0.0 && riskPct > 0.0 && stopPct > 0.0 then
              && size > 0.0 && size * price <= equity && size * price * (stopPct / 100.0) <= equity * (riskPct / 100.0)
              && (size * price == equity || size * price * (stopPct / 100.0) == equity * (riskPct / 100.0))
            else size == 0.0
  {
    if equity > 0.0 && price > 0.0 && riskPct > 0.0 && stopPct > 0.0 {
      var risk, stop := equity * (riskPct / 100.0), stopPct / 100.0;
      var value := Min(risk / stop, equity);
      Undivided(risk, stop);
      Undivided(value, price);
      assert risk > 0.0;
      SignOfQuotient(risk / stop, stop);
      assert value > 0.0;
      SignOfQuotient(value / price, price);
      Scaled(value, risk / stop, stop);
    }
  }

  // ------------------------------------------------------------------ rounding to what the exchange takes

  /** A quantity that is wanted and can be paid for. */
  ghost predicate Fits(qty: real, wanted: real, price: real, quoteFree: Option<real>) {
    0.0 <= qty <= wanted && (quoteFree.Some? && price > 0.0 ==> qty * price <= quoteFree.value)
  }

  /** The larger of two quantities is accepted if the smaller is. */
  lemma LargerIsTradeable(rules: SymbolRules, small: real, large: real, price: real)
    requires small <= large && price >= 0.0 && Tradeable(rules, small, price)
    ensures Tradeable(rules, large, price)
  {
    Scaled(small, large, price);
  }

  lemma FitsBelow(qty: real, wanted: real, price: real, quoteFree: Option<real>)
    ensures Fits(qty, wanted, price, quoteFree) <==>
            0.0 <= qty <= (if quoteFree.Some? && price > 0.0 then Min(wanted, quoteFree.value / price) else wanted)
  {
    if quoteFree.Some? && price > 0.0 {
      Undivided(quoteFree.value, price);
      if qty <= quoteFree.value / price {
        Scaled(qty, quoteFree.value / price, price);
      } else {
        var gap := qty - quoteFree.value / price;
        assert gap * price > 0.0;
        assert gap * price == qty * price - quoteFree.value;
      }
    }
  }

  /** What is placed is the largest number of steps that is wanted and can be paid for, if the exchange takes that
      much; and nothing is placed exactly when it takes no number of steps that fits. */
  lemma PlaceableExactly(wanted: real, price: real, rules: SymbolRules, quoteFree: Option<real>)
    requires rules.stepSize > 0.0
    ensures var qty := Placeable(wanted, price, rules, quoteFree);
            && (qty != 0.0 ==>
                  && MultipleOf(qty, rules.stepSize) && Fits(qty, wanted, price, quoteFree) && Tradeable(rules, qty, price)
                  && forall n: int | Fits(Steps(n, rules.stepSize), wanted, price, quoteFree) :: Steps(n, rules.stepSize) <= qty)
            && (price >= 0.0 ==>
                  (qty == 0.0 <==> forall n: int | Fits(Steps(n, rules.stepSize), wanted, price, quoteFree) ::
                                     !Tradeable(rules, Steps(n, rules.stepSize), price)))
  {
    hide Fits, Tradeable, MultipleOf, Steps;
    var affordable := if quoteFree.Some? && price > 0.0 then Min(wanted, quoteFree.value / price) else wanted;
    var floor := FloorToStep(affordable, rules.stepSize);
    Floored(affordable, rules.stepSize);
    FitsBelow(floor, wanted, price, quoteFree);
    forall n: int | Fits(Steps(n, rules.stepSize), wanted, price, quoteFree)
      ensures Steps(n, rules.stepSize) <= floor
      ensures price >= 0.0 && Tradeable(rules, Steps(n, rules.stepSize), price) ==> Tradeable(rules, floor, price)
    {
      FitsBelow(Steps(n, rules.stepSize), wanted, price, quoteFree);
      RoundsToLargest(affordable, rules.stepSize, n);
      if price >= 0.0 && Tradeable(rules, Steps(n, rules.stepSize), price) {
        LargerIsTradeable(rules, Steps(n, rules.stepSize), floor, price);
      }
    }
    OnlyPositive(rules, floor, price);
  }

  lemma Floored(value: real, step: real)
    requires step > 0.0
    ensures var floor := FloorToStep(value, step);
            && (exists n: int :: floor == Steps(n, step)) && MultipleOf(floor, step)
            && (value >= 0.0 ==> 0.0 <= floor <= value) && (value <= 0.0 ==> floor <= 0.0)
  {
    RoundsDown(value, step);
    RoundedIsTruncated(value, step);
    assert FloorToStep(value, step) == Steps(Truncated(value / step), step);
  }

  lemma OnlyPositive(rules: SymbolRules, qty: real, price: real)
    ensures Tradeable(rules, qty, price) ==> qty > 0.0
  {
  }

  /** An entry: a whole number of steps that the equity, the free balance and the risked share all cover, and no larger
      one is covered by all three; or none at all, exactly when the exchange takes no such number. */
  lemma EntryExactly(equity: real, price: real, rules: SymbolRules, quoteFree: Option<real>, riskPct: real, stopPct: real)
    requires rules.stepSize > 0.0 && equity > 0.0 && price > 0.0 && riskPct > 0.0 && stopPct > 0.0
    ensures var qty := SizeEntry(equity, price, rules, quoteFree, riskPct, stopPct);
            && (qty != 0.0 ==>
                  && MultipleOf(qty, rules.stepSize) && Covered(qty, equity, price, quoteFree, riskPct, stopPct)
                  && Tradeable(rules, qty, price)
                  && forall n: int | Covered(Steps(n, rules.stepSize), equity, price, quoteFree, riskPct, stopPct) ::
                       Steps(n, rules.stepSize) <= qty)
            && (qty == 0.0 <==> forall n: int | Covered(Steps(n, rules.stepSize), equity, price, quoteFree, riskPct, stopPct) ::
                                  !Tradeable(rules, Steps(n, rules.stepSize), price))
  {
    hide Fits, Covered, Tradeable, MultipleOf, Steps, PositionSize, Placeable;
    var wanted := PositionSize(equity, price, riskPct, stopPct);
    PlaceableExactly(wanted, price, rules, quoteFree);
    forall qty: real
      ensures Covered(qty, equity, price, quoteFree, riskPct, stopPct) <==> Fits(qty, wanted, price, quoteFree)
    {
      CoveredExactly(qty, equity, price, quoteFree, riskPct, stopPct);
    }
  }

  ghost predicate Covered(qty: real, equity: real, price: real, quoteFree: Option<real>, riskPct: real, stopPct: real) {
    && 0.0 <= qty && qty * price <= equity && qty * price * (stopPct / 100.0) <= equity * (riskPct / 100.0)
    && (quoteFree.Some? ==> qty * price <= quoteFree.value)
  }

  lemma CoveredExactly(qty: real, equity: real, price: real, quoteFree: Option<real>, riskPct: real, stopPct: real)
    requires equity > 0.0 && price > 0.0 && riskPct > 0.0 && stopPct > 0.0
    ensures Covered(qty, equity, price, quoteFree, riskPct, stopPct) <==>
            Fits(qty, PositionSize(equity, price, riskPct, stopPct), price, quoteFree)
  {
    var wanted := PositionSize(equity, price, riskPct, stopPct);
    SizeExactly(equity, price, riskPct, stopPct);
    hide PositionSize;
    var stop := stopPct / 100.0;
    if qty <= wanted {
      Scaled(qty, wanted, price);
      Scaled(qty * price, wanted * price, stop);
    } else {
      StrictlyScaled(wanted, qty, price);
      StrictlyScaled(wanted * price, qty * price, stop);
    }
  }

  lemma StrictlyScaled(a: real, b: real, c: real)
    requires a < b && c > 0.0
    ensures a * c < b * c
  {
    assert (b - a) * c > 0.0;
    assert (b - a) * c == b * c - a * c;
  }

  // ------------------------------------------------------------------ a lost day

  /** The day is lost exactly when its limit, or more, of what it started with is gone. */
  lemma LossExactly(dayStart: real, equity: real, limitPct: real)
    ensures LossReached(dayStart, equity, limitPct) <==>
            dayStart > 0.0 && dayStart - equity >= dayStart * (limitPct / 100.0)
  {
    if dayStart > 0.0 {
      var share := (dayStart - equity) / dayStart;
      Undivided(dayStart - equity, dayStart);
      assert share * dayStart == dayStart - equity;
      if share >= limitPct / 100.0 {
        Scaled(limitPct / 100.0, share, dayStart);
      } else {
        StrictlyScaled(share, limitPct / 100.0, dayStart);
      }
    }
  }
}
