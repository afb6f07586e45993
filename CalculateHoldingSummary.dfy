/**
 * The per-holding calculator: one holding in, six optional derived figures
 * out. A figure is present only when its own operands are, and a percentage
 * over a zero base is absent rather than an error.
 */
module CalculateHoldingSummary {
  import opened Wrappers
  import opened DomainModel
  import RealArith

  /** Market value of the position: present exactly when the price and the quantity are. */
  function CalculateCurrentValue(h: Holding): (r: Option<real>)
    ensures r.Some? <==> h.ltp.Some? && h.quantity.Some?
  {
    if h.ltp.Some? && h.quantity.Some? then Some(h.ltp.value * (h.quantity.value as real)) else None
  }

  /** Cost of the position: present exactly when the average price and the quantity are. */
  function CalculateTotalInvestment(h: Holding): (r: Option<real>)
    ensures r.Some? <==> h.avgPrice.Some? && h.quantity.Some?
  {
    if h.avgPrice.Some? && h.quantity.Some? then Some(h.avgPrice.value * (h.quantity.value as real)) else None
  }

  /** The gain: present exactly when both operands are, and the investment plus the gain is the value. */
  function CalculateTotalPnl(currentValue: Option<real>, totalInvestment: Option<real>): (r: Option<real>)
    ensures r.Some? <==> currentValue.Some? && totalInvestment.Some?
    ensures r.Some? ==> totalInvestment.value + r.value == currentValue.value
  {
    if currentValue.Some? && totalInvestment.Some? then Some(currentValue.value - totalInvestment.value) else None
  }

  /** The gain as a percentage of the investment: absent over a zero investment. */
  function CalculateTotalPnlPercentage(totalPnl: Option<real>, totalInvestment: Option<real>): (r: Option<real>)
    ensures r.Some? <==> totalPnl.Some? && totalInvestment.Some? && totalInvestment.value != 0.0
    ensures r.Some? ==> r.value * totalInvestment.value == totalPnl.value * 100.0
  {
    if totalPnl.Some? && totalInvestment.Some? && totalInvestment.value != 0.0
    then
      RealArith.PercentageBack(totalPnl.value, totalInvestment.value);
      Some((totalPnl.value / totalInvestment.value) * 100.0)
    else None
  }

  /** Today's move of the position: present exactly when close, price and quantity are. */
  function CalculateTodaysPnl(h: Holding): (r: Option<real>)
    ensures r.Some? <==> h.close.Some? && h.ltp.Some? && h.quantity.Some?
  {
    if h.close.Some? && h.ltp.Some? && h.quantity.Some?
    then Some((h.close.value - h.ltp.value) * (h.quantity.value as real))
    else None
  }

  /** Today's move as a percentage of the last traded price: absent over a zero price. */
  function CalculateTodaysPnlPercentage(h: Holding): (r: Option<real>)
    ensures r.Some? <==> h.ltp.Some? && h.close.Some? && h.ltp.value != 0.0
    ensures r.Some? ==> r.value * h.ltp.value == (h.close.value - h.ltp.value) * 100.0
  {
    if h.ltp.Some? && h.close.Some? && h.ltp.value != 0.0
    then
      RealArith.PercentageBack(h.close.value - h.ltp.value, h.ltp.value);
      Some(((h.close.value - h.ltp.value) / h.ltp.value) * 100.0)
    else None
  }

  /** `CalculateHoldingSummaryUseCase.invoke`. */
  function Invoke(holding: Option<Holding>): (r: Option<HoldingSummary>)
    ensures r.None? <==> holding.None?
    ensures r.Some? ==> r.value.holding == holding
  {
    match holding
    case None => None
    case Some(h) =>
      var currentValue := CalculateCurrentValue(h);
      var totalInvestment := CalculateTotalInvestment(h);
      var totalPnl := CalculateTotalPnl(currentValue, totalInvestment);
      var totalPnlPercentage := CalculateTotalPnlPercentage(totalPnl, totalInvestment);
      var todaysPnl := CalculateTodaysPnl(h);
      var todaysPnlPercentage := CalculateTodaysPnlPercentage(h);
      Some(HoldingSummary(Some(h), currentValue, totalInvestment, totalPnl,
                          totalPnlPercentage, todaysPnl, todaysPnlPercentage))
  }

  /** The quantity as the `Double` the source multiplies by. */
  function Qty(h: Holding): real
    requires h.quantity.Some?
  {
    h.quantity.value as real
  }

  /** Which figures are present: exactly those whose operands are, with a non-zero base for a percentage. */
  predicate Presence(h: Holding, s: HoldingSummary) {
    && (s.currentValue.Some? <==> h.ltp.Some? && h.quantity.Some?)
    && (s.totalInvestment.Some? <==> h.avgPrice.Some? && h.quantity.Some?)
    && (s.totalPnl.Some? <==> h.ltp.Some? && h.avgPrice.Some? && h.quantity.Some?)
    && (s.totalPnlPercentage.Some? <==>
          h.ltp.Some? && h.avgPrice.Some? && h.quantity.Some? && h.avgPrice.value * Qty(h) != 0.0)
    && (s.todaysPnl.Some? <==> h.close.Some? && h.ltp.Some? && h.quantity.Some?)
    && (s.todaysPnlPercentage.Some? <==> h.close.Some? && h.ltp.Some? && h.ltp.value != 0.0)
  }

  /**
   * The relations between the present figures and the holding's prices.
   * Percentages are stated multiplied out, so no division appears here.
   */
  predicate Values(h: Holding, s: HoldingSummary)
    requires Presence(h, s)
  {
    && (s.currentValue.Some? ==> s.currentValue.value == h.ltp.value * Qty(h))
    && (s.totalInvestment.Some? ==> s.totalInvestment.value == h.avgPrice.value * Qty(h))
    && (s.totalPnl.Some? ==>
          s.totalPnl.value == s.currentValue.value - s.totalInvestment.value
          && s.totalPnl.value == (h.ltp.value - h.avgPrice.value) * Qty(h))
    && (s.totalPnlPercentage.Some? ==>
          s.totalPnlPercentage.value * s.totalInvestment.value == s.totalPnl.value * 100.0)
    && (s.todaysPnl.Some? ==> s.todaysPnl.value == (h.close.value - h.ltp.value) * Qty(h))
    && (s.todaysPnlPercentage.Some? ==>
          s.todaysPnlPercentage.value * h.ltp.value == (h.close.value - h.ltp.value) * 100.0)
  }

  /** What it means for `s` to summarise `h`. */
  predicate Summarises(h: Holding, s: HoldingSummary) {
    s.holding == Some(h) && Presence(h, s) && Values(h, s)
  }

  lemma InvokePresence(h: Holding)
    ensures Presence(h, Invoke(Some(h)).value)
  {
  }

  /** The four amounts of the calculator's summary, in terms of the holding's prices and quantity. */
  lemma InvokeAmounts(h: Holding)
    ensures var s := Invoke(Some(h)).value;
      && (s.currentValue.Some? ==> s.currentValue.value == h.ltp.value * Qty(h))
      && (s.totalInvestment.Some? ==> s.totalInvestment.value == h.avgPrice.value * Qty(h))
      && (s.totalPnl.Some? ==>
            s.totalPnl.value == s.currentValue.value - s.totalInvestment.value
            && s.totalPnl.value == (h.ltp.value - h.avgPrice.value) * Qty(h))
      && (s.todaysPnl.Some? ==> s.todaysPnl.value == (h.close.value - h.ltp.value) * Qty(h))
  {
    if h.ltp.Some? && h.avgPrice.Some? && h.quantity.Some? {
      RealArith.Distrib(h.ltp.value, h.avgPrice.value, Qty(h));
    }
  }

  /** The two percentages of the calculator's summary, multiplied back by their bases. */
  lemma InvokePercentages(h: Holding)
    ensures var s := Invoke(Some(h)).value;
      && (s.totalPnlPercentage.Some? ==>
            s.totalInvestment.Some? && s.totalPnl.Some?
            && s.totalPnlPercentage.value * s.totalInvestment.value == s.totalPnl.value * 100.0)
      && (s.todaysPnlPercentage.Some? ==>
            h.ltp.Some? && h.close.Some?
            && s.todaysPnlPercentage.value * h.ltp.value == (h.close.value - h.ltp.value) * 100.0)
  {
    var s := Invoke(Some(h)).value;
    assert s.totalPnlPercentage == CalculateTotalPnlPercentage(s.totalPnl, s.totalInvestment);
    assert s.todaysPnlPercentage == CalculateTodaysPnlPercentage(h);
  }

  lemma InvokeValues(h: Holding)
    ensures Presence(h, Invoke(Some(h)).value) && Values(h, Invoke(Some(h)).value)
  {
    InvokePresence(h);
    InvokeAmounts(h);
    InvokePercentages(h);
  }

  /** The calculator's summary of a holding satisfies every presence rule and every relation. */
  lemma InvokeSummarises(h: Holding)
    ensures Summarises(h, Invoke(Some(h)).value)
  {
    InvokeValues(h);
  }

  lemma SameAmounts(h: Holding, s: HoldingSummary, t: HoldingSummary)
    requires Summarises(h, s) && Summarises(h, t)
    ensures s.currentValue == t.currentValue && s.totalInvestment == t.totalInvestment
    ensures s.totalPnl == t.totalPnl && s.todaysPnl == t.todaysPnl
  {
  }

  lemma SamePercentages(h: Holding, s: HoldingSummary, t: HoldingSummary)
    requires Summarises(h, s) && Summarises(h, t)
    requires s.totalInvestment == t.totalInvestment && s.totalPnl == t.totalPnl
    ensures s.totalPnlPercentage == t.totalPnlPercentage && s.todaysPnlPercentage == t.todaysPnlPercentage
  {
    if s.totalPnlPercentage.Some? {
      RealArith.MulCancel(s.totalPnlPercentage.value, t.totalPnlPercentage.value, s.totalInvestment.value);
    }
    if s.todaysPnlPercentage.Some? {
      RealArith.MulCancel(s.todaysPnlPercentage.value, t.todaysPnlPercentage.value, h.ltp.value);
    }
  }

  /** `Summarises` is a complete specification: exactly one summary satisfies it, the calculator's. */
  lemma SummarisesDetermines(h: Holding, s: HoldingSummary)
    requires Summarises(h, s)
    ensures Invoke(Some(h)) == Some(s)
  {
    InvokeSummarises(h);
    var t := Invoke(Some(h)).value;
    SameAmounts(h, s, t);
    SamePercentages(h, s, t);
  }

  /** A missing quantity removes the four quantity-based figures, and today's percentage still comes out. */
  lemma QuantityAbsent(h: Holding)
    requires h.quantity.None? && h.ltp.Some? && h.close.Some? && h.ltp.value != 0.0
    ensures var s := Invoke(Some(h)).value;
      && s.currentValue.None? && s.totalInvestment.None? && s.totalPnl.None?
      && s.totalPnlPercentage.None? && s.todaysPnl.None?
      && s.todaysPnlPercentage == Some(((h.close.value - h.ltp.value) / h.ltp.value) * 100.0)
  {
  }

  /** Today's percentage reads only the two prices: symbol, quantity and average price do not matter. */
  lemma TodaysPercentageReadsOnlyPrices(h1: Holding, h2: Holding)
    requires h1.ltp == h2.ltp && h1.close == h2.close
    ensures Invoke(Some(h1)).value.todaysPnlPercentage == Invoke(Some(h2)).value.todaysPnlPercentage
  {
  }

  /**
   * The overall percentage does not depend on how many units are held: when
   * present it is the price gain over the average price.
   */
  lemma TotalPercentageIsPriceGain(h: Holding)
    requires Invoke(Some(h)).value.totalPnlPercentage.Some?
    ensures h.avgPrice.Some? && h.avgPrice.value != 0.0 && h.ltp.Some?
    ensures Invoke(Some(h)).value.totalPnlPercentage.value
            == ((h.ltp.value - h.avgPrice.value) / h.avgPrice.value) * 100.0
  {
    InvokeSummarises(h);
    var s := Invoke(Some(h)).value;
    var q, a, l := Qty(h), h.avgPrice.value, h.ltp.value;
    assert a * q != 0.0;
    assert a != 0.0 && q != 0.0;
    var p := s.totalPnlPercentage.value;
    assert p * (a * q) == ((l - a) * q) * 100.0;
    assert (p * a) * q == ((l - a) * 100.0) * q;
    RealArith.MulCancel(p * a, (l - a) * 100.0, q);
    RealArith.PercentageBack(l - a, a);
    RealArith.MulCancel(p, ((l - a) / a) * 100.0, a);
  }

  /** Within `eps` of each other: the tolerance the unit tests compare with. */
  predicate Near(x: real, y: real, eps: real) {
    -eps <= x - y <= eps
  }

  /** The MAHABANK position from the tests: 990 units, ltp 38.05, average 35.0, close 40.0. */
  lemma ScenarioProfit()
    ensures var s := Invoke(Some(Holding(Some("MAHABANK"), Some(990), Some(38.05), Some(35.0), Some(40.0)))).value;
      && s.currentValue == Some(37669.5)
      && s.totalInvestment == Some(34650.0)
      && s.totalPnl == Some(3019.5)
      && s.totalPnlPercentage.Some? && Near(s.totalPnlPercentage.value, 8.71, 0.01)
      && s.todaysPnl == Some(1930.5)
      && s.todaysPnlPercentage.Some? && Near(s.todaysPnlPercentage.value, 5.12, 0.01)
  {
  }

  /** A zero last traded price: value 0, a full loss, and no percentage for today. */
  lemma ScenarioZeroLtp()
    ensures var s := Invoke(Some(Holding(Some("TEST"), Some(100), Some(0.0), Some(50.0), Some(55.0)))).value;
      && s.currentValue == Some(0.0)
      && s.totalInvestment == Some(5000.0)
      && s.totalPnl == Some(-5000.0)
      && s.totalPnlPercentage == Some(-100.0)
      && s.todaysPnl == Some(5500.0)
      && s.todaysPnlPercentage.None?
  {
  }
}
