/**
 * The portfolio aggregator: sums three figures over the holding summaries,
 * skipping the absent ones, and derives the overall P&L and two
 * percentages from those sums.
 */
module CalculatePortfolioSummary {
  import opened Wrappers
  import opened DomainModel
  import opened Collections
  import RealArith
  import CalculateHoldingSummary

  function CurrentValueOf(s: HoldingSummary): Option<real> { s.currentValue }
  function TotalInvestmentOf(s: HoldingSummary): Option<real> { s.totalInvestment }
  function TodaysPnlOf(s: HoldingSummary): Option<real> { s.todaysPnl }

  /** The figure `field` of every summary that has it, summed; absent when no summary has it. */
  function SumOfPresent(summaries: seq<HoldingSummary>, field: HoldingSummary -> Option<real>): (r: Option<real>)
    ensures r.None? <==> forall i :: 0 <= i < |summaries| ==> field(summaries[i]).None?
  {
    var validValues := MapNotNull(summaries, field);
    if |validValues| > 0 then Some(Sum(validValues)) else None
  }

  function CalculateTotalCurrentValue(summaries: seq<HoldingSummary>): (r: Option<real>)
    ensures r.None? <==> forall i :: 0 <= i < |summaries| ==> summaries[i].currentValue.None?
  {
    SumOfPresent(summaries, CurrentValueOf)
  }

  function CalculateTotalInvestment(summaries: seq<HoldingSummary>): (r: Option<real>)
    ensures r.None? <==> forall i :: 0 <= i < |summaries| ==> summaries[i].totalInvestment.None?
  {
    SumOfPresent(summaries, TotalInvestmentOf)
  }

  function CalculateTotalTodaysPnl(summaries: seq<HoldingSummary>): (r: Option<real>)
    ensures r.None? <==> forall i :: 0 <= i < |summaries| ==> summaries[i].todaysPnl.None?
  {
    SumOfPresent(summaries, TodaysPnlOf)
  }

  /** Today's percentage of the portfolio is taken over its current value, not over its investment. */
  function CalculateTodaysPnlPercentage(todaysPnl: Option<real>, currentValue: Option<real>): (r: Option<real>)
    ensures r.Some? <==> todaysPnl.Some? && currentValue.Some? && currentValue.value != 0.0
    ensures r.Some? ==> r.value * currentValue.value == todaysPnl.value * 100.0
  {
    if todaysPnl.Some? && currentValue.Some? && currentValue.value != 0.0
    then
      RealArith.PercentageBack(todaysPnl.value, currentValue.value);
      Some((todaysPnl.value / currentValue.value) * 100.0)
    else None
  }

  /** `CalculatePortfolioSummaryUseCase.invoke`. */
  function Invoke(holdingSummaries: Option<seq<HoldingSummary>>): (r: Option<PortfolioSummary>)
    ensures r.None? <==> holdingSummaries.None? || |holdingSummaries.value| == 0
  {
    if holdingSummaries.Some? && |holdingSummaries.value| > 0 then
      var summaries := holdingSummaries.value;
      var currentValue := CalculateTotalCurrentValue(summaries);
      var totalInvestment := CalculateTotalInvestment(summaries);
      var totalPnl := CalculateHoldingSummary.CalculateTotalPnl(currentValue, totalInvestment);
      var totalPnlPercentage := CalculateHoldingSummary.CalculateTotalPnlPercentage(totalPnl, totalInvestment);
      var todaysPnl := CalculateTotalTodaysPnl(summaries);
      var todaysPnlPercentage := CalculateTodaysPnlPercentage(todaysPnl, currentValue);
      Some(PortfolioSummary(currentValue, totalInvestment, totalPnl, totalPnlPercentage,
                            todaysPnl, todaysPnlPercentage))
    else
      None
  }

  /** A reference total in which an absent figure contributes zero. */
  function ZeroFilledTotal(summaries: seq<HoldingSummary>, field: HoldingSummary -> Option<real>): real {
    if summaries == [] then 0.0 else field(summaries[0]).GetOr(0.0) + ZeroFilledTotal(summaries[1..], field)
  }

  lemma {:induction false} SumOfKeptIsZeroFilled(summaries: seq<HoldingSummary>, field: HoldingSummary -> Option<real>)
    ensures Sum(MapNotNull(summaries, field)) == ZeroFilledTotal(summaries, field)
  {
    if summaries != [] {
      SumOfKeptIsZeroFilled(summaries[1..], field);
    }
  }

  /**
   * Skipping absent figures: the aggregate is absent exactly when no summary
   * has the figure, and otherwise it is the total with absent figures
   * counted as zero.
   */
  lemma SumOfPresentSpec(summaries: seq<HoldingSummary>, field: HoldingSummary -> Option<real>)
    ensures SumOfPresent(summaries, field).None? <==> forall i :: 0 <= i < |summaries| ==> field(summaries[i]).None?
    ensures SumOfPresent(summaries, field).Some? ==>
              SumOfPresent(summaries, field).value == ZeroFilledTotal(summaries, field)
  {
    SumOfKeptIsZeroFilled(summaries, field);
  }

  /** The three summed figures of `p`: absent exactly when no summary has them, else their zero-filled totals. */
  predicate SummedFigures(summaries: seq<HoldingSummary>, p: PortfolioSummary) {
    && (p.currentValue.None? <==> forall i :: 0 <= i < |summaries| ==> summaries[i].currentValue.None?)
    && (p.totalInvestment.None? <==> forall i :: 0 <= i < |summaries| ==> summaries[i].totalInvestment.None?)
    && (p.todaysPnl.None? <==> forall i :: 0 <= i < |summaries| ==> summaries[i].todaysPnl.None?)
    && (p.currentValue.Some? ==> p.currentValue.value == ZeroFilledTotal(summaries, CurrentValueOf))
    && (p.totalInvestment.Some? ==> p.totalInvestment.value == ZeroFilledTotal(summaries, TotalInvestmentOf))
    && (p.todaysPnl.Some? ==> p.todaysPnl.value == ZeroFilledTotal(summaries, TodaysPnlOf))
  }

  /** The three derived figures of `p`, in terms of its summed ones; percentages multiplied out. */
  predicate DerivedFigures(p: PortfolioSummary) {
    && (p.totalPnl.Some? <==> p.currentValue.Some? && p.totalInvestment.Some?)
    && (p.totalPnl.Some? ==> p.totalPnl.value == p.currentValue.value - p.totalInvestment.value)
    && (p.totalPnlPercentage.Some? <==> p.totalPnl.Some? && p.totalInvestment.value != 0.0)
    && (p.totalPnlPercentage.Some? ==>
          p.totalPnlPercentage.value * p.totalInvestment.value == p.totalPnl.value * 100.0)
    && (p.todaysPnlPercentage.Some? <==>
          p.todaysPnl.Some? && p.currentValue.Some? && p.currentValue.value != 0.0)
    && (p.todaysPnlPercentage.Some? ==>
          p.todaysPnlPercentage.value * p.currentValue.value == p.todaysPnl.value * 100.0)
  }

  /** What it means for `p` to aggregate the non-empty list `summaries`. */
  predicate Aggregates(summaries: seq<HoldingSummary>, p: PortfolioSummary) {
    SummedFigures(summaries, p) && DerivedFigures(p)
  }

  lemma InvokeSummedFigures(summaries: seq<HoldingSummary>)
    requires |summaries| > 0
    ensures SummedFigures(summaries, Invoke(Some(summaries)).value)
  {
    SumOfPresentSpec(summaries, CurrentValueOf);
    SumOfPresentSpec(summaries, TotalInvestmentOf);
    SumOfPresentSpec(summaries, TodaysPnlOf);
    assert forall i :: 0 <= i < |summaries| ==> CurrentValueOf(summaries[i]) == summaries[i].currentValue;
    assert forall i :: 0 <= i < |summaries| ==> TotalInvestmentOf(summaries[i]) == summaries[i].totalInvestment;
    assert forall i :: 0 <= i < |summaries| ==> TodaysPnlOf(summaries[i]) == summaries[i].todaysPnl;
  }

  lemma InvokeDerivedFigures(summaries: seq<HoldingSummary>)
    requires |summaries| > 0
    ensures DerivedFigures(Invoke(Some(summaries)).value)
  {
    var p := Invoke(Some(summaries)).value;
    if p.totalPnlPercentage.Some? {
      RealArith.PercentageBack(p.totalPnl.value, p.totalInvestment.value);
    }
    if p.todaysPnlPercentage.Some? {
      RealArith.PercentageBack(p.todaysPnl.value, p.currentValue.value);
    }
  }

  /** The aggregator's result satisfies every presence rule and every relation of `Aggregates`. */
  lemma InvokeAggregates(summaries: seq<HoldingSummary>)
    requires |summaries| > 0
    ensures Aggregates(summaries, Invoke(Some(summaries)).value)
  {
    InvokeSummedFigures(summaries);
    InvokeDerivedFigures(summaries);
  }

  /** Appending a summary without any of the three summed figures changes nothing: absent is not zero. */
  lemma AppendAbsentUnchanged(summaries: seq<HoldingSummary>, e: HoldingSummary)
    requires |summaries| > 0
    requires e.currentValue.None? && e.totalInvestment.None? && e.todaysPnl.None?
    ensures Invoke(Some(summaries + [e])) == Invoke(Some(summaries))
  {
    MapNotNullAppend(summaries, [e], CurrentValueOf);
    MapNotNullAppend(summaries, [e], TotalInvestmentOf);
    MapNotNullAppend(summaries, [e], TodaysPnlOf);
    assert MapNotNull([e], CurrentValueOf) == [];
    assert MapNotNull([e], TotalInvestmentOf) == [];
    assert MapNotNull([e], TodaysPnlOf) == [];
    assert MapNotNull(summaries, CurrentValueOf) + [] == MapNotNull(summaries, CurrentValueOf);
    assert MapNotNull(summaries, TotalInvestmentOf) + [] == MapNotNull(summaries, TotalInvestmentOf);
    assert MapNotNull(summaries, TodaysPnlOf) + [] == MapNotNull(summaries, TodaysPnlOf);
  }

  lemma SumOfPresentSwap(a: seq<HoldingSummary>, b: seq<HoldingSummary>, field: HoldingSummary -> Option<real>)
    ensures SumOfPresent(a + b, field) == SumOfPresent(b + a, field)
  {
    MapNotNullAppend(a, b, field);
    MapNotNullAppend(b, a, field);
    SumSwap(MapNotNull(a, field), MapNotNull(b, field));
  }

  /** The aggregate does not depend on which half of the list comes first. */
  lemma OrderIrrelevant(a: seq<HoldingSummary>, b: seq<HoldingSummary>)
    ensures Invoke(Some(a + b)) == Invoke(Some(b + a))
  {
    SumOfPresentSwap(a, b, CurrentValueOf);
    SumOfPresentSwap(a, b, TotalInvestmentOf);
    SumOfPresentSwap(a, b, TodaysPnlOf);
  }

  lemma {:induction false} ZeroFilledAppend(a: seq<HoldingSummary>, b: seq<HoldingSummary>,
                                           field: HoldingSummary -> Option<real>)
    ensures ZeroFilledTotal(a + b, field) == ZeroFilledTotal(a, field) + ZeroFilledTotal(b, field)
  {
    if a == [] {
      assert a + b == b;
    } else {
      assert (a + b)[0] == a[0];
      assert (a + b)[1..] == a[1..] + b;
      ZeroFilledAppend(a[1..], b, field);
    }
  }

  /** The zero-filled total does not depend on the order of the summaries. */
  lemma {:induction false} ZeroFilledPermutation(a: seq<HoldingSummary>, b: seq<HoldingSummary>,
                                                field: HoldingSummary -> Option<real>)
    requires multiset(a) == multiset(b)
    ensures ZeroFilledTotal(a, field) == ZeroFilledTotal(b, field)
    decreases |a|
  {
    if a == [] {
      assert |b| == |multiset(b)| == 0;
    } else {
      assert a[0] in multiset(b);
      var j :| 0 <= j < |b| && b[j] == a[0];
      var rest := b[..j] + b[j + 1..];
      assert b == b[..j] + ([b[j]] + b[j + 1..]);
      assert multiset(b) == multiset(b[..j]) + multiset{b[j]} + multiset(b[j + 1..]);
      assert a == [a[0]] + a[1..];
      assert multiset(a) == multiset{a[0]} + multiset(a[1..]);
      assert multiset(rest) == multiset(b[..j]) + multiset(b[j + 1..]);
      assert multiset(a[1..]) == multiset(a) - multiset{a[0]};
      assert multiset(rest) == multiset(b) - multiset{b[j]};
      ZeroFilledPermutation(a[1..], rest, field);
      ZeroFilledAppend(b[..j], [b[j]] + b[j + 1..], field);
      ZeroFilledAppend(b[..j], b[j + 1..], field);
      assert ([b[j]] + b[j + 1..])[1..] == b[j + 1..];
    }
  }

  /** Reordering the summaries changes neither whether a figure is absent everywhere nor its sum. */
  lemma SumOfPresentPermutation(a: seq<HoldingSummary>, b: seq<HoldingSummary>,
                                field: HoldingSummary -> Option<real>)
    requires multiset(a) == multiset(b)
    ensures SumOfPresent(a, field) == SumOfPresent(b, field)
  {
    forall i | 0 <= i < |a| ensures a[i] in b {
      assert a[i] in multiset(a);
    }
    forall i | 0 <= i < |b| ensures b[i] in a {
      assert b[i] in multiset(b);
    }
    SumOfPresentSpec(a, field);
    SumOfPresentSpec(b, field);
    ZeroFilledPermutation(a, b, field);
  }

  /** The aggregate is the same for any reordering of the summaries. */
  lemma PermutationIrrelevant(a: seq<HoldingSummary>, b: seq<HoldingSummary>)
    requires multiset(a) == multiset(b)
    ensures Invoke(Some(a)) == Invoke(Some(b))
  {
    assert |a| == |multiset(a)| == |multiset(b)| == |b|;
    SumOfPresentPermutation(a, b, CurrentValueOf);
    SumOfPresentPermutation(a, b, TotalInvestmentOf);
    SumOfPresentPermutation(a, b, TodaysPnlOf);
  }

  /**
   * Only the three summed figures of each summary are read: the holdings and
   * the per-holding P&L and percentages have no influence.
   */
  lemma ReadsOnlySummedFigures(s: seq<HoldingSummary>, t: seq<HoldingSummary>)
    requires |s| == |t|
    requires forall i :: 0 <= i < |s| ==>
               s[i].currentValue == t[i].currentValue && s[i].totalInvestment == t[i].totalInvestment
               && s[i].todaysPnl == t[i].todaysPnl
    ensures Invoke(Some(s)) == Invoke(Some(t))
  {
    MapNotNullCongruent(s, t, CurrentValueOf, CurrentValueOf);
    MapNotNullCongruent(s, t, TotalInvestmentOf, TotalInvestmentOf);
    MapNotNullCongruent(s, t, TodaysPnlOf, TodaysPnlOf);
  }

  /** A summary that carries only the three figures the aggregator reads. */
  function Figures(currentValue: Option<real>, totalInvestment: Option<real>, todaysPnl: Option<real>): HoldingSummary {
    HoldingSummary(None, currentValue, totalInvestment, None, None, todaysPnl, None)
  }

  /** The three-holding portfolio from the tests (MAHABANK, ICICI, SBI). */
  lemma ScenarioThreeHoldings()
    ensures var p := Invoke(Some([Figures(Some(37669.5), Some(34650.0), Some(1930.5)),
                                  Figures(Some(11825.0), Some(11000.0), Some(-1325.0)),
                                  Figures(Some(82507.5), Some(75150.0), Some(5992.5))])).value;
      && p.currentValue == Some(132002.0)
      && p.totalInvestment == Some(120800.0)
      && p.totalPnl == Some(11202.0)
      && p.totalPnlPercentage.Some? && CalculateHoldingSummary.Near(p.totalPnlPercentage.value, 9.27, 0.01)
      && p.todaysPnl == Some(6598.0)
      && p.todaysPnlPercentage.Some? && CalculateHoldingSummary.Near(p.todaysPnlPercentage.value, 5.0, 0.01)
  {
    var l := [Figures(Some(37669.5), Some(34650.0), Some(1930.5)),
              Figures(Some(11825.0), Some(11000.0), Some(-1325.0)),
              Figures(Some(82507.5), Some(75150.0), Some(5992.5))];
    assert MapNotNull(l, CurrentValueOf) == [37669.5, 11825.0, 82507.5];
    assert MapNotNull(l, TotalInvestmentOf) == [34650.0, 11000.0, 75150.0];
    assert MapNotNull(l, TodaysPnlOf) == [1930.5, -1325.0, 5992.5];
    SumOfThree(37669.5, 11825.0, 82507.5);
    SumOfThree(34650.0, 11000.0, 75150.0);
    SumOfThree(1930.5, -1325.0, 5992.5);
  }

  lemma SumOfThree(a: real, b: real, c: real)
    ensures Sum([a, b, c]) == a + b + c
  {
    assert [a, b, c][1..] == [b, c];
    assert [b, c][1..] == [c];
    assert [c][1..] == [];
    assert Sum([c]) == c;
    assert Sum([b, c]) == b + c;
  }

  /** Partial data from the tests: each aggregate is the sum of what is present. */
  lemma ScenarioPartialNulls()
    ensures var p := Invoke(Some([Figures(Some(5000.0), Some(6000.0), None),
                                  Figures(None, None, Some(-200.0))])).value;
      && p.currentValue == Some(5000.0)
      && p.totalInvestment == Some(6000.0)
      && p.totalPnl == Some(-1000.0)
      && p.totalPnlPercentage.Some? && CalculateHoldingSummary.Near(p.totalPnlPercentage.value, -16.67, 0.01)
      && p.todaysPnl == Some(-200.0)
      && p.todaysPnlPercentage == Some(-4.0)
  {
    var l := [Figures(Some(5000.0), Some(6000.0), None), Figures(None, None, Some(-200.0))];
    assert l[1..] == [Figures(None, None, Some(-200.0))];
    assert l[1..][1..] == [];
    assert MapNotNull(l, CurrentValueOf) == [5000.0];
    assert MapNotNull(l, TotalInvestmentOf) == [6000.0];
    assert MapNotNull(l, TodaysPnlOf) == [-200.0];
    assert [5000.0][1..] == [] && [6000.0][1..] == [] && [-200.0][1..] == [];
  }
}
