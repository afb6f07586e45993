/**
 * The domain-to-display mapper. Labels are fixed texts shown exactly when
 * their figure is there; the figures themselves go through the currency and
 * percentage formatters, which are parameters here.
 */
module PortfolioUiModelMapper {
  import opened Wrappers
  import opened DomainModel
  import opened UiModel
  import opened Collections
  import DecimalText

  /** `Double.formatCurrency()` or `Double.formatPercentage()`: either may fail and give null. */
  type Formatter = real -> Option<string>

  const NetQuantityLabel: string := "NET QTY: "
  const LtpLabel: string := "LTP: "
  const PnlLabel: string := "P&L: "
  const ProfitLossLabel: string := "Profit & Loss*"
  const CurrentValueLabel: string := "Current value*"
  const TotalInvestmentLabel: string := "Total investment*"
  const TodaysPnlLabel: string := "Today's Profit & Loss*"

  /** The holding of a summary, absent when either is. */
  function HoldingOf(holdingSummary: Option<HoldingSummary>): Option<Holding> {
    if holdingSummary.Some? then holdingSummary.value.holding else None
  }

  /** The quantity of the summary's holding, absent when any link is. */
  function QuantityOf(holdingSummary: Option<HoldingSummary>): Option<int32> {
    var h := HoldingOf(holdingSummary);
    if h.Some? then h.value.quantity else None
  }

  /** The last traded price of the summary's holding, absent when any link is. */
  function LtpOf(holdingSummary: Option<HoldingSummary>): Option<real> {
    var h := HoldingOf(holdingSummary);
    if h.Some? then h.value.ltp else None
  }

  /** The total profit and loss of a summary, absent when either is. */
  function PnlOf(holdingSummary: Option<HoldingSummary>): Option<real> {
    if holdingSummary.Some? then holdingSummary.value.totalPnl else None
  }

  /** A figure's label: present exactly when the figure is. */
  function LabelFor(figure: Option<real>, text: string): (r: Option<string>)
    ensures r.Some? <==> figure.Some?
    ensures r.Some? ==> r.value == text
  {
    if figure.Some? then Some(text) else None
  }

  /** A figure run through a formatter: absent when the figure is, or when formatting fails. */
  function Formatted(figure: Option<real>, format: Formatter): (r: Option<string>)
    ensures r.Some? ==> figure.Some? && format(figure.value) == r
    ensures figure.Some? ==> r == format(figure.value)
  {
    if figure.Some? then format(figure.value) else None
  }

  /** The sign flag of a figure: present exactly when the figure is, and zero counts as a gain. */
  function SignOf(figure: Option<real>): (r: Option<bool>)
    ensures r.Some? <==> figure.Some?
    ensures r.Some? ==> (r.value <==> 0.0 <= figure.value)
  {
    if figure.Some? then Some(figure.value >= 0.0) else None
  }

  /** `PortfolioUiModelMapper.mapHoldingToUiModel`. */
  function MapHoldingToUiModel(holdingSummary: Option<HoldingSummary>, formatCurrency: Formatter): (r: HoldingUiModel)
    ensures r.symbol == (if HoldingOf(holdingSummary).Some? then HoldingOf(holdingSummary).value.symbol else None)
    ensures r.netQuantityLabel.Some? <==> QuantityOf(holdingSummary).Some?
    ensures r.netQuantityLabel.Some? ==> r.netQuantityLabel.value == NetQuantityLabel
    ensures r.netQuantityValue.Some? <==> QuantityOf(holdingSummary).Some?
    ensures r.netQuantityValue.Some? ==>
              DecimalText.ParseDecimal(r.netQuantityValue.value) == Some(QuantityOf(holdingSummary).value as int)
    ensures QuantityOf(holdingSummary).Some? ==>
              r.netQuantityValue == Some(DecimalText.IntToDecimal(QuantityOf(holdingSummary).value as int))
    ensures r.ltpLabel.Some? <==> LtpOf(holdingSummary).Some?
    ensures r.ltpLabel.Some? ==> r.ltpLabel.value == LtpLabel
    ensures r.ltpValue.Some? ==> r.ltpLabel.Some?
    ensures LtpOf(holdingSummary).Some? ==> r.ltpValue == formatCurrency(LtpOf(holdingSummary).value)
    ensures r.pnlLabel.Some? <==> PnlOf(holdingSummary).Some?
    ensures r.pnlLabel.Some? ==> r.pnlLabel.value == PnlLabel
    ensures r.pnlValue.Some? ==> r.pnlLabel.Some?
    ensures PnlOf(holdingSummary).Some? ==> r.pnlValue == formatCurrency(PnlOf(holdingSummary).value)
    ensures r.isPnlPositive.Some? <==> PnlOf(holdingSummary).Some?
    ensures r.isPnlPositive.Some? ==> (r.isPnlPositive.value <==> PnlOf(holdingSummary).value >= 0.0)
  {
    var h := HoldingOf(holdingSummary);
    var quantity := QuantityOf(holdingSummary);
    var netQuantityValue :=
      if quantity.Some? then
        DecimalText.RoundTrip(quantity.value as int);
        Some(DecimalText.IntToDecimal(quantity.value as int))
      else None;
    HoldingUiModel(
      symbol := if h.Some? then h.value.symbol else None,
      netQuantityLabel := if quantity.Some? then Some(NetQuantityLabel) else None,
      netQuantityValue := netQuantityValue,
      ltpLabel := LabelFor(LtpOf(holdingSummary), LtpLabel),
      ltpValue := Formatted(LtpOf(holdingSummary), formatCurrency),
      pnlLabel := LabelFor(PnlOf(holdingSummary), PnlLabel),
      pnlValue := Formatted(PnlOf(holdingSummary), formatCurrency),
      isPnlPositive := SignOf(PnlOf(holdingSummary)))
  }

  /** The percentage text: the formatted percentage wrapped in a space, parentheses and a per-cent sign. */
  function PercentageText(percentage: Option<real>, formatPercentage: Formatter): (r: Option<string>)
    ensures r.Some? <==> percentage.Some? && formatPercentage(percentage.value).Some?
    ensures r.Some? ==>
              var text := formatPercentage(percentage.value).value;
              |r.value| == |text| + 4 && r.value[..2] == " (" && r.value[2..|r.value| - 2] == text
              && r.value[|r.value| - 2..] == "%)"
  {
    var formatted := Formatted(percentage, formatPercentage);
    if formatted.Some? then Some(" (" + formatted.value + "%)") else None
  }

  /** `PortfolioUiModelMapper.mapSummaryToUiModel`. */
  function MapSummaryToUiModel(portfolioSummary: Option<PortfolioSummary>, formatCurrency: Formatter,
                               formatPercentage: Formatter): (r: Option<PortfolioSummaryUiModel>)
    ensures r.None? <==> portfolioSummary.None?
    ensures r.Some? ==>
              var s, u := portfolioSummary.value, r.value;
              && (u.profitLossLabel.Some? <==> s.totalPnl.Some?)
              && (u.profitLossLabel.Some? ==> u.profitLossLabel.value == ProfitLossLabel)
              && (u.profitLossValue.Some? ==> s.totalPnl.Some?)
              && (s.totalPnl.Some? ==> u.profitLossValue == formatCurrency(s.totalPnl.value))
              && (u.profitLossPercentage.Some? <==>
                    s.totalPnlPercentage.Some? && formatPercentage(s.totalPnlPercentage.value).Some?)
              && u.profitLossPercentage == PercentageText(s.totalPnlPercentage, formatPercentage)
              && (u.isProfitLossPositive.Some? <==> s.totalPnl.Some?)
              && (u.isProfitLossPositive.Some? ==> (u.isProfitLossPositive.value <==> s.totalPnl.value >= 0.0))
              && (u.currentValueLabel.Some? <==> s.currentValue.Some?)
              && (u.currentValueLabel.Some? ==> u.currentValueLabel.value == CurrentValueLabel)
              && (u.currentValueValue.Some? ==> s.currentValue.Some?)
              && (s.currentValue.Some? ==> u.currentValueValue == formatCurrency(s.currentValue.value))
              && (u.totalInvestmentLabel.Some? <==> s.totalInvestment.Some?)
              && (u.totalInvestmentLabel.Some? ==> u.totalInvestmentLabel.value == TotalInvestmentLabel)
              && (u.totalInvestmentValue.Some? ==> s.totalInvestment.Some?)
              && (s.totalInvestment.Some? ==> u.totalInvestmentValue == formatCurrency(s.totalInvestment.value))
              && (u.todaysPnlLabel.Some? <==> s.todaysPnl.Some?)
              && (u.todaysPnlLabel.Some? ==> u.todaysPnlLabel.value == TodaysPnlLabel)
              && (u.todaysPnlValue.Some? ==> s.todaysPnl.Some?)
              && (s.todaysPnl.Some? ==> u.todaysPnlValue == formatCurrency(s.todaysPnl.value))
              && (u.isTodaysPnlPositive.Some? <==> s.todaysPnl.Some?)
              && (u.isTodaysPnlPositive.Some? ==> (u.isTodaysPnlPositive.value <==> s.todaysPnl.value >= 0.0))
  {
    match portfolioSummary
    case None => None
    case Some(s) =>
      Some(PortfolioSummaryUiModel(
        profitLossLabel := LabelFor(s.totalPnl, ProfitLossLabel),
        profitLossValue := Formatted(s.totalPnl, formatCurrency),
        profitLossPercentage := PercentageText(s.totalPnlPercentage, formatPercentage),
        isProfitLossPositive := SignOf(s.totalPnl),
        currentValueLabel := LabelFor(s.currentValue, CurrentValueLabel),
        currentValueValue := Formatted(s.currentValue, formatCurrency),
        totalInvestmentLabel := LabelFor(s.totalInvestment, TotalInvestmentLabel),
        totalInvestmentValue := Formatted(s.totalInvestment, formatCurrency),
        todaysPnlLabel := LabelFor(s.todaysPnl, TodaysPnlLabel),
        todaysPnlValue := Formatted(s.todaysPnl, formatCurrency),
        isTodaysPnlPositive := SignOf(s.todaysPnl)))
  }

  /** `PortfolioUiModelMapper.mapToUiModel`. */
  function MapToUiModel(portfolio: Option<Portfolio>, formatCurrency: Formatter, formatPercentage: Formatter)
    : (r: Option<PortfolioUiModel>)
    ensures r.None? <==> portfolio.None?
    ensures r.Some? ==> (r.value.holdings.None? <==> portfolio.value.holdings.None?)
    ensures r.Some? && r.value.holdings.Some? ==>
              var hs, us := portfolio.value.holdings.value, r.value.holdings.value;
              |us| == |hs| && forall i :: 0 <= i < |hs| ==> us[i] == MapHoldingToUiModel(Some(hs[i]), formatCurrency)
    ensures r.Some? ==> (r.value.summary.None? <==> portfolio.value.summary.None?)
    ensures r.Some? ==> r.value.summary == MapSummaryToUiModel(portfolio.value.summary, formatCurrency, formatPercentage)
  {
    match portfolio
    case None => None
    case Some(p) =>
      Some(PortfolioUiModel(
        holdings := if p.holdings.Some?
                    then Some(Map(p.holdings.value, (h: HoldingSummary) => MapHoldingToUiModel(Some(h), formatCurrency)))
                    else None,
        summary := MapSummaryToUiModel(p.summary, formatCurrency, formatPercentage)))
  }

  /** The labels and sign flags do not depend on how the figures are formatted. */
  lemma LabelsIgnoreFormatters(portfolioSummary: Option<PortfolioSummary>, c1: Formatter, p1: Formatter,
                               c2: Formatter, p2: Formatter)
    requires portfolioSummary.Some?
    ensures var u1, u2 := MapSummaryToUiModel(portfolioSummary, c1, p1).value,
                          MapSummaryToUiModel(portfolioSummary, c2, p2).value;
      && u1.profitLossLabel == u2.profitLossLabel && u1.isProfitLossPositive == u2.isProfitLossPositive
      && u1.currentValueLabel == u2.currentValueLabel && u1.totalInvestmentLabel == u2.totalInvestmentLabel
      && u1.todaysPnlLabel == u2.todaysPnlLabel && u1.isTodaysPnlPositive == u2.isTodaysPnlPositive
  {
  }

  /** A summary with every figure absent shows nothing at all. */
  lemma AllAbsentShowsNothing(formatCurrency: Formatter, formatPercentage: Formatter)
    ensures MapSummaryToUiModel(Some(PortfolioSummary(None, None, None, None, None, None)),
                                formatCurrency, formatPercentage)
            == Some(PortfolioSummaryUiModel(None, None, None, None, None, None, None, None, None, None, None))
  {
  }
}
