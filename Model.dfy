/**
 * The domain records of the portfolio viewer. Every field is nullable in the
 * source and is an Option here; `Double` is `real` and `Int` is `int32`.
 */
module DomainModel {
  import opened Wrappers

  /** Kotlin's `Int`: a 32-bit signed integer. */
  type int32 = x: int | -0x8000_0000 <= x < 0x8000_0000

  /** One position, as the mapper builds it from the wire record. */
  datatype Holding = Holding(
    symbol: Option<string>,
    quantity: Option<int32>,
    ltp: Option<real>,
    avgPrice: Option<real>,
    close: Option<real>)

  /** The six figures derived from one holding, next to the holding itself. */
  datatype HoldingSummary = HoldingSummary(
    holding: Option<Holding>,
    currentValue: Option<real>,
    totalInvestment: Option<real>,
    totalPnl: Option<real>,
    totalPnlPercentage: Option<real>,
    todaysPnl: Option<real>,
    todaysPnlPercentage: Option<real>)

  /** The same six figures aggregated over a whole portfolio. */
  datatype PortfolioSummary = PortfolioSummary(
    currentValue: Option<real>,
    totalInvestment: Option<real>,
    totalPnl: Option<real>,
    totalPnlPercentage: Option<real>,
    todaysPnl: Option<real>,
    todaysPnlPercentage: Option<real>)

  datatype Portfolio = Portfolio(
    holdings: Option<seq<HoldingSummary>>,
    summary: Option<PortfolioSummary>)
}

/** The transfer objects of the holdings response: a data object holding the list of user holdings. */
module Dto {
  import opened Wrappers
  import opened DomainModel

  datatype HoldingDto = HoldingDto(
    symbol: Option<string>,
    quantity: Option<int32>,
    ltp: Option<real>,
    avgPrice: Option<real>,
    close: Option<real>)

  datatype PortfolioDataDto = PortfolioDataDto(userHolding: Option<seq<HoldingDto>>)

  datatype PortfolioResponseDto = PortfolioResponseDto(data: Option<PortfolioDataDto>)
}

/** The display records: labels and already formatted strings. */
module UiModel {
  import opened Wrappers

  datatype HoldingUiModel = HoldingUiModel(
    symbol: Option<string>,
    netQuantityLabel: Option<string>,
    netQuantityValue: Option<string>,
    ltpLabel: Option<string>,
    ltpValue: Option<string>,
    pnlLabel: Option<string>,
    pnlValue: Option<string>,
    isPnlPositive: Option<bool>)

  datatype PortfolioSummaryUiModel = PortfolioSummaryUiModel(
    profitLossLabel: Option<string>,
    profitLossValue: Option<string>,
    profitLossPercentage: Option<string>,
    isProfitLossPositive: Option<bool>,
    currentValueLabel: Option<string>,
    currentValueValue: Option<string>,
    totalInvestmentLabel: Option<string>,
    totalInvestmentValue: Option<string>,
    todaysPnlLabel: Option<string>,
    todaysPnlValue: Option<string>,
    isTodaysPnlPositive: Option<bool>)

  datatype PortfolioUiModel = PortfolioUiModel(
    holdings: Option<seq<HoldingUiModel>>,
    summary: Option<PortfolioSummaryUiModel>)
}

/** The three states a loading pipeline reports. */
module Resources {

  datatype Resource<+T> = Loading | Success(data: T) | Error(message: string)
}
