# Portfolio calculations: a Dafny model

This project models the core of the ChiragMittalDemo Android portfolio app, which is written in Kotlin. The core is the chain that turns the holdings a broker API reports into what the portfolio screen shows:

- **HoldingMapper** turns each transfer object into a domain `Holding`. It keeps every field, nullable or not.
- **CalculateHoldingSummaryUseCase** derives six figures from one holding:
  - current value
  - total investment
  - total P&L and its percentage
  - today's P&L and its percentage

  A figure is null when any input it needs is null. A percentage is null when its divisor is zero.
- **CalculatePortfolioSummaryUseCase** aggregates a list of holding summaries:
  - It sums current value, investment and today's P&L, each over the summaries that have that figure. The sum is null when no summary has it.
  - It derives total P&L and the two percentages from those sums.
- **PortfolioUiModelMapper** turns the portfolio into display strings. A label is present exactly when its figure is. Values go through two formatters, currency and percentage. Sign flags treat zero as a gain. The quantity prints as a decimal numeral.
- **GetPortfolioUseCase** combines these over a stream of repository states:
  1. It emits `Loading`.
  2. It forwards every `Loading` and `Error`.
  3. On `Success` it summarises each holding and drops null summaries. It builds the `Portfolio`, whose holdings become null when none are kept, and maps it. A mapping failure becomes a fixed error message.
  4. If the source throws, it ends with one error carrying the exception's message, or a fixed fallback when there is none.

How Kotlin becomes Dafny:

- Kotlin's nullable `T?` becomes `Option<T>`.
- `Double` becomes `real`.
- `Int` becomes the subset type `int32`.
- `mapNotNull`, `map` and `sum` become recursive functions in module `Collections`, each with lemmas.

The calculators and mappers are pure, so they are Dafny functions. The use case's collection loop is a `method` with a `while` loop. That method is proved equal to the specification function `GetPortfolio.Emissions`.

In the app, the use case receives its three collaborators through its constructor. The two calculators are interfaces; the UI model mapper is a concrete class. The tests mock all three. The model therefore takes them as a `Collaborators` value of function parameters. `GetPortfolio.Real` wires in the real calculators and mapper.

Each operation is paired with an independent specification, with lemmas connecting the two:

- `CalculateHoldingSummary.Summarises` gives the per-holding presence and value rules. It is complete: a summary that satisfies it *is* the calculator's result.
- `CalculatePortfolioSummary.Aggregates` states the aggregate rules in terms of zero-filled totals, which is independent of `mapNotNull`. The model also proves that the aggregate is the same for every reordering of the holding summaries.
- The quantity's decimal text parses back to the quantity.
- The pipeline's output is characterised element by element.

## Model

| member | source | states |
|---|---|---|
| Collections.MapNotNull | app/src/main/java/com/cm10/chiragmittaldemo/domain/usecase/GetPortfolioUseCase.kt:28-30 | never keeps more results than inputs; keeps nothing exactly when every result is null; keeps all of them, in order, when none is null |
| Collections.MapNotNullAppend | app/src/main/java/com/cm10/chiragmittaldemo/domain/usecase/GetPortfolioUseCase.kt:28-30 | filtering a concatenation is the concatenation of the filtered parts, so the order of kept results is the order of the inputs |
| Collections.MapNotNullMembers | app/src/main/java/com/cm10/chiragmittaldemo/domain/usecase/GetPortfolioUseCase.kt:28-30 | a value is among the kept results exactly when some input maps to it |
| Collections.MapNotNullCongruent | app/src/main/java/com/cm10/chiragmittaldemo/domain/usecase/CalculatePortfolioSummaryUseCase.kt:28-53 | two lists of the same length whose elements filter to the same optional values, position by position, keep the same results |
| Collections.Map | app/src/main/java/com/cm10/chiragmittaldemo/presentation/mapper/PortfolioUiModelMapper.kt:17 | same length as the input, element i is the function of input i |
| Collections.MapAppend | app/src/main/java/com/cm10/chiragmittaldemo/domain/usecase/GetPortfolioUseCase.kt:22-47 | mapping a concatenation is the concatenation of the mapped parts |
| Collections.Sum | app/src/main/java/com/cm10/chiragmittaldemo/domain/usecase/CalculatePortfolioSummaryUseCase.kt:30 | the sum of non-negative values is non-negative and at least each of them |
| Collections.SumAppend | app/src/main/java/com/cm10/chiragmittaldemo/domain/usecase/CalculatePortfolioSummaryUseCase.kt:28-31 | the sum of a concatenation is the sum of the parts' sums |
| Collections.SumSwap | app/src/main/java/com/cm10/chiragmittaldemo/domain/usecase/CalculatePortfolioSummaryUseCase.kt:28-31 | swapping the two halves of a list leaves its sum unchanged |
| CalculateHoldingSummary.CalculateCurrentValue | app/src/main/java/com/cm10/chiragmittaldemo/domain/usecase/CalculateHoldingSummaryUseCase.kt:29-33 | present exactly when the last traded price and the quantity are |
| CalculateHoldingSummary.CalculateTotalInvestment | app/src/main/java/com/cm10/chiragmittaldemo/domain/usecase/CalculateHoldingSummaryUseCase.kt:35-39 | present exactly when the average price and the quantity are |
| CalculateHoldingSummary.CalculateTotalPnl | app/src/main/java/com/cm10/chiragmittaldemo/domain/usecase/CalculateHoldingSummaryUseCase.kt:41-45 | present exactly when current value and investment are, and investment plus P&L is the current value |
| CalculateHoldingSummary.CalculateTotalPnlPercentage | app/src/main/java/com/cm10/chiragmittaldemo/domain/usecase/CalculateHoldingSummaryUseCase.kt:47-51 | present exactly when P&L and investment are and the investment is non-zero, and the percentage times the investment is 100 × the P&L |
| CalculateHoldingSummary.CalculateTodaysPnl | app/src/main/java/com/cm10/chiragmittaldemo/domain/usecase/CalculateHoldingSummaryUseCase.kt:53-57 | present exactly when close, last traded price and quantity are |
| CalculateHoldingSummary.CalculateTodaysPnlPercentage | app/src/main/java/com/cm10/chiragmittaldemo/domain/usecase/CalculateHoldingSummaryUseCase.kt:59-63 | present exactly when close and a non-zero last traded price are present, and the percentage times the price is 100 × (close − ltp) |
| CalculateHoldingSummary.Invoke | app/src/main/java/com/cm10/chiragmittaldemo/domain/usecase/CalculateHoldingSummaryUseCase.kt:8-27 | null exactly for a null holding; otherwise the summary carries the holding it was computed from |
| CalculateHoldingSummary.InvokePresence | app/src/main/java/com/cm10/chiragmittaldemo/domain/usecase/CalculateHoldingSummaryUseCase.kt:29-63 | each of the six figures is present exactly when the inputs it needs are present, and for the percentages when the divisor is non-zero |
| CalculateHoldingSummary.InvokeAmounts | app/src/main/java/com/cm10/chiragmittaldemo/domain/usecase/CalculateHoldingSummaryUseCase.kt:29-57 | the four amounts of the summary are ltp × qty, avgPrice × qty, their difference (also (ltp − avgPrice) × qty) and (close − ltp) × qty |
| CalculateHoldingSummary.InvokePercentages | app/src/main/java/com/cm10/chiragmittaldemo/domain/usecase/CalculateHoldingSummaryUseCase.kt:47-63 | each present percentage, multiplied by its base, is 100 × its P&L |
| CalculateHoldingSummary.InvokeValues | app/src/main/java/com/cm10/chiragmittaldemo/domain/usecase/CalculateHoldingSummaryUseCase.kt:29-63 | each present figure has its defining value: ltp × qty, avgPrice × qty, their difference, (close − ltp) × qty, and the percentages multiplied back by their divisors |
| CalculateHoldingSummary.InvokeSummarises | app/src/main/java/com/cm10/chiragmittaldemo/domain/usecase/CalculateHoldingSummaryUseCase.kt:8-63 | the calculator's summary of a holding satisfies the full presence-and-value specification |
| CalculateHoldingSummary.SameAmounts | app/src/main/java/com/cm10/chiragmittaldemo/domain/usecase/CalculateHoldingSummaryUseCase.kt:29-57 | two summaries that both satisfy the specification agree on the four amounts |
| CalculateHoldingSummary.SamePercentages | app/src/main/java/com/cm10/chiragmittaldemo/domain/usecase/CalculateHoldingSummaryUseCase.kt:47-63 | two summaries that both satisfy the specification agree on the two percentages |
| CalculateHoldingSummary.SummarisesDetermines | app/src/main/java/com/cm10/chiragmittaldemo/domain/usecase/CalculateHoldingSummaryUseCase.kt:8-63 | the specification is complete: any summary satisfying it is exactly the calculator's result |
| CalculateHoldingSummary.QuantityAbsent | app/src/test/java/com/cm10/chiragmittaldemo/domain/usecase/CalculateHoldingSummaryUseCaseTest.kt:124-147 | without a quantity, current value, investment, total P&L, its percentage and today's P&L are null, while today's percentage is still (close − ltp) / ltp × 100 |
| CalculateHoldingSummary.TodaysPercentageReadsOnlyPrices | app/src/main/java/com/cm10/chiragmittaldemo/domain/usecase/CalculateHoldingSummaryUseCase.kt:59-63 | two holdings with the same ltp and close have the same today's percentage, whatever their symbol, quantity and average price |
| CalculateHoldingSummary.TotalPercentageIsPriceGain | app/src/main/java/com/cm10/chiragmittaldemo/domain/usecase/CalculateHoldingSummaryUseCase.kt:35-51 | whenever the total percentage is present, the average price is non-zero, ltp is present, and the percentage is the price gain (ltp − avgPrice) / avgPrice × 100, independent of quantity |
| CalculateHoldingSummary.ScenarioProfit | app/src/test/java/com/cm10/chiragmittaldemo/domain/usecase/CalculateHoldingSummaryUseCaseTest.kt:19-41 | the profit example's figures are those the test expects, within its tolerance |
| CalculateHoldingSummary.ScenarioZeroLtp | app/src/test/java/com/cm10/chiragmittaldemo/domain/usecase/CalculateHoldingSummaryUseCaseTest.kt:91-113 | a zero last traded price gives zero current value, a loss of the whole investment, −100 percent, and no today's percentage since its divisor is zero |
| CalculatePortfolioSummary.SumOfPresent | app/src/main/java/com/cm10/chiragmittaldemo/domain/usecase/CalculatePortfolioSummaryUseCase.kt:28-31 | a summed figure is absent exactly when no summary has it |
| CalculatePortfolioSummary.CalculateTotalCurrentValue | app/src/main/java/com/cm10/chiragmittaldemo/domain/usecase/CalculatePortfolioSummaryUseCase.kt:28-31 | the total current value is absent exactly when no summary has a current value |
| CalculatePortfolioSummary.CalculateTotalInvestment | app/src/main/java/com/cm10/chiragmittaldemo/domain/usecase/CalculatePortfolioSummaryUseCase.kt:33-36 | the total investment is absent exactly when no summary has an investment |
| CalculatePortfolioSummary.CalculateTotalTodaysPnl | app/src/main/java/com/cm10/chiragmittaldemo/domain/usecase/CalculatePortfolioSummaryUseCase.kt:50-53 | today's total P&L is absent exactly when no summary has today's P&L |
| CalculatePortfolioSummary.CalculateTodaysPnlPercentage | app/src/main/java/com/cm10/chiragmittaldemo/domain/usecase/CalculatePortfolioSummaryUseCase.kt:55-59 | present exactly when today's P&L and a non-zero current value are, and the percentage times the current value is 100 × today's P&L |
| CalculatePortfolioSummary.Invoke | app/src/main/java/com/cm10/chiragmittaldemo/domain/usecase/CalculatePortfolioSummaryUseCase.kt:8-26 | null exactly when the list is null or empty |
| CalculatePortfolioSummary.SumOfKeptIsZeroFilled | app/src/main/java/com/cm10/chiragmittaldemo/domain/usecase/CalculatePortfolioSummaryUseCase.kt:28-36 | summing the present values of a figure gives the same total as counting every absent value as zero |
| CalculatePortfolioSummary.SumOfPresentSpec | app/src/main/java/com/cm10/chiragmittaldemo/domain/usecase/CalculatePortfolioSummaryUseCase.kt:28-53 | a summed figure is absent exactly when no summary has it, and is otherwise its zero-filled total |
| CalculatePortfolioSummary.InvokeSummedFigures | app/src/main/java/com/cm10/chiragmittaldemo/domain/usecase/CalculatePortfolioSummaryUseCase.kt:8-53 | for a non-empty list, current value, investment and today's P&L follow the summed-figure rule |
| CalculatePortfolioSummary.InvokeDerivedFigures | app/src/main/java/com/cm10/chiragmittaldemo/domain/usecase/CalculatePortfolioSummaryUseCase.kt:8-59 | total P&L is current value minus investment; the total percentage times investment, and today's percentage times current value, give 100 × the P&L, and each is present exactly when its inputs are and its divisor is non-zero |
| CalculatePortfolioSummary.InvokeAggregates | app/src/main/java/com/cm10/chiragmittaldemo/domain/usecase/CalculatePortfolioSummaryUseCase.kt:8-59 | for any non-empty list the aggregate satisfies every summed and derived rule |
| CalculatePortfolioSummary.AppendAbsentUnchanged | app/src/main/java/com/cm10/chiragmittaldemo/domain/usecase/CalculatePortfolioSummaryUseCase.kt:28-53 | adding a summary with none of the three summed figures to a non-empty list changes nothing |
| CalculatePortfolioSummary.SumOfPresentSwap | app/src/main/java/com/cm10/chiragmittaldemo/domain/usecase/CalculatePortfolioSummaryUseCase.kt:28-53 | a summed figure does not depend on which half of the list comes first |
| CalculatePortfolioSummary.OrderIrrelevant | app/src/main/java/com/cm10/chiragmittaldemo/domain/usecase/CalculatePortfolioSummaryUseCase.kt:8-59 | swapping the two halves of a list of summaries leaves the aggregate unchanged |
| CalculatePortfolioSummary.ZeroFilledAppend | app/src/main/java/com/cm10/chiragmittaldemo/domain/usecase/CalculatePortfolioSummaryUseCase.kt:28-53 | the zero-filled total of a concatenation is the sum of the parts' totals |
| CalculatePortfolioSummary.ZeroFilledPermutation | app/src/main/java/com/cm10/chiragmittaldemo/domain/usecase/CalculatePortfolioSummaryUseCase.kt:28-53 | two lists with the same elements, in any order, have the same zero-filled total |
| CalculatePortfolioSummary.SumOfPresentPermutation | app/src/main/java/com/cm10/chiragmittaldemo/domain/usecase/CalculatePortfolioSummaryUseCase.kt:28-53 | two lists with the same elements, in any order, give the same summed figure |
| CalculatePortfolioSummary.PermutationIrrelevant | app/src/main/java/com/cm10/chiragmittaldemo/domain/usecase/CalculatePortfolioSummaryUseCase.kt:8-59 | two lists of summaries with the same elements, in any order, give the same aggregate |
| CalculatePortfolioSummary.ReadsOnlySummedFigures | app/src/main/java/com/cm10/chiragmittaldemo/domain/usecase/CalculatePortfolioSummaryUseCase.kt:8-26 | two lists whose summaries agree on current value, investment and today's P&L have the same aggregate, whatever their per-holding P&L and percentages |
| CalculatePortfolioSummary.ScenarioThreeHoldings | app/src/test/java/com/cm10/chiragmittaldemo/domain/usecase/CalculatePortfolioSummaryUseCaseTest.kt:20-64 | the mixed-profits example gives the sums and derived figures the test expects |
| CalculatePortfolioSummary.ScenarioPartialNulls | app/src/test/java/com/cm10/chiragmittaldemo/domain/usecase/CalculatePortfolioSummaryUseCaseTest.kt:152-187 | with some figures null, each sum covers exactly the summaries that have that figure, and the total percentage is −16.67 within the test's tolerance |
| HoldingMapper.MapToDomain | app/src/main/java/com/cm10/chiragmittaldemo/data/mapper/HoldingMapper.kt:8-18 | null exactly for a null transfer object; otherwise all five fields are carried over unchanged |
| HoldingMapper.MapElement | app/src/main/java/com/cm10/chiragmittaldemo/data/mapper/HoldingMapper.kt:21 | mapping an element of the list is never null and copies its five fields |
| HoldingMapper.MapToDomainList | app/src/main/java/com/cm10/chiragmittaldemo/data/mapper/HoldingMapper.kt:20-22 | null exactly for a null or empty list; otherwise a non-empty list of the same length whose element i is the mapping of element i |
| HoldingMapper.MapToDomainInjective | app/src/main/java/com/cm10/chiragmittaldemo/data/mapper/HoldingMapper.kt:8-18 | distinct transfer objects map to distinct holdings |
| HoldingMapper.AllAbsentKept | app/src/test/java/com/cm10/chiragmittaldemo/data/mapper/HoldingMapperTest.kt:161-179 | a list of n transfer objects with every field null still gives n holdings, all fields null |
| DecimalText.NatToDecimal | app/src/main/java/com/cm10/chiragmittaldemo/presentation/mapper/PortfolioUiModelMapper.kt:27 | the numeral of a natural number is a non-empty digit string, with a leading zero only for zero, and one digit exactly below ten |
| DecimalText.IntToDecimal | app/src/main/java/com/cm10/chiragmittaldemo/presentation/mapper/PortfolioUiModelMapper.kt:27 | the numeral of an integer starts with a minus sign exactly when the integer is negative, and the digits after the sign have no leading zero unless the value is zero |
| DecimalText.NatRoundTrip | app/src/main/java/com/cm10/chiragmittaldemo/presentation/mapper/PortfolioUiModelMapper.kt:27 | the digits of a natural number read back as that number |
| DecimalText.RoundTrip | app/src/main/java/com/cm10/chiragmittaldemo/presentation/mapper/PortfolioUiModelMapper.kt:27 | every integer's numeral parses back to that integer |
| PortfolioUiModelMapper.LabelFor | app/src/main/java/com/cm10/chiragmittaldemo/presentation/mapper/PortfolioUiModelMapper.kt:26-30 | a label is present exactly when its figure is, and is then the given text |
| PortfolioUiModelMapper.Formatted | app/src/main/java/com/cm10/chiragmittaldemo/presentation/mapper/PortfolioUiModelMapper.kt:29-31 | a formatted value is present exactly when its figure is present and the formatter succeeds, and is then the formatter's text |
| PortfolioUiModelMapper.SignOf | app/src/main/java/com/cm10/chiragmittaldemo/presentation/mapper/PortfolioUiModelMapper.kt:32 | the sign flag is present exactly when the figure is, and is true exactly when the figure is zero or more |
| PortfolioUiModelMapper.MapHoldingToUiModel | app/src/main/java/com/cm10/chiragmittaldemo/presentation/mapper/PortfolioUiModelMapper.kt:23-34 | symbol copied; each label present exactly when its figure is, and then its fixed text ("NET QTY: ", "LTP: ", "P&L: "); the quantity text is the quantity's decimal numeral, which has no leading zero and parses back to the quantity; prices and P&L are the currency formatter's text; the P&L sign flag tells gain from loss |
| PortfolioUiModelMapper.PercentageText | app/src/main/java/com/cm10/chiragmittaldemo/presentation/mapper/PortfolioUiModelMapper.kt:41 | present exactly when the percentage is present and the formatter succeeds, and is then " (", the formatted text and "%)" |
| PortfolioUiModelMapper.MapSummaryToUiModel | app/src/main/java/com/cm10/chiragmittaldemo/presentation/mapper/PortfolioUiModelMapper.kt:36-55 | null exactly for a null summary; otherwise each of the four labels is present exactly when its figure is, and then its fixed text; every value is the currency formatter's text; the percentage is the percentage text of the total percentage, " (" + formatted + "%)"; both sign flags tell gain from loss |
| PortfolioUiModelMapper.MapToUiModel | app/src/main/java/com/cm10/chiragmittaldemo/presentation/mapper/PortfolioUiModelMapper.kt:14-21 | null exactly for a null portfolio; the holdings are null exactly when the portfolio's are, and otherwise are mapped one for one in order; the summary is null exactly when the portfolio's is, and is otherwise the mapped portfolio summary |
| PortfolioUiModelMapper.LabelsIgnoreFormatters | app/src/main/java/com/cm10/chiragmittaldemo/presentation/mapper/PortfolioUiModelMapper.kt:36-55 | the four labels and both sign flags do not depend on which formatters are used |
| PortfolioUiModelMapper.AllAbsentShowsNothing | app/src/test/java/com/cm10/chiragmittaldemo/presentation/mapper/PortfolioUiModelMapperTest.kt:287-323 | a summary with every figure null shows no label, value, percentage or sign flag |
| GetPortfolio.BuildPortfolio | app/src/main/java/com/cm10/chiragmittaldemo/domain/usecase/GetPortfolioUseCase.kt:27-36 | holdings are null exactly when every holding's summary is null, and are otherwise the kept summaries; the summary is the aggregate of the kept summaries |
| GetPortfolio.OnSuccess | app/src/main/java/com/cm10/chiragmittaldemo/domain/usecase/GetPortfolioUseCase.kt:26-45 | never Loading; an error exactly when the mapper gives null, with the mapping-failure message; otherwise a success carrying the mapper's model |
| GetPortfolio.Translate | app/src/main/java/com/cm10/chiragmittaldemo/domain/usecase/GetPortfolioUseCase.kt:23-46 | Loading exactly for Loading; an upstream error is forwarded with its message; a Success goes through the success branch |
| GetPortfolio.Ending | app/src/main/java/com/cm10/chiragmittaldemo/domain/usecase/GetPortfolioUseCase.kt:48-49 | one error state exactly when the source threw, carrying the exception's message or, when it has none, the fixed fallback text |
| GetPortfolio.Invoke | app/src/main/java/com/cm10/chiragmittaldemo/domain/usecase/GetPortfolioUseCase.kt:18-51 | the states emitted are exactly the specified emissions: Loading, one translated state per upstream state in order, then the error state if the source threw |
| GetPortfolio.EmissionsShape | app/src/main/java/com/cm10/chiragmittaldemo/domain/usecase/GetPortfolioUseCase.kt:18-51 | one more state than the upstream, plus one if it threw; the first is Loading; state i + 1 translates upstream state i; a thrown exception ends with its message or the fallback text |
| GetPortfolio.KeptInOrder | app/src/main/java/com/cm10/chiragmittaldemo/domain/usecase/GetPortfolioUseCase.kt:28-30 | the kept summaries of two batches of holdings, one after the other, are those of the first batch followed by those of the second |
| GetPortfolio.DropsNullSummary | app/src/test/java/com/cm10/chiragmittaldemo/domain/usecase/GetPortfolioUseCaseTest.kt:282-352 | when the middle of three holdings has no summary, the portfolio holds the other two in order |
| GetPortfolio.RealKeepsEveryHolding | app/src/main/java/com/cm10/chiragmittaldemo/domain/usecase/GetPortfolioUseCase.kt:28-30 | with the real calculator no holding is dropped: there is one summary per holding, for that holding |
| GetPortfolio.RealEmptyHoldings | app/src/main/java/com/cm10/chiragmittaldemo/domain/usecase/GetPortfolioUseCase.kt:31-36 | with the real collaborators no holdings give a portfolio with null holdings and summary, shown as a success with an empty model |
| GetPortfolio.RealNonEmptyHasSummary | app/src/main/java/com/cm10/chiragmittaldemo/domain/usecase/GetPortfolioUseCase.kt:31-36 | with the real collaborators a non-empty list of holdings gives a portfolio whose holdings and summary are both present |
| GetPortfolio.RealNeverFailsToMap | app/src/main/java/com/cm10/chiragmittaldemo/domain/usecase/GetPortfolioUseCase.kt:39-44 | with the real mapper a Success upstream never yields the mapping-failure error |
| GetPortfolio.RealErrorsComeFromUpstream | app/src/main/java/com/cm10/chiragmittaldemo/domain/usecase/GetPortfolioUseCase.kt:18-51 | with the real collaborators every error emitted is an upstream error, or the final state after a throw |

## Left out

- Floating point. `Double` is modelled as exact `real`, so the model has no rounding, NaN or infinities, and it does not distinguish ±0. The unit tests' tolerance appears only in the scenario lemmas. In the app, division by zero is avoided by the zero checks the model keeps. Order-independence of the aggregate (`CalculatePortfolioSummary.OrderIrrelevant`) holds for reals; in IEEE arithmetic, addition is not associative, so it holds only up to rounding.
- Formatting. The currency and percentage formatters, which are `DecimalFormat`-based extension functions, are parameters of type `real -> Option<string>`. Their output, locale and currency symbol are not modelled; only where their text ends up is modelled.
- Concurrency. The coroutine machinery is not modelled: flow suspension, cancellation and back-pressure. The upstream flow is a finite sequence of states followed by a completion marker.
- Exceptions. An exception is modelled only as raised by the upstream after its listed states. The collaborators are pure functions in the model, so an exception thrown inside a calculator or the mapper is not modelled. The states emitted before the exception are kept, in the same way.
- Data layer and UI. The repository, the Retrofit API, the DTO-to-domain wiring in the repository, dependency injection, the ViewModel and the Compose UI are not part of this model.
- Holding.kt and Resource.kt are not part of this model. The shapes of `Holding` and `Resource` follow their uses in the core and its tests:
  - `Holding` has five nullable fields.
  - `Resource` is `Loading | Success(data) | Error(message)`.
- The portfolio aggregate reuses `CalculateHoldingSummary.CalculateTotalPnl` and `CalculateTotalPnlPercentage`. The portfolio use case has its own private copies of those helpers (CalculatePortfolioSummaryUseCase.kt lines 38-48), with the same bodies.
- Null list elements: Kotlin's list type here does not admit null elements, so the mapping never drops an element. The test titled "filters them out" exercises no null element, and the model keeps every element.
