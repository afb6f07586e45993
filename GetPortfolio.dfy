/**
 * The portfolio pipeline: it reports `Loading`, then turns every state the
 * holdings source reports into a state of the display model, and ends with
 * an error state if the source throws.
 */
module GetPortfolio {
  import opened Wrappers
  import opened DomainModel
  import opened UiModel
  import opened Resources
  import opened Collections
  import CalculateHoldingSummary
  import CalculatePortfolioSummary
  import PortfolioUiModelMapper

  /** The three injected collaborators, as the functions they are called as. */
  datatype Collaborators = Collaborators(
    calculateHoldingSummary: Holding -> Option<HoldingSummary>,
    calculatePortfolioSummary: Option<seq<HoldingSummary>> -> Option<PortfolioSummary>,
    mapToUiModel: Option<Portfolio> -> Option<PortfolioUiModel>)

  /** The production wiring: the two calculators and the mapper with the given formatters. */
  function Real(formatCurrency: PortfolioUiModelMapper.Formatter, formatPercentage: PortfolioUiModelMapper.Formatter)
    : Collaborators
  {
    Collaborators(
      (h: Holding) => CalculateHoldingSummary.Invoke(Some(h)),
      (l: Option<seq<HoldingSummary>>) => CalculatePortfolioSummary.Invoke(l),
      (p: Option<Portfolio>) => PortfolioUiModelMapper.MapToUiModel(p, formatCurrency, formatPercentage))
  }

  const MappingFailed: string := "Failed to map portfolio data to UI model"
  const UnknownError: string := "Unknown error occurred"

  /** The summaries of the holdings, in order, leaving out every holding the calculator gives none for. */
  function KeptSummaries(holdings: seq<Holding>, c: Collaborators): seq<HoldingSummary> {
    MapNotNull(holdings, c.calculateHoldingSummary)
  }

  /** The portfolio built on `Success`: the kept summaries, null when none, and their aggregate. */
  function BuildPortfolio(holdings: seq<Holding>, c: Collaborators): (p: Portfolio)
    ensures p.holdings.None? <==> forall i :: 0 <= i < |holdings| ==> c.calculateHoldingSummary(holdings[i]).None?
    ensures p.holdings.Some? ==> p.holdings.value == KeptSummaries(holdings, c) && |p.holdings.value| > 0
    ensures p.summary == c.calculatePortfolioSummary(Some(KeptSummaries(holdings, c)))
  {
    var holdingSummaries := KeptSummaries(holdings, c);
    var portfolioSummary := c.calculatePortfolioSummary(Some(holdingSummaries));
    Portfolio(if |holdingSummaries| == 0 then None else Some(holdingSummaries), portfolioSummary)
  }

  /** The `Success` branch: map the portfolio, and report a mapping failure as an error. */
  function OnSuccess(holdings: seq<Holding>, c: Collaborators): (r: Resource<PortfolioUiModel>)
    ensures r.Loading? == false
    ensures r.Error? <==> c.mapToUiModel(Some(BuildPortfolio(holdings, c))).None?
    ensures r.Error? ==> r.message == MappingFailed
    ensures r.Success? ==> Some(r.data) == c.mapToUiModel(Some(BuildPortfolio(holdings, c)))
  {
    var uiModel := c.mapToUiModel(Some(BuildPortfolio(holdings, c)));
    if uiModel.Some? then Success(uiModel.value) else Error(MappingFailed)
  }

  /** One upstream state to one output state. */
  function Translate(resource: Resource<seq<Holding>>, c: Collaborators): (r: Resource<PortfolioUiModel>)
    ensures r.Loading? <==> resource.Loading?
    ensures resource.Error? ==> r == Error(resource.message)
    ensures resource.Success? ==> r == OnSuccess(resource.data, c)
  {
    match resource
    case Loading => Loading
    case Error(message) => Error(message)
    case Success(holdings) => OnSuccess(holdings, c)
  }

  /** How the upstream flow ended: normally, or by throwing an exception whose message may be null. */
  datatype Completion = Completed | Threw(message: Option<string>)

  /** The last state, if the source threw: an error with the exception's message, or a fixed text when it has none. */
  function Ending(completion: Completion): (r: seq<Resource<PortfolioUiModel>>)
    ensures |r| == (if completion.Threw? then 1 else 0)
    ensures forall i :: 0 <= i < |r| ==> r[i].Error?
    ensures completion.Threw? && completion.message.Some? ==> r == [Error(completion.message.value)]
    ensures completion.Threw? && completion.message.None? ==> r == [Error(UnknownError)]
  {
    match completion
    case Completed => []
    case Threw(message) => [Error(message.GetOr(UnknownError))]
  }

  /** Everything the pipeline emits, in order. */
  function Emissions(upstream: seq<Resource<seq<Holding>>>, completion: Completion, c: Collaborators)
    : seq<Resource<PortfolioUiModel>>
  {
    [Loading] + Map(upstream, (r: Resource<seq<Holding>>) => Translate(r, c)) + Ending(completion)
  }

  /**
   * `GetPortfolioUseCase.invoke`: `upstream` is what the holdings source
   * emits before it completes or throws.
   */
  method Invoke(upstream: seq<Resource<seq<Holding>>>, completion: Completion, c: Collaborators)
    returns (emitted: seq<Resource<PortfolioUiModel>>)
    ensures emitted == Emissions(upstream, completion, c)
  {
    ghost var translate := (r: Resource<seq<Holding>>) => Translate(r, c);
    emitted := [Loading];
    var i := 0;
    while i < |upstream|
      invariant 0 <= i <= |upstream|
      invariant emitted == [Loading] + Map(upstream[..i], translate)
    {
      assert upstream[..i + 1] == upstream[..i] + [upstream[i]];
      MapAppend(upstream[..i], [upstream[i]], translate);
      emitted := emitted + [Translate(upstream[i], c)];
      i := i + 1;
    }
    assert upstream[..i] == upstream;
    if completion.Threw? {
      emitted := emitted + [Error(completion.message.GetOr(UnknownError))];
    }
  }

  /**
   * The shape of the output: `Loading` first, then one state per upstream
   * state, in order, then the error of a throw.
   */
  lemma EmissionsShape(upstream: seq<Resource<seq<Holding>>>, completion: Completion, c: Collaborators)
    ensures var e := Emissions(upstream, completion, c);
      && |e| == 1 + |upstream| + (if completion.Threw? then 1 else 0)
      && e[0] == Loading
      && (forall i :: 0 <= i < |upstream| ==> e[i + 1] == Translate(upstream[i], c))
      && (completion.Threw? ==> e[|e| - 1] == Error(completion.message.GetOr(UnknownError)))
  {
    var m := Map(upstream, (r: Resource<seq<Holding>>) => Translate(r, c));
    var e := Emissions(upstream, completion, c);
    assert e == [Loading] + m + Ending(completion);
    assert |m| == |upstream|;
    forall i | 0 <= i < |upstream| ensures e[i + 1] == Translate(upstream[i], c) {
      assert e[i + 1] == m[i];
    }
  }

  /** The kept summaries keep the order of their holdings. */
  lemma KeptInOrder(a: seq<Holding>, b: seq<Holding>, c: Collaborators)
    ensures KeptSummaries(a + b, c) == KeptSummaries(a, c) + KeptSummaries(b, c)
  {
    MapNotNullAppend(a, b, c.calculateHoldingSummary);
  }

  /** The mixed case from the tests: a holding whose summary is null is dropped between two that are kept. */
  lemma DropsNullSummary(h1: Holding, h2: Holding, h3: Holding, c: Collaborators)
    requires c.calculateHoldingSummary(h1).Some? && c.calculateHoldingSummary(h3).Some?
    requires c.calculateHoldingSummary(h2).None?
    ensures BuildPortfolio([h1, h2, h3], c).holdings
            == Some([c.calculateHoldingSummary(h1).value, c.calculateHoldingSummary(h3).value])
  {
    assert [h1, h2, h3] == [h1] + [h2] + [h3];
    KeptInOrder([h1] + [h2], [h3], c);
    KeptInOrder([h1], [h2], c);
    assert KeptSummaries([h1], c) == [c.calculateHoldingSummary(h1).value];
    assert KeptSummaries([h2], c) == [];
    assert KeptSummaries([h3], c) == [c.calculateHoldingSummary(h3).value];
    var s1, s3 := c.calculateHoldingSummary(h1).value, c.calculateHoldingSummary(h3).value;
    assert KeptSummaries([h1, h2, h3], c) == [s1] + [] + [s3] == [s1, s3];
  }

  /** With the real calculator no holding is dropped, and each summary is that of its holding. */
  lemma RealKeepsEveryHolding(holdings: seq<Holding>, fc: PortfolioUiModelMapper.Formatter,
                              fp: PortfolioUiModelMapper.Formatter)
    ensures var kept := KeptSummaries(holdings, Real(fc, fp));
      |kept| == |holdings|
      && forall i :: 0 <= i < |holdings| ==>
           kept[i] == CalculateHoldingSummary.Invoke(Some(holdings[i])).value && kept[i].holding == Some(holdings[i])
  {
  }

  /** With the real collaborators, no holdings give `Portfolio(null, null)`, shown as an empty display model. */
  lemma RealEmptyHoldings(fc: PortfolioUiModelMapper.Formatter, fp: PortfolioUiModelMapper.Formatter)
    ensures BuildPortfolio([], Real(fc, fp)) == Portfolio(None, None)
    ensures OnSuccess([], Real(fc, fp)) == Success(PortfolioUiModel(None, None))
  {
  }

  /** With the real collaborators, some holdings always give a portfolio summary. */
  lemma RealNonEmptyHasSummary(holdings: seq<Holding>, fc: PortfolioUiModelMapper.Formatter,
                               fp: PortfolioUiModelMapper.Formatter)
    requires |holdings| > 0
    ensures BuildPortfolio(holdings, Real(fc, fp)).summary.Some?
    ensures BuildPortfolio(holdings, Real(fc, fp)).holdings.Some?
  {
    RealKeepsEveryHolding(holdings, fc, fp);
  }

  /** With the real collaborators the mapping-failure error is never emitted for a `Success`. */
  lemma RealNeverFailsToMap(holdings: seq<Holding>, fc: PortfolioUiModelMapper.Formatter,
                            fp: PortfolioUiModelMapper.Formatter)
    ensures Translate(Success(holdings), Real(fc, fp)).Success?
  {
  }

  /**
   * With the real collaborators the output holds an error only where the
   * source reported one, or at the end when it threw.
   */
  lemma RealErrorsComeFromUpstream(upstream: seq<Resource<seq<Holding>>>, completion: Completion,
                                   fc: PortfolioUiModelMapper.Formatter, fp: PortfolioUiModelMapper.Formatter)
    ensures var e := Emissions(upstream, completion, Real(fc, fp));
      forall i :: 0 <= i < |e| && e[i].Error? ==>
        (1 <= i <= |upstream| && upstream[i - 1] == Error(e[i].message))
        || (completion.Threw? && i == |e| - 1)
  {
    EmissionsShape(upstream, completion, Real(fc, fp));
    forall i | 0 <= i < |upstream| && upstream[i].Success?
      ensures Translate(upstream[i], Real(fc, fp)).Success?
    {
      RealNeverFailsToMap(upstream[i].data, fc, fp);
    }
  }
}
