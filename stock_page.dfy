/**
 * The stock page (`StockPage`, the page routed at `/stock/:symbol`): it requests the stock's
 * profile from the configured back end, shows a spinner, an error with a Retry button, a
 * "no data" notice or the profile, and formats the profile's figures.
 */
module StockPageView {
  import opened Wrappers
  import opened JsBuiltins
  import opened Formatters
  import opened Api

  const StockFailurePrefix := "Failed to fetch stock data: "

  /** The error shown after a failed request: the rejection's message, or "Unknown error" when it has none. */
  function StockFailureMessage(message: string): (r: string)
    ensures |r| > |StockFailurePrefix| && r[..|StockFailurePrefix|] == StockFailurePrefix
    ensures message != "" ==> r[|StockFailurePrefix|..] == message
    ensures message == "" ==> r[|StockFailurePrefix|..] == "Unknown error"
  {
    var reason := if message != "" then message else "Unknown error";
    var r := StockFailurePrefix + reason;
    assert r[..|StockFailurePrefix|] == StockFailurePrefix;
    assert r[|StockFailurePrefix|..] == reason;
    r
  }

  /** Different rejection messages are told apart in the error text (an empty one reads as "Unknown error"). */
  lemma StockFailureMessageInjective(m1: string, m2: string)
    requires m1 != "" && m2 != "" && StockFailureMessage(m1) == StockFailureMessage(m2)
    ensures m1 == m2
  {
    assert m1 == StockFailureMessage(m1)[|StockFailurePrefix|..];
  }

  /** The profile as the page lays it out: every figure already formatted. */
  datatype Overview = Overview(
    title: string,
    symbolChip: string,
    sector: string,
    industry: string,
    price: string,
    chip: string,
    gain: bool,
    marketCap: string,
    forwardPE: string,
    yearChange: string,
    revenue: string,
    profitMargin: string,
    returnOnEquity: string,
    dividendYield: string,
    location: string,
    website: Option<string>,
    exchange: string)

  /**
   * The content of the page for a loaded profile: the route symbol stands in for a missing
   * name or symbol, "N/A" for missing text, and each figure goes through its formatter.
   */
  function OverviewOf(symbol: string, p: StockProfile): (v: Overview)
    ensures v.title == TextOr(p.name, symbol) && v.symbolChip == TextOr(p.symbol, symbol)
    ensures |v.price| > 0 && v.price[0] == '$' && v.price[1..] == FormatNumber(p.regularMarketPrice, 2)
    ensures v.sector == TextOr(p.sector, NotAvailable) && v.industry == TextOr(p.industry, NotAvailable)
    ensures v.chip == ChangeLabel(p.regularMarketChange, p.regularMarketChangePercent)
    ensures v.gain == IsGain(p.regularMarketChange)
    ensures v.marketCap == FormatLargeNumber(p.marketCap) && v.revenue == FormatLargeNumber(p.totalRevenue)
    ensures v.forwardPE == FormatNumber(p.forwardPE, 2)
    ensures v.yearChange == FormatPercent(p.fiftyTwoWeekChange) && v.profitMargin == FormatPercent(p.profitMargin)
    ensures v.returnOnEquity == FormatPercent(p.returnOnEquity) && v.dividendYield == FormatPercent(p.dividendYield)
    ensures v.location == TextOr(p.location, NotAvailable) && v.exchange == TextOr(p.exchange, NotAvailable)
    ensures v.website.Some? <==> Truthy(p.website)
    ensures v.website.Some? ==> v.website.value == p.website.value
  {
    var price := "$" + FormatNumber(p.regularMarketPrice, 2);
    assert price[1..] == FormatNumber(p.regularMarketPrice, 2);
    Overview(
      TextOr(p.name, symbol),
      TextOr(p.symbol, symbol),
      TextOr(p.sector, NotAvailable),
      TextOr(p.industry, NotAvailable),
      price,
      ChangeLabel(p.regularMarketChange, p.regularMarketChangePercent),
      IsGain(p.regularMarketChange),
      FormatLargeNumber(p.marketCap),
      FormatNumber(p.forwardPE, 2),
      FormatPercent(p.fiftyTwoWeekChange),
      FormatLargeNumber(p.totalRevenue),
      FormatPercent(p.profitMargin),
      FormatPercent(p.returnOnEquity),
      FormatPercent(p.dividendYield),
      TextOr(p.location, NotAvailable),
      if Truthy(p.website) then Some(p.website.value) else None,
      TextOr(p.exchange, NotAvailable))
  }

  /** A market cap or revenue of zero is shown as an amount, not as "N/A": this page tests for null only. */
  lemma ZeroFiguresShown(symbol: string, p: StockProfile)
    requires p.marketCap == Some(0.0) && p.totalRevenue == Some(0.0)
    ensures OverviewOf(symbol, p).marketCap != NotAvailable && OverviewOf(symbol, p).marketCap[0] == '$'
    ensures OverviewOf(symbol, p).revenue != NotAvailable
  {
  }

  class StockPage {
    var symbol: string
    var stockData: Option<StockProfile>
    var loading: bool
    var error: Option<string>
    const apiBase: string

    /** Mounting on `/stock/<symbol>`: the initial state, then the effect's request. */
    constructor (symbol: string, configuredUrl: Option<string>)
      ensures this.symbol == symbol && apiBase == ApiBase(configuredUrl)
      ensures stockData.None? && loading && error.None?
    {
      this.symbol := symbol;
      stockData := None;
      loading := true;
      error := None;
      apiBase := ApiBase(configuredUrl);
      new;
      var _ := FetchStockData();
    }

    /**
     * The start of `fetchStockData`, also what the Retry and refresh buttons call: spinner on,
     * error cleared, the stock's URL requested. The data shown so far is kept.
     */
    method FetchStockData() returns (url: string)
      modifies this
      ensures url == StockUrl(apiBase, symbol)
      ensures loading && error.None?
      ensures symbol == old(symbol) && stockData == old(stockData)
    {
      loading := true;
      error := None;
      url := StockUrl(apiBase, symbol);
    }

    /** The route parameter changes: the effect runs again and requests the new symbol. */
    method ChangeSymbol(newSymbol: string) returns (url: string)
      modifies this
      ensures symbol == newSymbol && url == StockUrl(apiBase, newSymbol)
      ensures loading && error.None? && stockData == old(stockData)
    {
      symbol := newSymbol;
      url := FetchStockData();
    }

    /**
     * The request settles: a profile replaces the shown data, a failure sets the error and
     * leaves the shown data as it was; the spinner goes off either way.
     */
    method Settle(outcome: FetchOutcome<StockProfile>)
      modifies this
      ensures !loading && symbol == old(symbol)
      ensures outcome.Success? ==> stockData == Some(outcome.payload) && error == old(error)
      ensures outcome.Failure? ==> error == Some(StockFailureMessage(outcome.message)) && stockData == old(stockData)
    {
      loading := false;
      match outcome
      case Success(profile) =>
        stockData := Some(profile);
      case Failure(message, _) =>
        error := Some(StockFailureMessage(message));
    }

    /** Which of its four views the page renders. */
    function Screen(): (screen: Screen)
      reads this
      ensures screen.Spinner? <==> loading
      ensures screen.ErrorScreen? <==> !loading && Truthy(error)
      ensures screen.ErrorScreen? ==> screen.message == error.value
      ensures screen.NoData? <==> !loading && !Truthy(error) && stockData.None?
    {
      Precedence(loading, error, stockData.Some?)
    }

    /** The text of the "no data" view: a fixed sentence that ends with the route's symbol. */
    function NoDataText(): (text: string)
      reads this
      ensures |text| == 22 + |symbol|
      ensures text[..22] == "No data available for " && text[22..] == symbol
    {
      var text := "No data available for " + symbol;
      assert text[..22] == "No data available for " && text[22..] == symbol;
      text
    }
  }

  /**
   * A failed request always shows the error view, even over data loaded earlier, since the
   * error test comes before the data test.
   */
  method FailureHidesOldData(symbol: string, profile: StockProfile, message: string) returns (screen: Screen, kept: bool)
    ensures screen == ErrorScreen(StockFailureMessage(message))
    ensures kept
  {
    var page := new StockPage(symbol, None);
    page.Settle(Success(profile));
    var _ := page.FetchStockData();
    page.Settle(Failure(message, None));
    screen := page.Screen();
    kept := page.stockData == Some(profile);
  }
}
