/**
 * The older stock details page (`StockDetails`): it requests the stock's profile from the
 * development back end once per symbol, and lays out the figures, some of them behind a
 * truthiness test, together with the analysts' recommendations.
 */
module StockDetailsView {
  import opened Wrappers
  import opened JsBuiltins
  import opened Formatters
  import opened Api

  const DetailsFailureMessage := "Failed to fetch stock data. Please try again later."

  // ---------------------------------------------------------------------------
  // Figures behind a truthiness test
  // ---------------------------------------------------------------------------

  /** The market-cap cell: in billions when the value is truthy, so a market cap of zero shows "N/A". */
  function MarketCapCell(marketCap: Option<real>): (s: string)
    ensures s == NotAvailable <==> !TruthyNumber(marketCap)
    ensures TruthyNumber(marketCap) ==> s == FormatBillion(marketCap)
  {
    if TruthyNumber(marketCap) then FormatBillion(marketCap) else NotAvailable
  }

  /** The dividend-yield cell: a percentage when the value is truthy, so a yield of zero shows "N/A". */
  function DividendCell(dividendYield: Option<real>): (s: string)
    ensures s == NotAvailable <==> !TruthyNumber(dividendYield)
    ensures TruthyNumber(dividendYield) ==> s == FormatPercent(dividendYield)
  {
    if TruthyNumber(dividendYield) then FormatPercent(dividendYield) else NotAvailable
  }

  /** Zero is hidden in the guarded cells but shown as "$0.00B" in the unguarded revenue and net-income cells. */
  lemma ZeroGuardedAndUnguarded()
    ensures MarketCapCell(Some(0.0)) == NotAvailable && DividendCell(Some(0.0)) == NotAvailable
    ensures FormatBillion(Some(0.0)) == "$0.00B"
  {
    assert InScale(0.0, Billions) == 0.0;
    assert ScaledUnits(0.0, 2) == 0;
    assert NatToString(0) == "0";
    assert PadZeros("0", 3) == "000";
    assert FixedDigits(0, 2) == "0.00";
  }

  // ---------------------------------------------------------------------------
  // Recommendations
  // ---------------------------------------------------------------------------

  datatype RecommendationRow = RecommendationRow(rating: string, count: string)

  datatype RecommendationsView = NoRecommendations | Rows(rows: seq<RecommendationRow>)

  /** A count written out starts with a minus sign or a digit, so it never reads "N/A". */
  lemma CountIsNotNotAvailable(count: int)
    ensures IntToString(count) != NotAvailable
  {
    var digits := IntToString(count);
    if count >= 0 {
      assert digits == NatToString(count);
      assert IsDigit(digits[0]);
    }
    assert NotAvailable[0] == 'N';
  }

  /** A rating or count that is missing, empty or zero shows "N/A". */
  function RowOf(rec: Recommendation): (row: RecommendationRow)
    ensures row.rating == TextOr(rec.rating, NotAvailable)
    ensures row.count == NotAvailable <==> rec.count.None? || rec.count.value == 0
    ensures rec.count.Some? && rec.count.value != 0 ==> row.count == IntToString(rec.count.value)
  {
    if rec.count.Some? && rec.count.value != 0 then
      CountIsNotNotAvailable(rec.count.value);
      RecommendationRow(TextOr(rec.rating, NotAvailable), IntToString(rec.count.value))
    else
      RecommendationRow(TextOr(rec.rating, NotAvailable), NotAvailable)
  }

  /** One row per recommendation, in order. */
  function RowsOf(recs: seq<Recommendation>): (rows: seq<RecommendationRow>)
    ensures |rows| == |recs|
    ensures forall i :: 0 <= i < |recs| ==> rows[i] == RowOf(recs[i])
  {
    if recs == [] then [] else [RowOf(recs[0])] + RowsOf(recs[1..])
  }

  /** "No recommendations available" for a missing or empty list; otherwise one row per entry, in order. */
  function RecommendationsTable(recs: Option<seq<Recommendation>>): (view: RecommendationsView)
    ensures view.NoRecommendations? <==> recs.None? || |recs.value| == 0
    ensures view.Rows? ==> |view.rows| == |recs.value|
    ensures view.Rows? ==> forall i :: 0 <= i < |recs.value| ==> view.rows[i] == RowOf(recs.value[i])
  {
    if recs.None? || |recs.value| == 0 then NoRecommendations else Rows(RowsOf(recs.value))
  }

  // ---------------------------------------------------------------------------
  // The page content
  // ---------------------------------------------------------------------------

  /** The separator between sector and industry: this file stores its bullet as the three characters a mis-decoded UTF-8 "•" becomes. */
  const MisencodedBullet := "\U{E2}\U{20AC}\U{A2}"

  datatype Details = Details(
    title: string,
    classification: string,
    price: string,
    chip: string,
    gain: bool,
    marketCap: string,
    forwardPE: string,
    dividendYield: string,
    revenue: string,
    netIncome: string,
    operatingMargins: string,
    returnOnEquity: string,
    location: string,
    website: Option<string>,
    exchange: string,
    recommendations: RecommendationsView)

  /** The content of the page for a loaded profile. */
  function DetailsOf(symbol: string, p: StockProfile): (d: Details)
    ensures |d.price| > 0 && d.price[0] == '$' && d.price[1..] == FormatNumber(p.regularMarketPrice, 2)
    ensures d.chip == ChangeLabel(p.regularMarketChange, p.regularMarketChangePercent)
    ensures d.gain == IsGain(p.regularMarketChange)
    ensures d.marketCap == MarketCapCell(p.marketCap) && d.dividendYield == DividendCell(p.dividendYield)
    ensures d.revenue == FormatBillion(p.totalRevenue) && d.netIncome == FormatBillion(p.netIncome)
    ensures d.recommendations == RecommendationsTable(p.recommendations)
    ensures LabelOf(d.title, TextOr(p.name, symbol), "", TextOr(p.symbol, symbol))
    ensures var sector, industry := TextOr(p.sector, NotAvailable), TextOr(p.industry, NotAvailable);
      && |d.classification| == |sector| + 5 + |industry| && d.classification[..|sector|] == sector
      && d.classification[|sector|..|sector| + 5] == " " + MisencodedBullet + " "
      && d.classification[|sector| + 5..] == industry
    ensures d.forwardPE == FormatNumber(p.forwardPE, 2)
    ensures d.operatingMargins == FormatPercent(p.operatingMargins) && d.returnOnEquity == FormatPercent(p.returnOnEquity)
    ensures d.location == TextOr(p.location, NotAvailable) && d.exchange == TextOr(p.exchange, NotAvailable)
    ensures d.website.Some? <==> Truthy(p.website)
    ensures d.website.Some? ==> d.website.value == p.website.value
  {
    var price := "$" + FormatNumber(p.regularMarketPrice, 2);
    assert price[1..] == FormatNumber(p.regularMarketPrice, 2);
    var name := TextOr(p.name, symbol);
    var title := name + " (" + TextOr(p.symbol, symbol) + ")";
    LabelParts(name, "", TextOr(p.symbol, symbol));
    assert name + "" == name;
    var sector := TextOr(p.sector, NotAvailable);
    var classification := sector + " " + MisencodedBullet + " " + TextOr(p.industry, NotAvailable);
    assert classification[..|sector|] == sector;
    assert classification[|sector|..|sector| + 5] == " " + MisencodedBullet + " ";
    assert classification[|sector| + 5..] == TextOr(p.industry, NotAvailable);
    Details(
      title,
      classification,
      price,
      ChangeLabel(p.regularMarketChange, p.regularMarketChangePercent),
      IsGain(p.regularMarketChange),
      MarketCapCell(p.marketCap),
      FormatNumber(p.forwardPE, 2),
      DividendCell(p.dividendYield),
      FormatBillion(p.totalRevenue),
      FormatBillion(p.netIncome),
      FormatPercent(p.operatingMargins),
      FormatPercent(p.returnOnEquity),
      TextOr(p.location, NotAvailable),
      if Truthy(p.website) then Some(p.website.value) else None,
      TextOr(p.exchange, NotAvailable),
      RecommendationsTable(p.recommendations))
  }

  // ---------------------------------------------------------------------------
  // The component
  // ---------------------------------------------------------------------------

  class StockDetails {
    var symbol: string
    var stockData: Option<StockProfile>
    var loading: bool
    var error: Option<string>

    /** Mounting: the initial state; the effect's request changes no state until it settles. */
    constructor (symbol: string)
      ensures this.symbol == symbol && stockData.None? && loading && error.None?
    {
      this.symbol := symbol;
      stockData := None;
      loading := true;
      error := None;
    }

    /** The URL the effect requests for the current symbol: the development host's stock endpoint. */
    function RequestUrl(): (url: string)
      reads this
      ensures |url| == |LocalApiBase| + 11 + |symbol|
      ensures url[..|LocalApiBase|] == LocalApiBase && url[|LocalApiBase|..|LocalApiBase| + 11] == "/api/stock/"
      ensures url[|LocalApiBase| + 11..] == symbol
    {
      StockUrl(LocalApiBase, symbol)
    }

    /**
     * The route parameter changes and the effect requests the new symbol. Neither the spinner
     * nor the error is reset, so the page keeps showing what it showed until the answer comes.
     */
    method ChangeSymbol(newSymbol: string) returns (url: string)
      modifies this
      ensures symbol == newSymbol && url == StockUrl(LocalApiBase, newSymbol)
      ensures loading == old(loading) && error == old(error) && stockData == old(stockData)
    {
      symbol := newSymbol;
      url := StockUrl(LocalApiBase, symbol);
    }

    /**
     * The request settles: a profile is stored, or the fixed error message is set; the
     * spinner goes off either way. An error once set is never cleared.
     */
    method Settle(outcome: FetchOutcome<StockProfile>)
      modifies this
      ensures !loading && symbol == old(symbol)
      ensures outcome.Success? ==> stockData == Some(outcome.payload) && error == old(error)
      ensures outcome.Failure? ==> error == Some(DetailsFailureMessage) && stockData == old(stockData)
      ensures Truthy(old(error)) ==> Truthy(error)
    {
      loading := false;
      match outcome
      case Success(profile) =>
        stockData := Some(profile);
      case Failure(_, _) =>
        error := Some(DetailsFailureMessage);
    }

    /** Which of its four views the page renders. */
    function Screen(): (screen: Screen)
      reads this
      ensures screen.Spinner? <==> loading
      ensures screen.ErrorScreen? <==> !loading && Truthy(error)
      ensures screen.ErrorScreen? ==> screen.message == error.value
      ensures screen.NoData? <==> !loading && !Truthy(error) && stockData.None?
    {
      Precedence(loading, error, stockData.Some?)
    }
  }

  /**
   * Once a request has failed the page shows the error for good: a later symbol change and a
   * successful answer still leave the error view on screen.
   */
  method ErrorIsSticky(first: string, second: string, profile: StockProfile, message: string) returns (screen: Screen)
    ensures screen == ErrorScreen(DetailsFailureMessage)
  {
    var page := new StockDetails(first);
    page.Settle(Failure(message, None));
    var _ := page.ChangeSymbol(second);
    page.Settle(Success(profile));
    screen := page.Screen();
  }

  /** After the first answer the spinner never comes back: a symbol change does not turn it on. */
  method NoSpinnerAfterSymbolChange(first: string, second: string, profile: StockProfile) returns (screen: Screen)
    ensures screen == Content
  {
    var page := new StockDetails(first);
    page.Settle(Success(profile));
    var _ := page.ChangeSymbol(second);
    screen := page.Screen();
  }
}
