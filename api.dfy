/**
 * What the pages and the market panel receive from the back end and how they address it:
 * the quote and stock-profile records, the outcome of a request, the base URL choice, the
 * request URLs, the client-side route of a stock page, and the order in which a page decides
 * between its spinner, its error, its "no data" text and its content.
 */
module Api {
  import opened Wrappers
  import opened JsBuiltins

  // ---------------------------------------------------------------------------
  // Records received from the back end
  // ---------------------------------------------------------------------------

  /** One row of `/api/market/overview`: an index quote, or a placeholder flagged with `error`. */
  datatype Quote = Quote(
    symbol: string,
    name: Option<string>,
    price: Option<real>,
    change: Option<real>,
    changePercent: Option<real>,
    error: bool)

  /** One entry of a stock's analyst recommendations. */
  datatype Recommendation = Recommendation(rating: Option<string>, count: Option<int>)

  /** The body of `/api/stock/<symbol>`: every field may be missing. */
  datatype StockProfile = StockProfile(
    name: Option<string>,
    symbol: Option<string>,
    sector: Option<string>,
    industry: Option<string>,
    location: Option<string>,
    website: Option<string>,
    exchange: Option<string>,
    regularMarketPrice: Option<real>,
    regularMarketChange: Option<real>,
    regularMarketChangePercent: Option<real>,
    marketCap: Option<real>,
    forwardPE: Option<real>,
    fiftyTwoWeekChange: Option<real>,
    totalRevenue: Option<real>,
    netIncome: Option<real>,
    profitMargin: Option<real>,
    operatingMargins: Option<real>,
    returnOnEquity: Option<real>,
    dividendYield: Option<real>,
    recommendations: Option<seq<Recommendation>>)

  /**
   * How an `axios.get` settled: the response body, or the rejection with its `message`
   * and, when the server answered, the response's HTTP status.
   */
  datatype FetchOutcome<T> = Success(payload: T) | Failure(message: string, status: Option<nat>)

  // ---------------------------------------------------------------------------
  // Truthiness
  // ---------------------------------------------------------------------------

  /** A string state value is truthy when it is present and not empty. */
  predicate Truthy(s: Option<string>)
  {
    s.Some? && s.value != ""
  }

  /** A number is truthy when it is present and not zero. */
  predicate TruthyNumber(x: Option<real>)
  {
    x.Some? && x.value != 0.0
  }

  // ---------------------------------------------------------------------------
  // Addresses
  // ---------------------------------------------------------------------------

  /** The host used when no `REACT_APP_API_URL` is configured. */
  const DefaultApiBase := "https://back-end-three-ivory.vercel.app"

  /** The fixed host of the development back end the older pages call. */
  const LocalApiBase := "http://localhost:5000"

  /** `API_BASE_URL`: the configured URL when it is set and non-empty, the default host otherwise. */
  function ApiBase(configured: Option<string>): (base: string)
    ensures Truthy(configured) ==> base == configured.value
    ensures !Truthy(configured) ==> base == DefaultApiBase
    ensures base != ""
  {
    if Truthy(configured) then configured.value else DefaultApiBase
  }

  /** `<base>/api/stock/<symbol>`. */
  function StockUrl(base: string, symbol: string): (url: string)
    ensures |url| == |base| + 11 + |symbol|
    ensures url[..|base|] == base && url[|url| - |symbol|..] == symbol
    ensures url[|base|..|base| + 11] == "/api/stock/"
  {
    var url := base + "/api/stock/" + symbol;
    assert url[..|base|] == base;
    assert url[|base|..|base| + 11] == "/api/stock/";
    assert url[|url| - |symbol|..] == symbol;
    url
  }

  /** Two stock requests to the same host differ exactly when their symbols differ. */
  lemma StockUrlInjective(base: string, a: string, b: string)
    requires StockUrl(base, a) == StockUrl(base, b)
    ensures a == b
  {
    var u := StockUrl(base, a);
    assert |a| == |b|;
    assert a == u[|u| - |a|..] == b;
  }

  /** `<base>/api/market/overview?t=<timestamp>`, the timestamp keeping caches from answering. */
  function MarketOverviewUrl(base: string, timestamp: nat): (url: string)
    ensures |url| > |base| + 23
    ensures url[..|base|] == base
    ensures url[|base|..|base| + 23] == "/api/market/overview?t="
    ensures url[|base| + 23..] == NatToString(timestamp)
  {
    var url := base + "/api/market/overview?t=" + NatToString(timestamp);
    assert url[..|base|] == base;
    assert url[|base|..|base| + 23] == "/api/market/overview?t=";
    assert url[|base| + 23..] == NatToString(timestamp);
    url
  }

  /** Different timestamps give different request URLs, so no two requests share a cache entry. */
  lemma MarketOverviewUrlDistinct(base: string, t1: nat, t2: nat)
    requires t1 != t2
    ensures MarketOverviewUrl(base, t1) != MarketOverviewUrl(base, t2)
  {
    var prefix := base + "/api/market/overview?t=";
    if MarketOverviewUrl(base, t1) == MarketOverviewUrl(base, t2) {
      assert prefix + NatToString(t1) == prefix + NatToString(t2);
      assert NatToString(t1) == (prefix + NatToString(t1))[|prefix|..];
      assert NatToString(t2) == (prefix + NatToString(t2))[|prefix|..];
      NatToStringInjective(t1, t2);
    }
  }

  // ---------------------------------------------------------------------------
  // The stock page route
  // ---------------------------------------------------------------------------

  const StockRoutePrefix := "/stock/"

  /** The client-side path of a stock's page. */
  function StockPath(symbol: string): (path: string)
    ensures |path| == |StockRoutePrefix| + |symbol|
    ensures path[..|StockRoutePrefix|] == StockRoutePrefix && path[|StockRoutePrefix|..] == symbol
  {
    var path := StockRoutePrefix + symbol;
    assert path[..|StockRoutePrefix|] == StockRoutePrefix;
    assert path[|StockRoutePrefix|..] == symbol;
    path
  }

  /**
   * A character that does not stand for itself inside a path segment: '/' ends the segment,
   * '?' and '#' end the path, and '%' starts an escape the router decodes.
   */
  predicate IsReserved(c: char)
  {
    c == '/' || c == '?' || c == '#' || c == '%'
  }

  /** A symbol the route `/stock/:symbol` matches as one whole segment and passes on unchanged. */
  predicate IsRouteSegment(symbol: string)
  {
    symbol != [] && forall i :: 0 <= i < |symbol| ==> !IsReserved(symbol[i])
  }

  /** The `:symbol` parameter the route `/stock/:symbol` extracts from a path, if it matches. */
  function RouteSymbol(path: string): (symbol: Option<string>)
    ensures symbol.Some? ==> IsRouteSegment(symbol.value) && path == StockPath(symbol.value)
  {
    if |path| > |StockRoutePrefix| && path[..|StockRoutePrefix|] == StockRoutePrefix
       && IsRouteSegment(path[|StockRoutePrefix|..])
    then
      assert path == StockRoutePrefix + path[|StockRoutePrefix|..];
      Some(path[|StockRoutePrefix|..])
    else None
  }

  /** Navigating to a stock's path lands on that stock's page with the same symbol. */
  lemma RouteRoundTrip(symbol: string)
    requires IsRouteSegment(symbol)
    ensures RouteSymbol(StockPath(symbol)) == Some(symbol)
  {
    var path := StockPath(symbol);
    assert path[|StockRoutePrefix|..] == symbol;
  }

  // ---------------------------------------------------------------------------
  // Render precedence
  // ---------------------------------------------------------------------------

  /** What a page shows, in the order its render tests them. */
  datatype Screen = Spinner | ErrorScreen(message: string) | NoData | Content

  /**
   * A page shows its spinner while loading; otherwise its error when one is set; otherwise
   * the "no data" text when it has nothing to show; otherwise its content.
   */
  function Precedence(loading: bool, error: Option<string>, hasData: bool): (screen: Screen)
    ensures screen.Spinner? <==> loading
    ensures screen.ErrorScreen? <==> !loading && Truthy(error)
    ensures screen.ErrorScreen? ==> screen.message == error.value
    ensures screen.NoData? <==> !loading && !Truthy(error) && !hasData
    ensures screen.Content? <==> !loading && !Truthy(error) && hasData
  {
    if loading then Spinner
    else if Truthy(error) then ErrorScreen(error.value)
    else if !hasData then NoData
    else Content
  }
}
