/**
 * The home page (`Home`): a grid of featured stocks that link to their pages, and a market
 * overview loaded once from the development back end.
 */
module HomeView {
  import opened Wrappers
  import opened JsBuiltins
  import opened Formatters
  import opened Api

  const HomeFailureMessage := "Failed to fetch market data"

  datatype FeaturedStock = FeaturedStock(symbol: string, name: string)

  /** The stocks the page features, in display order. */
  const FeaturedStocks: seq<FeaturedStock> := [
    FeaturedStock("AAPL", "Apple Inc."),
    FeaturedStock("GOOGL", "Alphabet Inc."),
    FeaturedStock("MSFT", "Microsoft"),
    FeaturedStock("AMZN", "Amazon"),
    FeaturedStock("TSLA", "Tesla"),
    FeaturedStock("META", "Meta")]

  /** Clicking a featured stock opens `/stock/<symbol>`. */
  function HandleStockClick(symbol: string): (path: string)
    ensures |path| == |StockRoutePrefix| + |symbol|
    ensures path[..|StockRoutePrefix|] == StockRoutePrefix && path[|StockRoutePrefix|..] == symbol
  {
    StockPath(symbol)
  }

  /** A click on a symbol the route matches as one segment lands on that symbol's page. */
  lemma StockClickRoundTrip(symbol: string)
    requires IsRouteSegment(symbol)
    ensures RouteSymbol(HandleStockClick(symbol)) == Some(symbol)
  {
    RouteRoundTrip(symbol);
  }

  /** Every featured card leads to the page of its own stock. */
  lemma FeaturedLinksRoundTrip()
    ensures forall i :: 0 <= i < |FeaturedStocks| ==>
      RouteSymbol(HandleStockClick(FeaturedStocks[i].symbol)) == Some(FeaturedStocks[i].symbol)
  {
    forall i | 0 <= i < |FeaturedStocks|
      ensures RouteSymbol(HandleStockClick(FeaturedStocks[i].symbol)) == Some(FeaturedStocks[i].symbol)
    {
      var s := FeaturedStocks[i].symbol;
      assert IsRouteSegment(s);
      StockClickRoundTrip(s);
    }
  }

  /** An index card on this page: there is no "unavailable" variant, a flagged row shows its figures like any other. */
  datatype IndexCard = IndexCard(title: string, price: string, chip: string, gain: bool)

  function IndexCardOf(q: Quote): (card: IndexCard)
    ensures card.title == GetIndexName(q.symbol)
    ensures card.price == FormatNumber(q.price, 2) && (card.price == NotAvailable <==> q.price.None?)
    ensures card.chip == ChangeLabel(q.change, q.changePercent)
    ensures card.gain <==> IsGain(q.change)
  {
    IndexCard(GetIndexName(q.symbol), FormatNumber(q.price, 2), ChangeLabel(q.change, q.changePercent), IsGain(q.change))
  }

  /** The page has rows to show only when the answer was a non-empty list. */
  predicate HasRows(marketData: Option<seq<Quote>>)
  {
    marketData.Some? && |marketData.value| > 0
  }

  class Home {
    var marketData: Option<seq<Quote>>
    var loading: bool
    var error: Option<string>

    /** Mounting: the initial state; the effect's request changes no state until it settles. */
    constructor ()
      ensures marketData.None? && loading && error.None?
    {
      marketData := None;
      loading := true;
      error := None;
    }

    /** The URL the effect requests, once, on mount: the development host, with no cache-busting query. */
    function RequestUrl(): (url: string)
      ensures |url| == |LocalApiBase| + 20
      ensures url[..|LocalApiBase|] == LocalApiBase && url[|LocalApiBase|..] == "/api/market/overview"
      ensures forall i :: 0 <= i < |url| ==> url[i] != '?'
    {
      var url := LocalApiBase + "/api/market/overview";
      assert url[..|LocalApiBase|] == LocalApiBase && url[|LocalApiBase|..] == "/api/market/overview";
      url
    }

    /**
     * The request settles: the rows are stored as received, or the fixed message is set and
     * no rows are made up; the spinner goes off either way.
     */
    method Settle(outcome: FetchOutcome<seq<Quote>>)
      modifies this
      ensures !loading
      ensures outcome.Success? ==> marketData == Some(outcome.payload) && error == old(error)
      ensures outcome.Failure? ==> error == Some(HomeFailureMessage) && marketData == old(marketData)
    {
      loading := false;
      match outcome
      case Success(rows) =>
        marketData := Some(rows);
      case Failure(_, _) =>
        error := Some(HomeFailureMessage);
    }

    /** Which of its four views the market section renders. */
    function Screen(): (screen: Screen)
      reads this
      ensures screen.Spinner? <==> loading
      ensures screen.ErrorScreen? <==> !loading && Truthy(error)
      ensures screen.ErrorScreen? ==> screen.message == error.value
      ensures screen.NoData? <==> !loading && !Truthy(error) && (marketData.None? || |marketData.value| == 0)
    {
      Precedence(loading, error, HasRows(marketData))
    }
  }

  /** A failed first request leaves the section on its error, with no rows behind it. */
  method FailedLoad(message: string, status: Option<nat>) returns (screen: Screen, rows: Option<seq<Quote>>)
    ensures screen == ErrorScreen(HomeFailureMessage) && rows.None?
  {
    var home := new Home();
    home.Settle(Failure(message, status));
    screen := home.Screen();
    rows := home.marketData;
  }

  /** An empty answer is a success, but the section says "No market data available". */
  method EmptyAnswer() returns (screen: Screen)
    ensures screen == NoData
  {
    var home := new Home();
    home.Settle(Success([]));
    screen := home.Screen();
  }
}
