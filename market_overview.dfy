/**
 * The market panel (`MarketOverview`): it loads the index quotes, falls back to three
 * placeholder cards when the request fails, and arms an auto-retry timer with a growing delay.
 *
 * A request is split in two steps, because the panel renders in between: `FetchMarketData`
 * is the synchronous start (spinner on, error cleared) and `Settle` is what happens when the
 * request settles (data or error stored, spinner off). The network answer and whether the
 * browser is online are inputs of `Settle`.
 */
module MarketOverviewPanel {
  import opened Wrappers
  import opened JsBuiltins
  import opened Formatters
  import opened Api

  // ---------------------------------------------------------------------------
  // The error message
  // ---------------------------------------------------------------------------

  const FailurePrefix := "Failed to fetch market data"
  const OfflineMessage := "No internet connection. Please check your network."

  /** ": <message>" when the rejection carries a message, nothing otherwise. */
  function Detail(message: string): string
  {
    if message != "" then ": " + message else ""
  }

  /** " (Status: <code>)" when the server answered, nothing otherwise. */
  function StatusNote(status: Option<nat>): string
  {
    match status
    case None => ""
    case Some(code) => " (Status: " + NatToString(code) + ")"
  }

  /**
   * The message the panel shows after a failed request: offline, a fixed sentence; online,
   * "Failed to fetch market data", then the rejection's message and the HTTP status when known.
   */
  function FailureMessage(message: string, status: Option<nat>, online: bool): (r: string)
    ensures !online ==> r == OfflineMessage
    ensures online ==> |r| >= |FailurePrefix| && r[..|FailurePrefix|] == FailurePrefix
    ensures online ==> (r == FailurePrefix <==> message == "" && status.None?)
    ensures online && message == "" ==> r == FailurePrefix + StatusNote(status)
    ensures online && status.None? ==> r == FailurePrefix + (if message == "" then "" else ": " + message)
    ensures r != ""
  {
    if !online then OfflineMessage
    else
      var r := FailurePrefix + Detail(message) + StatusNote(status);
      assert r[..|FailurePrefix|] == FailurePrefix;
      assert |r| == |FailurePrefix| + |Detail(message)| + |StatusNote(status)|;
      r
  }

  /** Online, a message the rejection carries is shown right after the prefix, behind ": ". */
  lemma FailureMessageShowsDetail(message: string, status: Option<nat>)
    requires message != ""
    ensures var r := FailureMessage(message, status, true);
      |r| >= |FailurePrefix| + 2 + |message|
      && r[|FailurePrefix|..|FailurePrefix| + 2 + |message|] == ": " + message
  {
    var r := FailureMessage(message, status, true);
    assert r == FailurePrefix + (": " + message) + StatusNote(status);
  }

  /** Online, a known status ends the message as " (Status: <code>)". */
  lemma FailureMessageShowsStatus(message: string, code: nat)
    ensures var r := FailureMessage(message, Some(code), true);
      var note := " (Status: " + NatToString(code) + ")";
      |r| >= |note| && r[|r| - |note|..] == note
  {
    var r := FailureMessage(message, Some(code), true);
    var note := " (Status: " + NatToString(code) + ")";
    assert r == (FailurePrefix + Detail(message)) + note;
  }

  /** Online, the same rejection message with two different statuses gives two different texts. */
  lemma FailureMessageStatusInjective(message: string, a: nat, b: nat)
    requires FailureMessage(message, Some(a), true) == FailureMessage(message, Some(b), true)
    ensures a == b
  {
    var head := FailurePrefix + Detail(message) + " (Status: ";
    StatusFrame(message, a);
    StatusFrame(message, b);
    FrameCancel(head, NatToString(a), NatToString(b), ")");
    NatToStringInjective(a, b);
  }

  /** Online, a known status is the only varying part of the message, between a fixed head and ")". */
  lemma StatusFrame(message: string, code: nat)
    ensures FailureMessage(message, Some(code), true)
      == (FailurePrefix + Detail(message) + " (Status: ") + NatToString(code) + ")"
  {
    var note := StatusNote(Some(code));
    assert note == " (Status: " + NatToString(code) + ")";
    assert FailureMessage(message, Some(code), true) == FailurePrefix + Detail(message) + note;
  }

  /** Text framed by the same head and tail is determined by the whole. */
  lemma FrameCancel(head: string, x: string, y: string, tail: string)
    requires head + x + tail == head + y + tail
    ensures x == y
  {
    var w := head + x + tail;
    assert |x| == |y|;
    assert x == w[|head|..|head| + |x|];
    assert y == (head + y + tail)[|head|..|head| + |y|];
  }

  /** Offline, the message is the same whatever the rejection said. */
  lemma OfflineIgnoresDetails(m1: string, s1: Option<nat>, m2: string, s2: Option<nat>)
    ensures FailureMessage(m1, s1, false) == FailureMessage(m2, s2, false)
  {
  }

  // ---------------------------------------------------------------------------
  // Placeholder rows and the auto-retry schedule
  // ---------------------------------------------------------------------------

  /** A card for an index whose quote could not be loaded. */
  function Placeholder(symbol: string, name: string): Quote
  {
    Quote(symbol, Some(name), None, None, None, true)
  }

  /** The rows shown after a failed request: the three tracked indices, all flagged unavailable. */
  const Placeholders: seq<Quote> :=
    [Placeholder("^GSPC", "S&P 500"), Placeholder("^IXIC", "NASDAQ"), Placeholder("^DJI", "DOW")]

  /** How many automatic retries the panel makes at most. */
  const MaxAutoRetries: nat := 3

  /** The auto-retry delay in milliseconds after `retryCount` retries: 3 s, 6 s, 9 s. */
  function RetryDelay(retryCount: nat): nat
  {
    3000 * (retryCount + 1)
  }

  /** An armed auto-retry timer: its delay and the `error` value its callback captured. */
  datatype RetryTimer = RetryTimer(delay: nat, capturedError: Option<string>)

  // ---------------------------------------------------------------------------
  // What the panel shows
  // ---------------------------------------------------------------------------

  datatype Card =
    | Unavailable(title: string)
    | Priced(title: string, price: string, chip: string, gain: bool)

  datatype PanelView = Loading | Panel(alert: Option<string>, cards: seq<Card>)

  /** A quote's card: "Data unavailable" with a Retry button when flagged, otherwise price and change chip. */
  function CardOf(q: Quote): (card: Card)
    ensures card.title == GetIndexName(q.symbol)
    ensures card.Unavailable? <==> q.error
    ensures card.Priced? ==> && card.price == FormatNumber(q.price, 2)
                             && card.chip == ChangeLabel(q.change, q.changePercent)
                             && card.gain == IsGain(q.change)
  {
    if q.error then Unavailable(GetIndexName(q.symbol))
    else Priced(GetIndexName(q.symbol), FormatNumber(q.price, 2), ChangeLabel(q.change, q.changePercent), IsGain(q.change))
  }

  /** One card per row, in order. */
  function Cards(rows: seq<Quote>): (cards: seq<Card>)
    ensures |cards| == |rows|
    ensures forall i :: 0 <= i < |rows| ==> cards[i] == CardOf(rows[i])
  {
    if rows == [] then [] else [CardOf(rows[0])] + Cards(rows[1..])
  }

  /** The spinner while loading; otherwise the warning (when an error is set) above the cards. */
  function PanelOf(loading: bool, error: Option<string>, rows: seq<Quote>): (view: PanelView)
    ensures view.Loading? <==> loading
    ensures view.Panel? ==> (view.alert.Some? <==> Truthy(error)) && view.cards == Cards(rows)
    ensures view.Panel? && view.alert.Some? ==> view.alert.value == error.value
  {
    if loading then Loading
    else Panel(if Truthy(error) then Some(error.value) else None, Cards(rows))
  }

  /** After a failed request the panel shows the message and three unavailable cards, S&P 500, NASDAQ and DOW. */
  lemma FailurePanel(message: string, status: Option<nat>, online: bool)
    ensures PanelOf(false, Some(FailureMessage(message, status, online)), Placeholders)
      == Panel(Some(FailureMessage(message, status, online)),
               [Unavailable("S&P 500"), Unavailable("NASDAQ"), Unavailable("DOW")])
  {
    var cards := Cards(Placeholders);
    assert cards[0] == Unavailable("S&P 500");
    assert cards[1] == Unavailable("NASDAQ");
    assert cards[2] == Unavailable("DOW");
    assert cards == [Unavailable("S&P 500"), Unavailable("NASDAQ"), Unavailable("DOW")];
  }

  // ---------------------------------------------------------------------------
  // The component
  // ---------------------------------------------------------------------------

  class MarketOverview {
    var marketData: seq<Quote>
    var loading: bool
    var error: Option<string>
    var retryCount: nat
    /** The auto-retry timer armed by the last run of the effect, until it fires or is cleared. */
    var timer: Option<RetryTimer>
    const apiBase: string

    /** A timer is armed only below the retry bound, with the delay for the current count. */
    predicate Valid()
      reads this
    {
      && retryCount <= MaxAutoRetries
      && (timer.Some? ==> retryCount < MaxAutoRetries && timer.value.delay == RetryDelay(retryCount))
    }

    /** The timer, if any, captured no error: so, as written, firing it never retries. */
    predicate CapturedNoError()
      reads this
    {
      timer.Some? ==> !Truthy(timer.value.capturedError)
    }

    /** Mounting: the initial state, then the effect for `retryCount == 0`. */
    constructor (configuredUrl: Option<string>, timestamp: nat)
      ensures apiBase == ApiBase(configuredUrl)
      ensures marketData == [] && loading && error.None? && retryCount == 0
      ensures timer == Some(RetryTimer(3000, None))
      ensures Valid() && CapturedNoError()
    {
      marketData := [];
      loading := true;
      error := None;
      retryCount := 0;
      timer := None;
      apiBase := ApiBase(configuredUrl);
      new;
      var _ := RunEffect(timestamp);
    }

    /**
     * The effect that runs on mount and whenever `retryCount` changes: it captures the
     * current `error`, starts a request and, below the bound, arms a timer for the next retry
     * (replacing the one the previous run armed, which its cleanup cleared).
     */
    method RunEffect(timestamp: nat) returns (url: string)
      modifies this
      requires retryCount <= MaxAutoRetries
      ensures url == MarketOverviewUrl(apiBase, timestamp)
      ensures loading && error.None? && marketData == old(marketData) && retryCount == old(retryCount)
      ensures retryCount < MaxAutoRetries ==> timer == Some(RetryTimer(RetryDelay(retryCount), old(error)))
      ensures retryCount == MaxAutoRetries ==> timer.None?
      ensures Valid()
    {
      var captured := error;
      url := FetchMarketData(timestamp);
      if retryCount < MaxAutoRetries {
        timer := Some(RetryTimer(RetryDelay(retryCount), captured));
      } else {
        timer := None;
      }
    }

    /**
     * The start of `fetchMarketData`, also what the Refresh and Retry buttons call: spinner on,
     * error cleared, request sent. Nothing else changes; in particular `retryCount` does not.
     */
    method FetchMarketData(timestamp: nat) returns (url: string)
      modifies this
      ensures url == MarketOverviewUrl(apiBase, timestamp)
      ensures loading && error.None?
      ensures marketData == old(marketData) && retryCount == old(retryCount) && timer == old(timer)
    {
      loading := true;
      error := None;
      url := MarketOverviewUrl(apiBase, timestamp);
    }

    /**
     * The request settles: the rows are stored as received, or the failure message and the
     * placeholder rows replace whatever was shown; the spinner goes off either way.
     */
    method Settle(outcome: FetchOutcome<seq<Quote>>, online: bool)
      modifies this
      ensures !loading
      ensures outcome.Success? ==> marketData == outcome.payload && error == old(error)
      ensures outcome.Failure? ==>
        && error == Some(FailureMessage(outcome.message, outcome.status, online))
        && marketData == Placeholders
      ensures retryCount == old(retryCount) && timer == old(timer)
    {
      loading := false;
      match outcome
      case Success(rows) =>
        marketData := rows;
      case Failure(message, status) =>
        error := Some(FailureMessage(message, status, online));
        marketData := Placeholders;
    }

    /**
     * The armed timer fires, as the code is written: the callback tests the `error` its
     * closure captured when the effect ran, not the current one. When that value was set it
     * counts a retry and starts a request; the new count then runs the effect again, which
     * captures the `error` that request has just cleared.
     */
    method FireTimerAsWritten(timestamp: nat) returns (retried: bool)
      modifies this
      requires timer.Some? && Valid()
      ensures retried <==> Truthy(old(timer).value.capturedError)
      ensures retried ==> retryCount == old(retryCount) + 1 && loading && error.None? && marketData == old(marketData)
      ensures retried && retryCount < MaxAutoRetries ==> timer == Some(RetryTimer(RetryDelay(retryCount), None))
      ensures retried && retryCount == MaxAutoRetries ==> timer.None?
      ensures !retried ==> retryCount == old(retryCount) && timer.None?
      ensures !retried ==> marketData == old(marketData) && loading == old(loading) && error == old(error)
      ensures old(CapturedNoError()) ==> !retried && CapturedNoError()
      ensures Valid()
    {
      retried := Truthy(timer.value.capturedError);
      if retried {
        Retry(timestamp);
      } else {
        timer := None;
      }
    }

    /**
     * The armed timer fires, as intended: a retry is counted and a new request made exactly
     * when an error is currently shown; the new count then runs the effect again.
     */
    method FireTimer(timestamp: nat) returns (retried: bool)
      modifies this
      requires timer.Some? && Valid()
      ensures retried <==> Truthy(old(error))
      ensures retried ==> retryCount == old(retryCount) + 1 && loading && error.None? && marketData == old(marketData)
      ensures retried && retryCount < MaxAutoRetries ==> timer == Some(RetryTimer(RetryDelay(retryCount), None))
      ensures retried && retryCount == MaxAutoRetries ==> timer.None?
      ensures !retried ==> retryCount == old(retryCount) && timer.None?
      ensures !retried ==> marketData == old(marketData) && loading == old(loading) && error == old(error)
      ensures Valid()
    {
      retried := Truthy(error);
      if retried {
        Retry(timestamp);
      } else {
        timer := None;
      }
    }

    /**
     * The body of the timer's callback once it decides to retry: `setRetryCount(prev => prev + 1)`
     * and a request, then the effect for the new count, which requests again and arms the next timer.
     * The callback's updates are taken to be applied together before the effect re-runs, so the
     * next timer captures the error the request has just cleared.
     */
    method Retry(timestamp: nat)
      modifies this
      requires retryCount < MaxAutoRetries
      ensures retryCount == old(retryCount) + 1 && loading && error.None? && marketData == old(marketData)
      ensures retryCount < MaxAutoRetries ==> timer == Some(RetryTimer(RetryDelay(retryCount), None))
      ensures retryCount == MaxAutoRetries ==> timer.None?
      ensures Valid()
    {
      retryCount := retryCount + 1;
      var _ := FetchMarketData(timestamp);
      var _ := RunEffect(timestamp);
    }

    /** What the panel renders from its current state. */
    function View(): (view: PanelView)
      reads this
      ensures view.Loading? <==> loading
      ensures view.Panel? ==> (view.alert.Some? <==> Truthy(error)) && view.cards == Cards(marketData)
      ensures view.Panel? && view.alert.Some? ==> view.alert.value == error.value
    {
      PanelOf(loading, error, marketData)
    }
  }

  // ---------------------------------------------------------------------------
  // Runs of the retry schedule
  // ---------------------------------------------------------------------------

  /**
   * The panel as written, with every request failing: it mounts, its first request fails,
   * its timer fires. The timer's callback saw the `error` of the first render, which was
   * null, so no retry is ever counted and no timer is left.
   */
  method AutoRetryAsWritten(message: string, status: Option<nat>, online: bool) returns (retries: nat, timerLeft: bool)
    ensures retries == 0 && !timerLeft
  {
    var panel := new MarketOverview(None, 0);
    panel.Settle(Failure(message, status), online);
    var retried := panel.FireTimerAsWritten(1);
    retries := panel.retryCount;
    timerLeft := panel.timer.Some?;
  }

  /**
   * The intended schedule, with every request failing: retries after 3 s, 6 s and 9 s, then
   * no further timer once three retries have been made.
   */
  method AutoRetrySchedule(message: string, status: Option<nat>, online: bool) returns (delays: seq<nat>, retries: nat, timerLeft: bool)
    ensures delays == [3000, 6000, 9000]
    ensures retries == MaxAutoRetries && !timerLeft
  {
    var panel := new MarketOverview(None, 0);
    delays := [];
    var round := 0;
    while round < MaxAutoRetries
      invariant 0 <= round <= MaxAutoRetries
      invariant panel.Valid() && panel.retryCount == round
      invariant round < MaxAutoRetries ==> panel.timer.Some? && panel.timer.value.delay == RetryDelay(round)
      invariant round == MaxAutoRetries ==> panel.timer.None?
      invariant |delays| == round && forall i :: 0 <= i < round ==> delays[i] == RetryDelay(i)
      decreases MaxAutoRetries - round
    {
      panel.Settle(Failure(message, status), online);
      delays := delays + [panel.timer.value.delay];
      var retried := panel.FireTimer(round + 1);
      round := round + 1;
    }
    retries := panel.retryCount;
    timerLeft := panel.timer.Some?;
  }
}
