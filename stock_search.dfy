/**
 * The search box (`StockSearch`): typing filters a fixed list of stocks by symbol or name,
 * case-insensitively, once at least two characters are typed; submitting opens the page of
 * the typed symbol, upper-cased; clicking a suggestion opens that stock's page.
 */
module StockSearchBox {
  import opened Wrappers
  import opened JsBuiltins
  import opened Api

  datatype StockEntry = StockEntry(symbol: string, name: string)

  /** The stocks the box suggests from, in the order it lists them. */
  const MockStocks: seq<StockEntry> := [
    StockEntry("AAPL", "Apple Inc."),
    StockEntry("AMZN", "Amazon.com Inc."),
    StockEntry("GOOGL", "Alphabet Inc."),
    StockEntry("MSFT", "Microsoft Corporation."),
    StockEntry("TSLA", "Tesla Inc."),
    StockEntry("NVDA", "NVIDIA Corporation"),
    StockEntry("AMD", "Advanced Micro Devices, Inc.")]

  // ---------------------------------------------------------------------------
  // Suggestions
  // ---------------------------------------------------------------------------

  /** An entry matches when the lower-cased text occurs in its lower-cased symbol or name. */
  predicate Matches(item: StockEntry, value: string)
  {
    Includes(ToLower(item.symbol), ToLower(value)) || Includes(ToLower(item.name), ToLower(value))
  }

  /** `a` is `b` with some entries dropped and the rest kept in order. */
  predicate IsSubsequence(a: seq<StockEntry>, b: seq<StockEntry>)
    decreases |b|
  {
    a == [] || (b != [] && if a[0] == b[0] then IsSubsequence(a[1..], b[1..]) else IsSubsequence(a, b[1..]))
  }

  /** `items.filter(item => matches)`: exactly the matching entries, in their original order. */
  function Filter(items: seq<StockEntry>, value: string): (r: seq<StockEntry>)
    ensures forall e :: e in r <==> e in items && Matches(e, value)
    ensures IsSubsequence(r, items)
    ensures forall e :: multiset(r)[e] == if Matches(e, value) then multiset(items)[e] else 0
  {
    if items == [] then []
    else
      var rest := Filter(items[1..], value);
      assert items == [items[0]] + items[1..];
      if Matches(items[0], value) then
        assert ([items[0]] + rest)[1..] == rest;
        [items[0]] + rest
      else
        assert rest == [] || rest[0] != items[0];
        rest
  }

  /** The suggestions for what was typed: none for fewer than two characters, else every matching stock. */
  function Suggest(value: string): (r: seq<StockEntry>)
    ensures |value| <= 1 ==> r == []
    ensures |value| > 1 ==> (forall e :: e in r <==> e in MockStocks && Matches(e, value)) && IsSubsequence(r, MockStocks)
  {
    if |value| > 1 then Filter(MockStocks, value) else []
  }

  lemma LowerOfUpper(value: string)
    ensures ToLower(ToUpper(value)) == ToLower(value)
  {
    assert forall i :: 0 <= i < |value| ==> ToLower(ToUpper(value))[i] == ToLower(value)[i];
  }

  /** Filtering depends on the typed text only through its lower-cased form. */
  lemma {:induction false} FilterSameLower(items: seq<StockEntry>, v1: string, v2: string)
    requires ToLower(v1) == ToLower(v2)
    ensures Filter(items, v1) == Filter(items, v2)
  {
    if items != [] {
      FilterSameLower(items[1..], v1, v2);
    }
  }

  /** Typing in capitals suggests the same stocks as typing in lower case. */
  lemma SuggestCaseInsensitive(value: string)
    ensures Suggest(ToUpper(value)) == Suggest(value)
  {
    LowerOfUpper(value);
    FilterSameLower(MockStocks, ToUpper(value), value);
  }

  /** Typing a listed symbol in full, in any case, suggests that stock. */
  lemma SymbolSuggestsItself(i: nat, value: string)
    requires i < |MockStocks| && ToLower(value) == ToLower(MockStocks[i].symbol)
    ensures MockStocks[i] in Suggest(value)
  {
    var e := MockStocks[i];
    assert |e.symbol| > 1;
    MatchesOwnSymbol(e, value);
  }

  /** Text equal to an entry's symbol up to case matches that entry. */
  lemma MatchesOwnSymbol(e: StockEntry, value: string)
    requires ToLower(value) == ToLower(e.symbol)
    ensures Matches(e, value)
  {
    assert OccursAt(ToLower(e.symbol), ToLower(value), 0);
  }

  // ---------------------------------------------------------------------------
  // Submitting
  // ---------------------------------------------------------------------------

  /**
   * The symbol a submit opens: the trimmed text, upper-cased. It is a prefix of what follows
   * the query's leading white space (`TrimStart`), upper-cased character by character.
   */
  function SubmittedSymbol(query: string): (symbol: string)
    ensures symbol == [] <==> AllTrimmable(query)
    ensures |symbol| <= |TrimStart(query)| && symbol == ToUpper(TrimStart(query)[..|symbol|])
    ensures NoLowerCase(symbol) && EndsUntrimmable(symbol)
  {
    TrimEmpty(query);
    UpperOfTrimmedPrefix(TrimStart(query), Trim(query));
    ToUpper(Trim(query))
  }

  /** No character of `s` is a lower-case ASCII letter. */
  predicate NoLowerCase(s: string)
  {
    forall i :: 0 <= i < |s| ==> !('a' <= s[i] <= 'z')
  }

  /** `s` neither starts nor ends with white space. */
  predicate EndsUntrimmable(s: string)
  {
    s == [] || (!IsTrimmable(s[0]) && !IsTrimmable(s[|s| - 1]))
  }

  /**
   * Upper-casing a prefix `t` of `s` that neither starts nor ends with white space gives the
   * upper-cased prefix of `s` of that length, with no lower-case letter and the same ends.
   */
  lemma UpperOfTrimmedPrefix(s: string, t: string)
    requires |t| <= |s| && t == s[..|t|]
    requires EndsUntrimmable(t)
    ensures var u := ToUpper(t);
      |u| <= |s| && u == ToUpper(s[..|u|]) && NoLowerCase(u) && EndsUntrimmable(u)
  {
    UpperKeepsClass(t);
  }

  /** No query character is one of '/', '?', '#' and '%', which a path segment does not carry as they are. */
  predicate Unreserved(s: string)
  {
    forall i :: 0 <= i < |s| ==> !IsReserved(s[i])
  }

  /** Upper-casing leaves no lower-case letter, and keeps white space exactly where it was. */
  lemma UpperKeepsClass(s: string)
    ensures forall i :: 0 <= i < |s| ==> !('a' <= ToUpper(s)[i] <= 'z')
    ensures forall i :: 0 <= i < |s| ==> (IsTrimmable(ToUpper(s)[i]) <==> IsTrimmable(s[i]))
  {
    forall i | 0 <= i < |s|
      ensures !('a' <= ToUpper(s)[i] <= 'z')
      ensures IsTrimmable(ToUpper(s)[i]) <==> IsTrimmable(s[i])
    {
      UpperCharClass(s[i]);
    }
  }

  /** Upper-casing brings in none of '/', '?', '#' and '%'. */
  lemma UpperKeepsUnreserved(s: string)
    requires Unreserved(s)
    ensures Unreserved(ToUpper(s))
  {
    forall i | 0 <= i < |s|
      ensures !IsReserved(ToUpper(s)[i])
    {
      UpperCharClass(s[i]);
    }
  }

  /** Upper-casing one character leaves no lower-case letter and moves nothing into or out of white space. */
  lemma UpperCharClass(c: char)
    ensures !('a' <= UpperChar(c) <= 'z')
    ensures IsTrimmable(UpperChar(c)) <==> IsTrimmable(c)
    ensures UpperChar(c) == c || 'A' <= UpperChar(c) <= 'Z'
  {
    if 'a' <= c <= 'z' {
      assert 'A' <= UpperChar(c) <= 'Z';
      assert !IsTrimmable(c) && !IsTrimmable(UpperChar(c));
    }
  }

  /**
   * The submitted symbol is as long as the trimmed query, so the prefix it upper-cases runs
   * up to the trailing white space: it is the whole trimmed query.
   */
  lemma SubmittedSymbolLength(query: string)
    ensures |SubmittedSymbol(query)| == |Trim(query)|
    ensures TrimmableBetween(TrimStart(query), |SubmittedSymbol(query)|, |TrimStart(query)|)
  {
    var start := TrimStart(query);
    assert Trim(query) == TrimEnd(start);
  }

  /** Upper-casing a submitted symbol again changes nothing. */
  lemma SubmittedSymbolIsUpper(query: string)
    ensures ToUpper(SubmittedSymbol(query)) == SubmittedSymbol(query)
  {
    var s := SubmittedSymbol(query);
    assert forall i :: 0 <= i < |s| ==> ToUpper(s)[i] == s[i];
  }

  /** A submitted symbol without '/', '?', '#' or '%' reaches the stock page as exactly that symbol. */
  lemma SubmitReachesStockPage(query: string)
    requires !AllTrimmable(query)
    requires Unreserved(query)
    ensures RouteSymbol(StockPath(SubmittedSymbol(query))) == Some(SubmittedSymbol(query))
  {
    var start := TrimStart(query);
    assert start == query[|query| - |start|..];
    assert Unreserved(start);
    var t := TrimEnd(start);
    assert t == start[..|t|];
    assert Unreserved(t);
    assert Trim(query) == t;
    UpperKeepsClass(t);
    UpperKeepsUnreserved(t);
    assert IsRouteSegment(SubmittedSymbol(query));
    RouteRoundTrip(SubmittedSymbol(query));
  }

  // ---------------------------------------------------------------------------
  // The component
  // ---------------------------------------------------------------------------

  class StockSearch {
    var query: string
    var suggestions: seq<StockEntry>

    constructor ()
      ensures query == "" && suggestions == []
    {
      query := "";
      suggestions := [];
    }

    /** `handleSearch`: the box shows what was typed and the suggestions for it. */
    method HandleSearch(value: string)
      modifies this
      ensures query == value && suggestions == Suggest(value)
    {
      query := value;
      suggestions := Suggest(value);
    }

    /**
     * `handleSubmit`: a blank query does nothing at all; otherwise the page of the submitted
     * symbol is opened and the box is cleared.
     */
    method HandleSubmit() returns (navigated: Option<string>)
      modifies this
      ensures AllTrimmable(old(query)) ==> navigated.None? && query == old(query) && suggestions == old(suggestions)
      ensures !AllTrimmable(old(query)) ==>
        navigated == Some(StockPath(SubmittedSymbol(old(query)))) && query == "" && suggestions == []
    {
      var trimmed := Trim(query);
      TrimEmpty(query);
      if trimmed != [] {
        navigated := Some(StockPath(ToUpper(trimmed)));
        query := "";
        suggestions := [];
      } else {
        navigated := None;
      }
    }

    /** `handleSuggestionClick`: the stock's page is opened as listed and the box is cleared. */
    method HandleSuggestionClick(symbol: string) returns (path: string)
      modifies this
      ensures path == StockPath(symbol) && query == "" && suggestions == []
    {
      path := StockPath(symbol);
      query := "";
      suggestions := [];
    }
  }

  /**
   * Typing some text and pressing Enter: when the text is not blank, the page of its trimmed,
   * upper-cased form opens and the box is left empty, with no suggestions under it.
   */
  method TypeAndSubmit(value: string) returns (navigated: Option<string>, query: string, shown: nat)
    requires !AllTrimmable(value)
    ensures navigated == Some(StockPath(SubmittedSymbol(value))) && query == "" && shown == 0
  {
    var box := new StockSearch();
    box.HandleSearch(value);
    navigated := box.HandleSubmit();
    query := box.query;
    shown := |box.suggestions|;
  }

  /** Pressing Enter on blank text changes nothing: the text stays in the box and nothing opens. */
  method SubmitBlank(value: string) returns (navigated: Option<string>, query: string)
    requires AllTrimmable(value)
    ensures navigated.None? && query == value
  {
    var box := new StockSearch();
    box.HandleSearch(value);
    navigated := box.HandleSubmit();
    query := box.query;
  }
}
