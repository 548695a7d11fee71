/**
 * The watchlist page: it loads the watchlist, asks for quotes of the
 * upper-cased symbols, and shows the quotes re-ordered to follow the
 * watchlist.  The two subscriptions are modelled as separate handler
 * methods, one per callback, called in the order the callbacks fire.
 */
module WatchlistComponent {
  import opened Wrappers
  import opened WatchlistService
  import opened Ascii

  /** A quote as returned by the quote service; `timestamp` is a millisecond timestamp. */
  datatype StockQuote = StockQuote(symbol: string, price: real, change: real, changePercent: real,
                                   volume: int, timestamp: int)

  const QuotesUnavailable: string := "Unable to fetch stock data. Please check your connection and try again."
  const QuotesFailed: string := "Error loading stock data. Please try refreshing the page."
  const WatchlistFailed: string := "Error loading watchlist. Please try refreshing the page."

  // ---------------------------------------------------------------------------
  // Upper-casing and `Array.prototype.find`
  // ---------------------------------------------------------------------------

  /** `String.prototype.toUpperCase`, restricted to ASCII letters. */
  function ToUpper(s: string): string {
    seq(|s|, i requires 0 <= i < |s| => UpperChar(s[i]))
  }

  /** Upper-casing an upper-cased key changes nothing, so keys already upper-cased match themselves. */
  lemma ToUpperIdempotent(s: string)
    ensures ToUpper(ToUpper(s)) == ToUpper(s)
    ensures forall i | 0 <= i < |s| :: !('a' <= ToUpper(s)[i] <= 'z')
  {
  }

  /** `xs.find(p)`: the first element satisfying `p`, if any. */
  function Find<T>(xs: seq<T>, p: T -> bool): Option<T> {
    if |xs| == 0 then None
    else if p(xs[0]) then Some(xs[0])
    else Find(xs[1..], p)
  }

  /** `find` yields nothing exactly when no element qualifies, and otherwise the first one that does. */
  lemma {:induction false} FindFirst<T>(xs: seq<T>, p: T -> bool)
    ensures Find(xs, p).None? <==> forall j | 0 <= j < |xs| :: !p(xs[j])
    ensures Find(xs, p).Some? ==>
      exists i :: 0 <= i < |xs| && xs[i] == Find(xs, p).value && p(xs[i]) && forall j | 0 <= j < i :: !p(xs[j])
  {
    if |xs| > 0 && !p(xs[0]) {
      FindFirst(xs[1..], p);
      assert forall j | 1 <= j < |xs| :: xs[j] == xs[1..][j - 1];
      if Find(xs, p).Some? {
        var i :| 0 <= i < |xs[1..]| && xs[1..][i] == Find(xs, p).value && p(xs[1..][i]) &&
                 forall j | 0 <= j < i :: !p(xs[1..][j]);
        assert xs[i + 1] == Find(xs, p).value;
      }
    }
  }

  // ---------------------------------------------------------------------------
  // The join
  // ---------------------------------------------------------------------------

  /** The predicate `q => norm(q.symbol) === key`. */
  function MatchesKey(key: string, norm: string -> string): StockQuote -> bool {
    (q: StockQuote) => norm(q.symbol) == key
  }

  /** `items.map(item => norm(item.symbol))`, the symbols sent to the quote service. */
  function Keys(items: seq<WatchlistItem>, norm: string -> string): (keys: seq<string>)
    ensures |keys| == |items|
  {
    seq(|items|, i requires 0 <= i < |items| => norm(items[i].symbol))
  }

  /** The quote shown for one key: the first quote matching it, if any. */
  function QuoteFor(quotes: seq<StockQuote>, key: string, norm: string -> string): Option<StockQuote> {
    Find(quotes, MatchesKey(key, norm))
  }

  /** The entries one key contributes after the `filter`: its first matching quote, or nothing. */
  function Shown(quotes: seq<StockQuote>, key: string, norm: string -> string): seq<StockQuote> {
    match QuoteFor(quotes, key, norm)
    case Some(q) => [q]
    case None => []
  }

  /**
   * `keys.map(key => quotes.find(q => norm(q.symbol) === key)).filter(q => q !== undefined)`,
   * with the normalisation as a parameter (`ToUpper` on the current page).
   */
  function Join(keys: seq<string>, quotes: seq<StockQuote>, norm: string -> string): (r: seq<StockQuote>)
    ensures |r| <= |keys|
  {
    if |keys| == 0 then []
    else
      Shown(quotes, keys[0], norm) + Join(keys[1..], quotes, norm)
  }

  /** The join is taken key by key, so its output follows the order of the watchlist. */
  lemma {:induction false} JoinConcat(a: seq<string>, b: seq<string>, quotes: seq<StockQuote>, norm: string -> string)
    ensures Join(a + b, quotes, norm) == Join(a, quotes, norm) + Join(b, quotes, norm)
  {
    if |a| == 0 {
      assert a + b == b;
    } else {
      var ab := a + b;
      assert ab[0] == a[0] && ab[1..] == a[1..] + b;
      JoinConcat(a[1..], b, quotes, norm);
      JoinUnfold(ab, quotes, norm);
      JoinUnfold(a, quotes, norm);
      var x, ra, rb := Shown(quotes, a[0], norm), Join(a[1..], quotes, norm), Join(b, quotes, norm);
      assert x + (ra + rb) == (x + ra) + rb;
    }
  }

  /** One step of the join: the first key's entries, then the rest. */
  lemma JoinUnfold(keys: seq<string>, quotes: seq<StockQuote>, norm: string -> string)
    requires |keys| > 0
    ensures Join(keys, quotes, norm) == Shown(quotes, keys[0], norm) + Join(keys[1..], quotes, norm)
  {
  }

  /** When every key has a quote, the join has one entry per key: the first quote matching that key. */
  lemma {:induction false} JoinComplete(keys: seq<string>, quotes: seq<StockQuote>, norm: string -> string)
    requires forall i | 0 <= i < |keys| :: QuoteFor(quotes, keys[i], norm).Some?
    ensures var r := Join(keys, quotes, norm);
      |r| == |keys| && forall i | 0 <= i < |keys| :: Some(r[i]) == QuoteFor(quotes, keys[i], norm)
  {
    if |keys| > 0 {
      assert forall i | 0 <= i < |keys[1..]| :: keys[1..][i] == keys[i + 1];
      JoinComplete(keys[1..], quotes, norm);
    }
  }

  /** A quote is shown exactly when it is the first match of some key; keys without a quote are skipped. */
  lemma {:induction false} JoinMembers(keys: seq<string>, quotes: seq<StockQuote>, norm: string -> string, q: StockQuote)
    ensures q in Join(keys, quotes, norm) <==> exists i :: 0 <= i < |keys| && QuoteFor(quotes, keys[i], norm) == Some(q)
  {
    if |keys| > 0 {
      JoinMembers(keys[1..], quotes, norm, q);
      if exists i :: 0 <= i < |keys| && QuoteFor(quotes, keys[i], norm) == Some(q) {
        var i :| 0 <= i < |keys| && QuoteFor(quotes, keys[i], norm) == Some(q);
        if i > 0 {
          assert keys[1..][i - 1] == keys[i];
        }
      }
      if exists i :: 0 <= i < |keys[1..]| && QuoteFor(quotes, keys[1..][i], norm) == Some(q) {
        var i :| 0 <= i < |keys[1..]| && QuoteFor(quotes, keys[1..][i], norm) == Some(q);
        assert keys[i + 1] == keys[1..][i];
      }
    }
  }

  /** The join is empty exactly when no key has a quote: the case the page reports as an error. */
  lemma {:induction false} JoinEmpty(keys: seq<string>, quotes: seq<StockQuote>, norm: string -> string)
    ensures Join(keys, quotes, norm) == [] <==> forall i | 0 <= i < |keys| :: QuoteFor(quotes, keys[i], norm).None?
  {
    if |keys| > 0 {
      JoinEmpty(keys[1..], quotes, norm);
      assert forall i | 1 <= i < |keys| :: keys[1..][i - 1] == keys[i];
    }
  }

  /** Matching on the current page ignores letter case, and the first of several matching quotes wins. */
  lemma CaseInsensitiveFirstMatch()
    ensures Join(["AAPL"], [StockQuote("aapl", 1.0, 0.0, 0.0, 0, 0), StockQuote("AAPL", 2.0, 0.0, 0.0, 0, 0)], ToUpper)
         == [StockQuote("aapl", 1.0, 0.0, 0.0, 0, 0)]
  {
    var a := StockQuote("aapl", 1.0, 0.0, 0.0, 0, 0);
    assert ToUpper("aapl") == "AAPL";
    assert MatchesKey("AAPL", ToUpper)(a);
  }

  // ---------------------------------------------------------------------------
  // The page
  // ---------------------------------------------------------------------------

  /** `WatchlistComponent`: the fields `loadWatchlist` assigns. */
  class WatchlistPage {
    var watchlistItems: seq<WatchlistItem>
    var stockQuotes: seq<StockQuote>
    var loading: bool
    var errorMessage: Option<string>

    constructor ()
      ensures watchlistItems == [] && stockQuotes == [] && !loading && errorMessage == None
    {
      watchlistItems, stockQuotes, loading, errorMessage := [], [], false, None;
    }

    /** The synchronous start of `loadWatchlist`, before any callback. */
    method LoadWatchlist()
      modifies this
      ensures loading && errorMessage == None
      ensures watchlistItems == old(watchlistItems) && stockQuotes == old(stockQuotes)
    {
      loading := true;
      errorMessage := None;
    }

    /**
     * The watchlist callback.  A non-empty list yields the upper-cased symbols to request
     * quotes for; an empty one clears the quotes and ends loading.
     */
    method OnWatchlist(items: seq<WatchlistItem>) returns (request: Option<seq<string>>)
      modifies this
      ensures watchlistItems == items && errorMessage == old(errorMessage)
      ensures |items| > 0 ==> request == Some(Keys(items, ToUpper)) && stockQuotes == old(stockQuotes) && loading == old(loading)
      ensures |items| == 0 ==> request == None && stockQuotes == [] && !loading
    {
      watchlistItems := items;
      if |items| > 0 {
        request := Some(Keys(items, ToUpper));
      } else {
        request := None;
        stockQuotes := [];
        loading := false;
      }
    }

    /** The quotes callback for the request `symbols`. */
    method OnQuotes(symbols: seq<string>, quotes: seq<StockQuote>)
      modifies this
      ensures stockQuotes == Join(symbols, quotes, ToUpper) && !loading
      ensures errorMessage == if |stockQuotes| == 0 && |symbols| > 0 then Some(QuotesUnavailable) else old(errorMessage)
      ensures watchlistItems == old(watchlistItems)
    {
      stockQuotes := Join(symbols, quotes, ToUpper);
      if |stockQuotes| == 0 && |symbols| > 0 {
        errorMessage := Some(QuotesUnavailable);
      }
      loading := false;
    }

    /** The error callback of the quote request. */
    method OnQuotesError()
      modifies this
      ensures errorMessage == Some(QuotesFailed) && stockQuotes == [] && !loading
      ensures watchlistItems == old(watchlistItems)
    {
      errorMessage := Some(QuotesFailed);
      stockQuotes := [];
      loading := false;
    }

    /** The error callback of the watchlist subscription. */
    method OnWatchlistError()
      modifies this
      ensures errorMessage == Some(WatchlistFailed) && watchlistItems == [] && stockQuotes == [] && !loading
    {
      errorMessage := Some(WatchlistFailed);
      watchlistItems := [];
      stockQuotes := [];
      loading := false;
    }

    /** `getAddedDate(symbol)`: the date of the first item with exactly this symbol, else `now`. */
    function GetAddedDate(symbol: string, now: int): (d: int)
      reads this
      ensures (exists i :: 0 <= i < |watchlistItems| && watchlistItems[i].symbol == symbol &&
                           d == watchlistItems[i].addedDate &&
                           forall j | 0 <= j < i :: watchlistItems[j].symbol != symbol)
           || (d == now && forall j | 0 <= j < |watchlistItems| :: watchlistItems[j].symbol != symbol)
    {
      var p := (item: WatchlistItem) => item.symbol == symbol;
      FindFirst(watchlistItems, p);
      match Find(watchlistItems, p)
      case Some(item) => item.addedDate
      case None => now
    }
  }

  /** A full load that reaches the quotes callback shows the join of the upper-cased symbols, in watchlist order. */
  lemma LoadedQuotesFollowWatchlist(items: seq<WatchlistItem>, quotes: seq<StockQuote>)
    requires forall i | 0 <= i < |items| :: QuoteFor(quotes, ToUpper(items[i].symbol), ToUpper).Some?
    ensures var r := Join(Keys(items, ToUpper), quotes, ToUpper);
      |r| == |items| &&
      forall i | 0 <= i < |items| :: ToUpper(r[i].symbol) == ToUpper(items[i].symbol)
  {
    var keys := Keys(items, ToUpper);
    JoinComplete(keys, quotes, ToUpper);
    var r := Join(keys, quotes, ToUpper);
    forall i | 0 <= i < |items|
      ensures ToUpper(r[i].symbol) == ToUpper(items[i].symbol)
    {
      assert Some(r[i]) == QuoteFor(quotes, keys[i], ToUpper);
      FindFirst(quotes, MatchesKey(keys[i], ToUpper));
    }
  }
}
