/**
 * The frontend watchlist: an in-memory list of tracked stock symbols that
 * each operation replaces with a new list built by spread, filter or map.
 * Persisting to browser storage, the clock and the random id generator are
 * outside the model: the id and the date of a new item are parameters.
 */
module WatchlistService {
  import opened Wrappers

  /** One tracked stock; `addedDate` is a millisecond timestamp. */
  datatype WatchlistItem = WatchlistItem(id: string, symbol: string, addedDate: int, notes: Option<string>)

  /** `items.some(item => item.symbol === symbol)`. */
  predicate HasSymbol(items: seq<WatchlistItem>, symbol: string) {
    exists i :: 0 <= i < |items| && items[i].symbol == symbol
  }

  /** No two items share a symbol, the invariant `addToWatchlist` is written to keep. */
  predicate UniqueSymbols(items: seq<WatchlistItem>) {
    forall i, j :: 0 <= i < j < |items| ==> items[i].symbol != items[j].symbol
  }

  /** The list after `addToWatchlist`: unchanged when the symbol is present, else the new item appended. */
  function Added(items: seq<WatchlistItem>, symbol: string, notes: Option<string>, id: string, now: int): seq<WatchlistItem> {
    if HasSymbol(items, symbol) then items else items + [WatchlistItem(id, symbol, now, notes)]
  }

  /** The list after `removeFromWatchlist`: `filter(item => item.symbol !== symbol)`. */
  function Without(items: seq<WatchlistItem>, symbol: string): seq<WatchlistItem> {
    if |items| == 0 then []
    else if items[0].symbol != symbol then [items[0]] + Without(items[1..], symbol)
    else Without(items[1..], symbol)
  }

  /** The list after `updateNotes`: matching items get the new notes, the rest are kept as they are. */
  function WithNotes(items: seq<WatchlistItem>, symbol: string, notes: string): seq<WatchlistItem> {
    seq(|items|, i requires 0 <= i < |items| =>
      if items[i].symbol == symbol then items[i].(notes := Some(notes)) else items[i])
  }

  // ---------------------------------------------------------------------------
  // Add
  // ---------------------------------------------------------------------------

  /** Adding a symbol already on the list changes nothing, so adding twice is adding once. */
  lemma AddIdempotent(items: seq<WatchlistItem>, symbol: string, notes: Option<string>, id: string, now: int,
                      notes2: Option<string>, id2: string, now2: int)
    ensures HasSymbol(items, symbol) ==> Added(items, symbol, notes, id, now) == items
    ensures Added(Added(items, symbol, notes, id, now), symbol, notes2, id2, now2) == Added(items, symbol, notes, id, now)
  {
    var once := Added(items, symbol, notes, id, now);
    if !HasSymbol(items, symbol) {
      assert once[|items|].symbol == symbol;
    }
    assert HasSymbol(once, symbol);
  }

  /** A new symbol appends exactly one item carrying it; the earlier items stay as they were, in order. */
  lemma AddAppends(items: seq<WatchlistItem>, symbol: string, notes: Option<string>, id: string, now: int)
    requires !HasSymbol(items, symbol)
    ensures var r := Added(items, symbol, notes, id, now);
      |r| == |items| + 1 && r[..|items|] == items &&
      r[|items|] == WatchlistItem(id, symbol, now, notes)
  {
    var r := Added(items, symbol, notes, id, now);
    assert r[..|items|] == items;
  }

  /** Adding keeps the list free of duplicate symbols. */
  lemma AddKeepsUnique(items: seq<WatchlistItem>, symbol: string, notes: Option<string>, id: string, now: int)
    requires UniqueSymbols(items)
    ensures UniqueSymbols(Added(items, symbol, notes, id, now))
  {
    if !HasSymbol(items, symbol) {
      var r := Added(items, symbol, notes, id, now);
      forall i, j | 0 <= i < j < |r|
        ensures r[i].symbol != r[j].symbol
      {
        if j == |items| {
          assert r[i] == items[i];
        } else {
          assert r[i] == items[i] && r[j] == items[j];
        }
      }
    }
  }

  /** After adding, the symbol is on the list. */
  lemma AddContains(items: seq<WatchlistItem>, symbol: string, notes: Option<string>, id: string, now: int)
    ensures HasSymbol(Added(items, symbol, notes, id, now), symbol)
  {
    if !HasSymbol(items, symbol) {
      var r := Added(items, symbol, notes, id, now);
      assert r[|items|].symbol == symbol;
    }
  }

  // ---------------------------------------------------------------------------
  // Remove
  // ---------------------------------------------------------------------------

  /** An item survives removal exactly when it was on the list and carries a different symbol. */
  lemma {:induction false} WithoutMembers(items: seq<WatchlistItem>, symbol: string, x: WatchlistItem)
    ensures x in Without(items, symbol) <==> x in items && x.symbol != symbol
  {
    if |items| > 0 {
      WithoutMembers(items[1..], symbol, x);
      assert items == [items[0]] + items[1..];
    }
  }

  /** The filter is taken piece by piece, so the surviving items keep their relative order. */
  lemma {:induction false} WithoutConcat(a: seq<WatchlistItem>, b: seq<WatchlistItem>, symbol: string)
    ensures Without(a + b, symbol) == Without(a, symbol) + Without(b, symbol)
  {
    if |a| == 0 {
      assert a + b == b;
    } else {
      WithoutConcat(a[1..], b, symbol);
      assert (a + b)[0] == a[0];
      assert (a + b)[1..] == a[1..] + b;
    }
  }

  /** Removal never lengthens the list and leaves a list without the symbol untouched. */
  lemma {:induction false} WithoutShrinks(items: seq<WatchlistItem>, symbol: string)
    ensures |Without(items, symbol)| <= |items|
    ensures !HasSymbol(items, symbol) ==> Without(items, symbol) == items
    ensures HasSymbol(items, symbol) ==> |Without(items, symbol)| < |items|
  {
    if |items| > 0 {
      WithoutShrinks(items[1..], symbol);
      if !HasSymbol(items, symbol) {
        assert items[0].symbol != symbol;
        assert !HasSymbol(items[1..], symbol) by {
          forall i | 0 <= i < |items[1..]|
            ensures items[1..][i].symbol != symbol
          {
            assert items[1..][i] == items[i + 1];
          }
        }
        assert items == [items[0]] + items[1..];
      } else if items[0].symbol != symbol {
        var i :| 0 <= i < |items| && items[i].symbol == symbol;
        assert items[1..][i - 1] == items[i];
      }
    }
  }

  /** After removing, the symbol is off the list. */
  lemma RemoveExcludes(items: seq<WatchlistItem>, symbol: string)
    ensures !HasSymbol(Without(items, symbol), symbol)
  {
    var r := Without(items, symbol);
    forall i | 0 <= i < |r|
      ensures r[i].symbol != symbol
    {
      WithoutMembers(items, symbol, r[i]);
    }
  }

  /** Removing keeps the list free of duplicate symbols. */
  lemma {:induction false} RemoveKeepsUnique(items: seq<WatchlistItem>, symbol: string)
    requires UniqueSymbols(items)
    ensures UniqueSymbols(Without(items, symbol))
  {
    if |items| > 0 {
      var rest := items[1..];
      assert UniqueSymbols(rest) by {
        forall i, j | 0 <= i < j < |rest|
          ensures rest[i].symbol != rest[j].symbol
        {
          assert rest[i] == items[i + 1] && rest[j] == items[j + 1];
        }
      }
      RemoveKeepsUnique(rest, symbol);
      if items[0].symbol != symbol {
        var t := Without(rest, symbol);
        var r := [items[0]] + t;
        forall i, j | 0 <= i < j < |r|
          ensures r[i].symbol != r[j].symbol
        {
          if i == 0 {
            WithoutMembers(rest, symbol, r[j]);
            var k :| 0 <= k < |rest| && rest[k] == r[j];
            assert items[k + 1] == r[j];
          } else {
            assert r[i] == t[i - 1] && r[j] == t[j - 1];
          }
        }
      }
    }
  }

  // ---------------------------------------------------------------------------
  // Notes
  // ---------------------------------------------------------------------------

  /** Updating notes keeps length, order, ids, symbols and dates; only matching items get the new notes. */
  lemma UpdateNotesShape(items: seq<WatchlistItem>, symbol: string, notes: string)
    ensures var r := WithNotes(items, symbol, notes);
      |r| == |items| &&
      (forall i :: 0 <= i < |items| ==>
        r[i].id == items[i].id && r[i].symbol == items[i].symbol && r[i].addedDate == items[i].addedDate &&
        (items[i].symbol == symbol ==> r[i].notes == Some(notes)) &&
        (items[i].symbol != symbol ==> r[i] == items[i]))
  {
  }

  /** Updating notes keeps the list free of duplicate symbols and keeps the same symbols present. */
  lemma UpdateNotesKeepsSymbols(items: seq<WatchlistItem>, symbol: string, notes: string, s: string)
    ensures UniqueSymbols(items) ==> UniqueSymbols(WithNotes(items, symbol, notes))
    ensures HasSymbol(WithNotes(items, symbol, notes), s) <==> HasSymbol(items, s)
  {
    var r := WithNotes(items, symbol, notes);
    if HasSymbol(items, s) {
      var i :| 0 <= i < |items| && items[i].symbol == s;
      assert r[i].symbol == s;
    }
  }

  // ---------------------------------------------------------------------------
  // The service
  // ---------------------------------------------------------------------------

  /** `WatchlistService`: `items` is the current value of `watchlistSubject`. */
  class Watchlist {
    var items: seq<WatchlistItem>

    /** Starts from the list read back from storage (empty when nothing was stored). */
    constructor (stored: seq<WatchlistItem>)
      ensures items == stored
    {
      items := stored;
    }

    /** `addToWatchlist(symbol, notes)`; `id` and `now` stand for `generateId()` and `new Date()`. */
    method AddToWatchlist(symbol: string, notes: Option<string>, id: string, now: int)
      modifies this
      ensures items == Added(old(items), symbol, notes, id, now)
      ensures IsInWatchlist(symbol)
      ensures UniqueSymbols(old(items)) ==> UniqueSymbols(items)
    {
      if HasSymbol(items, symbol) {
        return;
      }
      AddContains(items, symbol, notes, id, now);
      if UniqueSymbols(items) {
        AddKeepsUnique(items, symbol, notes, id, now);
      }
      items := items + [WatchlistItem(id, symbol, now, notes)];
    }

    /** `removeFromWatchlist(symbol)`. */
    method RemoveFromWatchlist(symbol: string)
      modifies this
      ensures items == Without(old(items), symbol)
      ensures !IsInWatchlist(symbol)
      ensures UniqueSymbols(old(items)) ==> UniqueSymbols(items)
    {
      RemoveExcludes(items, symbol);
      if UniqueSymbols(items) {
        RemoveKeepsUnique(items, symbol);
      }
      items := Without(items, symbol);
    }

    /** `isInWatchlist(symbol)`: some item carries exactly this symbol. */
    function IsInWatchlist(symbol: string): (b: bool)
      reads this
      ensures b <==> exists item :: item in items && item.symbol == symbol
    {
      if HasSymbol(items, symbol) then
        var i :| 0 <= i < |items| && items[i].symbol == symbol;
        assert items[i] in items;
        true
      else
        false
    }

    /** `updateNotes(symbol, notes)`. */
    method UpdateNotes(symbol: string, notes: string)
      modifies this
      ensures items == WithNotes(old(items), symbol, notes)
      ensures UniqueSymbols(old(items)) ==> UniqueSymbols(items)
    {
      UpdateNotesKeepsSymbols(items, symbol, notes, symbol);
      items := WithNotes(items, symbol, notes);
    }
  }
}
