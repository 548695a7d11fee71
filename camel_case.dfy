/**
 * `_to_camel`, the alias generator the Python backend's pydantic models use
 * to publish snake_case fields under camelCase names: split at '_', lower-case
 * the first segment, capitalise the others and concatenate.  Case mapping is
 * modelled for ASCII letters.
 */
module CamelCase {

  import opened Ascii

  /** `str.lower`. */
  function Lower(s: string): (r: string)
    ensures |r| == |s|
  {
    seq(|s|, i requires 0 <= i < |s| => LowerChar(s[i]))
  }

  /** `str.capitalize`: the first character upper-cased, the rest lower-cased. */
  function Capitalize(s: string): (r: string)
    ensures |r| == |s|
  {
    if |s| == 0 then "" else [UpperChar(s[0])] + Lower(s[1..])
  }

  /** The number of occurrences of `c` in `s`. */
  function Count(s: string, c: char): nat {
    if |s| == 0 then 0 else (if s[0] == c then 1 else 0) + Count(s[1..], c)
  }

  /** `s.split("_")`: the pieces between underscores, always at least one and possibly empty. */
  function Split(s: string): (parts: seq<string>)
    ensures |parts| >= 1
  {
    if |s| == 0 then [""]
    else if s[0] == '_' then [""] + Split(s[1..])
    else
      var rest := Split(s[1..]);
      [[s[0]] + rest[0]] + rest[1..]
  }

  /** `"_".join(parts)`, the inverse of `Split`. */
  function JoinUnderscore(parts: seq<string>): string
    requires |parts| >= 1
  {
    if |parts| == 1 then parts[0] else parts[0] + "_" + JoinUnderscore(parts[1..])
  }

  /** `"".join(p.capitalize() for p in parts)`. */
  function CapitalizeAll(parts: seq<string>): string {
    if |parts| == 0 then "" else Capitalize(parts[0]) + CapitalizeAll(parts[1..])
  }

  /** The total length of the parts. */
  function TotalLength(parts: seq<string>): nat {
    if |parts| == 0 then 0 else |parts[0]| + TotalLength(parts[1..])
  }

  /** `_to_camel(s)`. */
  function ToCamel(s: string): string {
    var parts := Split(s);
    Lower(parts[0]) + CapitalizeAll(parts[1..])
  }

  // ---------------------------------------------------------------------------
  // Splitting
  // ---------------------------------------------------------------------------

  /** Splitting yields one more part than there are underscores. */
  lemma {:induction false} SplitCount(s: string)
    ensures |Split(s)| == Count(s, '_') + 1
  {
    if |s| > 0 {
      SplitCount(s[1..]);
    }
  }

  /** No part of a split holds an underscore. */
  lemma {:induction false} SplitPartsClean(s: string)
    ensures forall i | 0 <= i < |Split(s)| :: '_' !in Split(s)[i]
  {
    if |s| > 0 {
      var rest := Split(s[1..]);
      var parts := Split(s);
      SplitPartsClean(s[1..]);
      if s[0] == '_' {
        assert forall i | 1 <= i < |parts| :: parts[i] == rest[i - 1];
      } else {
        var head := [s[0]] + rest[0];
        assert forall i | 1 <= i < |parts| :: parts[i] == rest[i];
        assert forall k | 1 <= k < |head| :: head[k] == rest[0][k - 1];
      }
    }
  }

  /** The parts together hold every character but the underscores. */
  lemma {:induction false} SplitLength(s: string)
    ensures TotalLength(Split(s)) + Count(s, '_') == |s|
  {
    if |s| > 0 {
      var rest := Split(s[1..]);
      SplitLength(s[1..]);
      if s[0] != '_' {
        assert Split(s)[1..] == rest[1..];
      }
    }
  }

  /** Joining the parts with underscores gives back the name. */
  lemma {:induction false} SplitJoin(s: string)
    ensures JoinUnderscore(Split(s)) == s
  {
    if |s| > 0 {
      var rest := Split(s[1..]);
      SplitJoin(s[1..]);
      if s[0] == '_' {
        assert Split(s)[1..] == rest;
        assert s == "" + "_" + s[1..];
      } else {
        var head := [s[0]] + rest[0];
        assert Split(s)[0] == head && Split(s)[1..] == rest[1..];
        if |rest| == 1 {
          assert s == [s[0]] + s[1..];
        } else {
          assert JoinUnderscore(rest) == rest[0] + "_" + JoinUnderscore(rest[1..]);
          assert s == [s[0]] + s[1..];
        }
      }
    }
  }

  /** Splitting a name joined from underscore-free parts gives back the parts. */
  lemma {:induction false} JoinSplit(parts: seq<string>)
    requires |parts| >= 1
    requires forall i | 0 <= i < |parts| :: '_' !in parts[i]
    ensures Split(JoinUnderscore(parts)) == parts
  {
    if |parts| == 1 {
      SplitNoUnderscore(parts[0]);
    } else {
      assert forall i | 0 <= i < |parts[1..]| :: parts[1..][i] == parts[i + 1];
      JoinSplit(parts[1..]);
      SplitAtUnderscore(parts[0], JoinUnderscore(parts[1..]));
    }
  }

  /** An underscore after an underscore-free head cuts off exactly that head. */
  lemma {:induction false} SplitAtUnderscore(head: string, tail: string)
    requires '_' !in head
    ensures Split(head + "_" + tail) == [head] + Split(tail)
  {
    if |head| == 0 {
      assert head + "_" + tail == "_" + tail;
    } else {
      var s := head + "_" + tail;
      assert s[1..] == head[1..] + "_" + tail;
      assert '_' !in head[1..] by {
        assert forall k | 0 <= k < |head[1..]| :: head[1..][k] == head[k + 1];
      }
      SplitAtUnderscore(head[1..], tail);
      assert [s[0]] + head[1..] == head;
    }
  }

  /** A name without underscores is a single part. */
  lemma SplitNoUnderscore(s: string)
    requires '_' !in s
    ensures Split(s) == [s]
  {
    SplitCount(s);
    SplitJoin(s);
    CountAbsent(s, '_');
    assert JoinUnderscore(Split(s)) == Split(s)[0];
  }

  lemma {:induction false} CountAbsent(s: string, c: char)
    requires c !in s
    ensures Count(s, c) == 0
  {
    if |s| > 0 {
      assert s[1..] == s[1..] && forall k | 0 <= k < |s[1..]| :: s[1..][k] == s[k + 1];
      CountAbsent(s[1..], c);
    }
  }

  // ---------------------------------------------------------------------------
  // Properties of `_to_camel`
  // ---------------------------------------------------------------------------

  /** Case mapping never produces an underscore from another character. */
  lemma CaseKeepsUnderscores(s: string)
    ensures '_' in Lower(s) <==> '_' in s
    ensures '_' in Capitalize(s) <==> '_' in s
  {
    if '_' in Lower(s) {
      var k :| 0 <= k < |s| && Lower(s)[k] == '_';
      assert s[k] == '_';
    }
    if '_' in s {
      var k :| 0 <= k < |s| && s[k] == '_';
      assert Lower(s)[k] == '_';
      if k > 0 {
        assert Capitalize(s)[k] == Lower(s[1..])[k - 1];
      }
    }
    if |s| > 0 && '_' in Capitalize(s) {
      var k :| 0 <= k < |s| && Capitalize(s)[k] == '_';
      if k > 0 {
        assert Capitalize(s)[k] == Lower(s[1..])[k - 1];
        assert s[k] == s[1..][k - 1];
      }
    }
  }

  lemma {:induction false} CapitalizeAllFacts(parts: seq<string>)
    ensures |CapitalizeAll(parts)| == TotalLength(parts)
    ensures (forall i | 0 <= i < |parts| :: '_' !in parts[i]) ==> '_' !in CapitalizeAll(parts)
  {
    if |parts| > 0 {
      CapitalizeAllFacts(parts[1..]);
      CaseKeepsUnderscores(parts[0]);
      if forall i | 0 <= i < |parts| :: '_' !in parts[i] {
        assert forall i | 0 <= i < |parts[1..]| :: parts[1..][i] == parts[i + 1];
      }
    }
  }

  /** The alias never contains an underscore. */
  lemma NoUnderscores(s: string)
    ensures '_' !in ToCamel(s)
  {
    var parts := Split(s);
    SplitPartsClean(s);
    CaseKeepsUnderscores(parts[0]);
    assert forall i | 0 <= i < |parts[1..]| :: parts[1..][i] == parts[i + 1];
    CapitalizeAllFacts(parts[1..]);
  }

  /** The alias is one character shorter than the name per underscore the name contains. */
  lemma AliasLength(s: string)
    ensures |ToCamel(s)| == |s| - Count(s, '_')
  {
    var parts := Split(s);
    SplitLength(s);
    CapitalizeAllFacts(parts[1..]);
  }

  /** A name without underscores maps to its lower-cased form. */
  lemma NoUnderscoreLowers(s: string)
    requires '_' !in s
    ensures ToCamel(s) == Lower(s)
  {
    SplitNoUnderscore(s);
    assert Split(s)[1..] == [];
  }

  /** The alias of underscore-free parts joined by underscores: the lower-cased head, then the tails capitalised. */
  lemma CamelOfParts(parts: seq<string>)
    requires |parts| >= 1
    requires forall i | 0 <= i < |parts| :: '_' !in parts[i]
    ensures ToCamel(JoinUnderscore(parts)) == Lower(parts[0]) + CapitalizeAll(parts[1..])
  {
    JoinSplit(parts);
  }

  /** No character of `s` is an upper-case ASCII letter. */
  predicate NoUpper(s: string) {
    forall i | 0 <= i < |s| :: !('A' <= s[i] <= 'Z')
  }

  /** Lower-casing leaves text without upper-case letters as it is. */
  lemma LowerKeeps(s: string)
    requires NoUpper(s)
    ensures Lower(s) == s
  {
  }

  /** Capitalising lower-case text upper-cases its first character only. */
  lemma CapitalizeLowerCase(s: string)
    requires |s| > 0 && NoUpper(s)
    ensures Capitalize(s) == [UpperChar(s[0])] + s[1..]
  {
    assert NoUpper(s[1..]) by {
      assert forall k | 0 <= k < |s[1..]| :: s[1..][k] == s[k + 1];
    }
    LowerKeeps(s[1..]);
  }

  /** The alias of `head_tail`: the lower-cased head followed by the capitalised tail. */
  lemma TwoPartAlias(head: string, tail: string)
    requires '_' !in head && '_' !in tail
    ensures ToCamel(head + "_" + tail) == Lower(head) + Capitalize(tail)
  {
    var parts := [head, tail];
    assert JoinUnderscore(parts) == head + "_" + tail by {
      assert JoinUnderscore(parts[1..]) == tail;
    }
    CamelOfParts(parts);
    assert CapitalizeAll(parts[1..]) == Capitalize(tail) by {
      assert parts[1..][1..] == [];
    }
  }

  /** A lower-case `head_tail` becomes `head` followed by `tail` with its first letter upper-cased. */
  lemma LowerTwoPartAlias(head: string, tail: string)
    requires '_' !in head && '_' !in tail && NoUpper(head) && NoUpper(tail) && |tail| > 0
    ensures ToCamel(head + "_" + tail) == head + [UpperChar(tail[0])] + tail[1..]
  {
    TwoPartAlias(head, tail);
    LowerKeeps(head);
    CapitalizeLowerCase(tail);
  }

  /** `change_percent` becomes `changePercent`. */
  lemma ChangePercentAlias(field: string)
    requires field == "change_percent"
    ensures ToCamel(field) == "changePercent"
  {
    var head, tail := "change", "percent";
    assert field == head + "_" + tail;
    LowerTwoPartAlias(head, tail);
  }

  /** `created_at` becomes `createdAt`. */
  lemma CreatedAtAlias(field: string)
    requires field == "created_at"
    ensures ToCamel(field) == "createdAt"
  {
    var head, tail := "created", "at";
    assert field == head + "_" + tail;
    LowerTwoPartAlias(head, tail);
  }

  /** `supports_oauth` becomes `supportsOauth`: capitalising keeps the rest of a part lower-case. */
  lemma SupportsOauthAlias(field: string)
    requires field == "supports_oauth"
    ensures ToCamel(field) == "supportsOauth"
  {
    var head, tail := "supports", "oauth";
    assert field == head + "_" + tail;
    LowerTwoPartAlias(head, tail);
  }

  /** The alias of `first_second_third`. */
  lemma ThreePartAlias(first: string, second: string, third: string)
    requires '_' !in first && '_' !in second && '_' !in third
    ensures ToCamel(first + "_" + second + "_" + third) == Lower(first) + Capitalize(second) + Capitalize(third)
  {
    var parts := [first, second, third];
    assert JoinUnderscore(parts) == first + "_" + second + "_" + third by {
      assert JoinUnderscore(parts[2..]) == third;
      assert JoinUnderscore(parts[1..]) == second + "_" + third;
    }
    CamelOfParts(parts);
    assert CapitalizeAll(parts[1..]) == Capitalize(second) + Capitalize(third) by {
      assert parts[1..][1..] == [third];
      assert CapitalizeAll([third]) == Capitalize(third);
    }
  }

  /** `high_52_week` becomes `high52Week`: capitalising leaves the digit-led part as it is. */
  lemma High52WeekAlias(field: string)
    requires field == "high_52_week"
    ensures ToCamel(field) == "high52Week"
  {
    var first, second, third := "high", "52", "week";
    assert field == first + "_" + second + "_" + third;
    ThreePartAlias(first, second, third);
    LowerKeeps(first);
    CapitalizeLowerCase(second);
    CapitalizeLowerCase(third);
  }

  /** An upper-case name is normalised: `USER_ID` becomes `userId`. */
  lemma UpperCaseAlias(field: string)
    requires field == "USER_ID"
    ensures ToCamel(field) == "userId"
  {
    var parts := ["USER", "ID"];
    assert JoinUnderscore(parts) == field by { assert JoinUnderscore(parts[1..]) == "ID"; }
    CamelOfParts(parts);
    assert CapitalizeAll(parts[1..]) == "Id" by {
      assert Capitalize("ID") == "Id";
    }
    assert Lower("USER") == "user";
  }

  /** A doubled underscore leaves an empty part, which contributes nothing: `a__b` becomes `aB`. */
  lemma EmptyPartAlias(field: string)
    requires field == "a__b"
    ensures ToCamel(field) == "aB"
  {
    var parts := ["a", "", "b"];
    assert JoinUnderscore(parts) == field by { assert JoinUnderscore(parts[2..]) == "b"; }
    CamelOfParts(parts);
    assert CapitalizeAll(parts[1..]) == "B" by {
      assert Capitalize("") == "";
      assert Capitalize("b") == "B";
    }
    assert Lower("a") == "a";
  }

  /** A name without underscores keeps its letters: `symbol` stays `symbol`. */
  lemma SymbolAlias(field: string)
    requires field == "symbol"
    ensures ToCamel(field) == "symbol"
  {
    CamelOfParts([field]);
    assert Lower("symbol") == "symbol";
  }
}
