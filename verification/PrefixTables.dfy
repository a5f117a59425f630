/** Model tables keyed by prefixes.  The prefixes come out of a map in no particular order and are sorted in
    place; a lookup takes the first that matches.  Neither table's answer depends on the map's order. */
module PrefixTables {
  import opened Strings
  import opened Wrappers

  const DEFAULT_MAX_OUTPUT_TOKENS := 32000

  // ---- the sort ----

  predicate Descending(order: seq<string>) {
    forall i, j :: 0 <= i < j < |order| ==> |order[i]| >= |order[j]|
  }

  /** Sorted up to `i`, but for the element at `j` that is still sinking towards the front. */
  predicate Sinking(order: seq<string>, j: int, i: int) {
    && 0 <= j <= i < |order|
    && (forall x, y :: 0 <= x < y <= i && y != j ==> |order[x]| >= |order[y]|)
  }

  lemma SinkOnce(before: seq<string>, after: seq<string>, j: int, i: int)
    requires Sinking(before, j, i) && j > 0 && |before[j]| > |before[j - 1]|
    requires after == before[j := before[j - 1]][j - 1 := before[j]]
    ensures Sinking(after, j - 1, i) && multiset(after) == multiset(before)
  {
    forall x, y | 0 <= x < y <= i && y != j - 1
      ensures |after[x]| >= |after[y]|
    {
      if y == j && x == j - 1 {
      } else if y == j {
        assert |before[x]| >= |before[j - 1]|;
      } else if x == j {
        assert |before[j - 1]| >= |before[y]|;
      } else if x == j - 1 {
        assert |before[j]| >= |before[y]|;
      }
    }
  }

  method SortByLength(a: array<string>)
    modifies a
    ensures multiset(a[..]) == multiset(old(a[..])) && Descending(a[..])
  {
    var i := 1;
    while i < a.Length
      invariant 1 <= i && multiset(a[..]) == multiset(old(a[..]))
      invariant forall x, y :: 0 <= x < y < i && y < a.Length ==> |a[x]| >= |a[y]|
    {
      var j := i;
      while j > 0 && |a[j]| > |a[j - 1]|
        invariant Sinking(a[..], j, i) && multiset(a[..]) == multiset(old(a[..]))
      {
        ghost var before := a[..];
        a[j], a[j - 1] := a[j - 1], a[j];
        SinkOnce(before, a[..], j, i);
        j := j - 1;
      }
      i := i + 1;
    }
  }

  /** The prefixes of a table, sorted; the map is read in any order. */
  method PrefixOrder(table: map<string, int>) returns (order: array<string>)
    ensures fresh(order) && multiset(order[..]) == multiset(table.Keys) && Descending(order[..])
  {
    var keys: seq<string> := [];
    var left := table.Keys;
    while left != {}
      invariant left <= table.Keys && multiset(keys) == multiset(table.Keys - left)
      decreases |left|
    {
      var key :| key in left;
      assert table.Keys - (left - {key}) == (table.Keys - left) + {key};
      keys, left := keys + [key], left - {key};
    }
    assert table.Keys - left == table.Keys;
    order := new string[|keys|](i requires 0 <= i < |keys| => keys[i]);
    assert order[..] == keys;
    SortByLength(order);
  }

  // ---- output caps ----

  predicate LongestMatch(prefixes: set<string>, id: string, p: string) {
    p in prefixes && HasPrefix(id, p) && forall q :: q in prefixes && HasPrefix(id, q) ==> |q| <= |p|
  }

  /** Matching prefixes of the same length are the same prefix. */
  lemma LongestIsOne(prefixes: set<string>, id: string, p: string, q: string)
    requires LongestMatch(prefixes, id, p) && LongestMatch(prefixes, id, q)
    ensures p == q
  {
    assert |p| == |q| && p == id[..|p|] == q;
  }

  lemma InOrder(order: seq<string>, prefixes: set<string>, p: string)
    requires multiset(order) == multiset(prefixes)
    ensures p in order <==> p in prefixes
  {
    assert p in order <==> p in multiset(order);
    assert p in prefixes <==> p in multiset(prefixes);
  }

  /** In a descending order the first match is the longest. */
  lemma FirstIsLongest(order: seq<string>, prefixes: set<string>, id: string, i: nat)
    requires multiset(order) == multiset(prefixes) && Descending(order) && i < |order| && HasPrefix(id, order[i])
    requires forall k :: 0 <= k < i ==> !HasPrefix(id, order[k])
    ensures LongestMatch(prefixes, id, order[i])
  {
    InOrder(order, prefixes, order[i]);
    forall q | q in prefixes && HasPrefix(id, q)
      ensures |q| <= |order[i]|
    {
      InOrder(order, prefixes, q);
      var k :| 0 <= k < |order| && order[k] == q;
    }
  }

  /** An exact entry, or the entry of the longest matching prefix, or the default: the value does not depend
      on how the prefixes came out of the map. */
  method MaxTokensForModel(order: array<string>, exact: map<string, int>, table: map<string, int>, id: string)
    returns (r: int)
    requires multiset(order[..]) == multiset(table.Keys) && Descending(order[..])
    ensures id == "" ==> r == DEFAULT_MAX_OUTPUT_TOKENS
    ensures id != "" && id in exact ==> r == exact[id]
    ensures id != "" && id !in exact ==>
      if exists p :: LongestMatch(table.Keys, id, p)
      then forall p :: LongestMatch(table.Keys, id, p) ==> r == table[p]
      else r == DEFAULT_MAX_OUTPUT_TOKENS && forall p :: p in table ==> !HasPrefix(id, p)
  {
    if id == "" {
      return DEFAULT_MAX_OUTPUT_TOKENS;
    }
    if id in exact {
      return exact[id];
    }
    for i := 0 to order.Length
      invariant forall k :: 0 <= k < i ==> !HasPrefix(id, order[k])
    {
      InOrder(order[..], table.Keys, order[i]);
      assert order[i] in order[..];
      if HasPrefix(id, order[i]) {
        FirstIsLongest(order[..], table.Keys, id, i);
        forall p | LongestMatch(table.Keys, id, p)
          ensures p == order[i]
        {
          LongestIsOne(table.Keys, id, p, order[i]);
        }
        return table[order[i]];
      }
    }
    forall p | p in table
      ensures !HasPrefix(id, p)
    {
      InOrder(order[..], table.Keys, p);
    }
    return DEFAULT_MAX_OUTPUT_TOKENS;
  }

  // ---- context windows ----

  predicate IsDateSuffix(s: string) {
    || (|s| == 8 && forall i :: 0 <= i < 8 ==> IsDigit(s[i]))
    || (|s| == 10 && s[4] == '-' && s[7] == '-' && forall i :: 0 <= i < 10 && i != 4 && i != 7 ==> IsDigit(s[i]))
  }

  predicate Digits(s: string, n: nat) {
    |s| == n && forall c :: c in s ==> '0' <= c <= '9'
  }

  /** A date is a year, a month and a day, in digits, with a dash between each two or between none. */
  predicate IsDate(s: string, year: string, month: string, day: string) {
    Digits(year, 4) && Digits(month, 2) && Digits(day, 2)
    && (s == year + month + day || s == year + "-" + month + "-" + day)
  }

  lemma DigitsBack(s: string, year: string, month: string, day: string)
    requires IsDate(s, year, month, day)
    ensures IsDateSuffix(s)
  {
    assert forall i :: 0 <= i < 4 ==> year[i] in year;
    assert forall i :: 0 <= i < 2 ==> month[i] in month && day[i] in day;
    if s == year + month + day {
      assert forall i :: 0 <= i < 8 ==> s[i] == if i < 4 then year[i] else if i < 6 then month[i - 4] else day[i - 6];
    } else {
      assert s[4] == '-' == s[7];
      assert forall i :: 0 <= i < 10 && i != 4 && i != 7 ==>
        s[i] == if i < 4 then year[i] else if i < 7 then month[i - 5] else day[i - 8];
    }
  }

  lemma DateSuffixIff(s: string)
    ensures IsDateSuffix(s) <==> exists year, month, day :: IsDate(s, year, month, day)
  {
    if IsDateSuffix(s) && |s| == 8 {
      assert s == s[..4] + s[4..6] + s[6..] && IsDate(s, s[..4], s[4..6], s[6..]);
    } else if IsDateSuffix(s) {
      assert s == s[..4] + "-" + s[5..7] + "-" + s[8..] && IsDate(s, s[..4], s[5..7], s[8..]);
    }
    if year, month, day :| IsDate(s, year, month, day) {
      DigitsBack(s, year, month, day);
    }
  }

  predicate Dated(id: string, prefix: string) {
    HasPrefix(id, prefix) && IsDateSuffix(id[|prefix|..])
  }

  /** A date with dashes does not end in one without. */
  lemma DatesDoNotNest(id: string, k: nat)
    requires k <= |id| && IsDateSuffix(id[k..])
    ensures forall n: nat :: k < n <= |id| ==> !IsDateSuffix(id[n..])
  {
    forall n: nat | k < n <= |id|
      ensures !IsDateSuffix(id[n..])
    {
      if n == k + 2 && |id| == k + 10 {
        assert id[n..][2] == id[k..][4];
      }
    }
  }

  /** Whatever the table, an identifier is a dated variant of at most one prefix. */
  lemma AtMostOneDated(id: string, p: string, q: string)
    requires Dated(id, p) && Dated(id, q)
    ensures p == q
  {
    if |p| == |q| {
      assert p == id[..|p|] == q;
    } else if |p| < |q| {
      DatesDoNotNest(id, |p|);
    } else {
      DatesDoNotNest(id, |q|);
    }
  }

  /** The lookup needs no order at all. */
  method LookupModelContextWindow(order: array<string>, exact: map<string, int>, table: map<string, int>, id: string)
    returns (r: Option<int>)
    requires multiset(order[..]) == multiset(table.Keys)
    ensures id == "" ==> r == None
    ensures id != "" && id in exact ==> r == Some(exact[id])
    ensures id != "" && id !in exact ==>
      (forall p :: p in table && Dated(id, p) ==> r == Some(table[p]))
      && ((forall p :: p in table ==> !Dated(id, p)) ==> r == None)
  {
    if id == "" {
      return None;
    }
    if id in exact {
      return Some(exact[id]);
    }
    for i := 0 to order.Length
      invariant forall k :: 0 <= k < i ==> !Dated(id, order[k])
    {
      InOrder(order[..], table.Keys, order[i]);
      assert order[i] in order[..];
      if Dated(id, order[i]) {
        forall p | p in table && Dated(id, p)
          ensures p == order[i]
        {
          AtMostOneDated(id, p, order[i]);
        }
        return Some(table[order[i]]);
      }
    }
    forall p | p in table
      ensures !Dated(id, p)
    {
      InOrder(order[..], table.Keys, p);
    }
    return None;
  }
}
