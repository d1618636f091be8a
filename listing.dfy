/** How the store turns a table into a list: `Array.from(map.values())`,
    `filter` and a stable `sort` by an integer key. */
module Listing {
  import opened Wrappers

  /** Every key of a table lies in [1, next): ids come from a counter that
      starts at 1 and is always one past the last id handed out. */
  ghost predicate KeysBelow<T>(m: map<int, T>, next: int) {
    forall k :: k in m ==> 1 <= k < next
  }

  predicate StrictlyIncreasing(ids: seq<int>) {
    forall i, j :: 0 <= i < j < |ids| ==> ids[i] < ids[j]
  }

  /** The elements' ids strictly increase along the list. */
  ghost predicate IncreasingBy<T>(s: seq<T>, idOf: T -> int) {
    forall i, j :: 0 <= i < j < |s| ==> idOf(s[i]) < idOf(s[j])
  }

  /** The keys in [1, next) of `keys`, ascending. Because every new id is
      larger than all earlier ones and overwriting a key keeps its place, this
      is the order in which a JavaScript `Map` yields its entries. */
  function AscendingKeys(keys: set<int>, next: int): (r: seq<int>)
    decreases next
    ensures forall i :: 0 <= i < |r| ==> r[i] in keys && 1 <= r[i] < next
    ensures forall k :: k in keys && 1 <= k < next ==> k in r
    ensures StrictlyIncreasing(r)
  {
    if next <= 1 then []
    else AscendingKeys(keys, next - 1) + (if next - 1 in keys then [next - 1] else [])
  }

  /** The values stored under `ids`, in that order. */
  function ValuesAt<T>(m: map<int, T>, ids: seq<int>): (r: seq<T>)
    requires forall i :: 0 <= i < |ids| ==> ids[i] in m
    ensures |r| == |ids| && forall i :: 0 <= i < |r| ==> r[i] == m[ids[i]]
  {
    seq(|ids|, i requires 0 <= i < |ids| => m[ids[i]])
  }

  /** `Array.from(m.values())`: every stored value once, in insertion order. */
  function InsertionOrder<T>(m: map<int, T>, next: int): (r: seq<T>)
    requires KeysBelow(m, next)
  {
    ValuesAt(m, AscendingKeys(m.Keys, next))
  }

  /** The listing holds exactly the stored values, one per key. */
  lemma InsertionOrderContents<T>(m: map<int, T>, next: int)
    requires KeysBelow(m, next)
    ensures forall x :: x in InsertionOrder(m, next) <==> x in m.Values
    ensures |InsertionOrder(m, next)| == |m|
  {
    var ids := AscendingKeys(m.Keys, next);
    var r := InsertionOrder(m, next);
    assert (set x | x in ids) == m.Keys;
    assert Distinct(ids);
    DistinctCardinality(ids);
    forall x | x in m.Values ensures x in r {
      var k :| k in m && m[k] == x;
      var i :| 0 <= i < |ids| && ids[i] == k;
      assert r[i] == x;
    }
  }

  predicate Distinct<T(==)>(s: seq<T>) {
    forall i, j :: 0 <= i < j < |s| ==> s[i] != s[j]
  }

  /** `s.filter(keep)`: the elements that satisfy `keep`, in their order. */
  function Filter<T(==)>(s: seq<T>, keep: T -> bool): (r: seq<T>)
    ensures |r| <= |s|
    ensures forall i :: 0 <= i < |r| ==> r[i] in s && keep(r[i])
    ensures forall i :: 0 <= i < |s| && keep(s[i]) ==> s[i] in r
    ensures multiset(r) <= multiset(s)
    ensures (forall i :: 0 <= i < |s| ==> keep(s[i])) ==> r == s
  {
    if s == [] then []
    else
      var init, last := s[..|s| - 1], s[|s| - 1];
      assert s == init + [last];
      Filter(init, keep) + (if keep(last) then [last] else [])
  }

  /** Each kept element occurs in the result exactly as often as in the
      input, and no other element occurs. */
  lemma {:induction false} FilterMultiplicity<T>(s: seq<T>, keep: T -> bool, x: T)
    ensures multiset(Filter(s, keep))[x] == if keep(x) then multiset(s)[x] else 0
  {
    if s != [] {
      var init, last := s[..|s| - 1], s[|s| - 1];
      FilterMultiplicity(init, keep, x);
      assert s == init + [last];
      assert multiset(s) == multiset(init) + multiset{last};
      assert Filter(s, keep) == Filter(init, keep) + (if keep(last) then [last] else []);
    }
  }

  /** Filtering a concatenation filters each part in place: with
      `FilterSingleton`, this fixes the order of the kept elements to their
      order in the input. */
  lemma {:induction false} FilterAppend<T>(s: seq<T>, t: seq<T>, keep: T -> bool)
    ensures Filter(s + t, keep) == Filter(s, keep) + Filter(t, keep)
    decreases |t|
  {
    if t == [] {
      assert s + t == s;
    } else {
      var init, last := t[..|t| - 1], t[|t| - 1];
      var tail := if keep(last) then [last] else [];
      FilterAppend(s, init, keep);
      DropLastAppend(s, t);
      FilterStep(s + t, keep);
      FilterStep(t, keep);
      AppendAssoc(Filter(s, keep), Filter(init, keep), tail);
    }
  }

  lemma DropLastAppend<T>(s: seq<T>, t: seq<T>)
    requires t != []
    ensures (s + t)[..|s + t| - 1] == s + t[..|t| - 1]
    ensures (s + t)[|s + t| - 1] == t[|t| - 1]
  {
  }

  lemma AppendAssoc<T>(a: seq<T>, b: seq<T>, c: seq<T>)
    ensures (a + b) + c == a + (b + c)
  {
  }

  /** One unfolding of `Filter` at the end of a non-empty list. */
  lemma FilterStep<T>(s: seq<T>, keep: T -> bool)
    requires s != []
    ensures Filter(s, keep) == Filter(s[..|s| - 1], keep) + (if keep(s[|s| - 1]) then [s[|s| - 1]] else [])
  {
  }

  /** A one-element list keeps its element exactly when `keep` accepts it. */
  lemma FilterSingleton<T>(x: T, keep: T -> bool)
    ensures Filter([x], keep) == if keep(x) then [x] else []
  {
    assert [x][..0] == [];
  }

  /** The positions of `s` whose element is kept. */
  ghost function KeptPositions<T>(s: seq<T>, keep: T -> bool): set<int> {
    set i | 0 <= i < |s| && keep(s[i])
  }

  /** The length of a filtered list is the number of positions whose element
      is kept. */
  lemma {:induction false} FilterCount<T>(s: seq<T>, keep: T -> bool)
    ensures |Filter(s, keep)| == |KeptPositions(s, keep)|
  {
    if s != [] {
      var init, last := s[..|s| - 1], s[|s| - 1];
      FilterCount(init, keep);
      KeptPositionsStep(s, keep);
      assert |Filter(s, keep)| == |Filter(init, keep)| + (if keep(last) then 1 else 0);
    }
  }

  lemma KeptPositionsStep<T>(s: seq<T>, keep: T -> bool)
    requires s != []
    ensures |KeptPositions(s, keep)| == |KeptPositions(s[..|s| - 1], keep)| + (if keep(s[|s| - 1]) then 1 else 0)
  {
    var init := s[..|s| - 1];
    var before := KeptPositions(init, keep);
    assert KeptPositions(s, keep) == before + (if keep(s[|s| - 1]) then {|init|} else {});
    assert |init| !in before;
  }

  /** A filter that keeps every element keeps the whole list, and one that
      keeps none keeps nothing. */
  lemma FilterExtremes<T>(s: seq<T>, keep: T -> bool)
    ensures (forall i :: 0 <= i < |s| ==> keep(s[i])) ==> |Filter(s, keep)| == |s|
    ensures (forall i :: 0 <= i < |s| ==> !keep(s[i])) ==> Filter(s, keep) == []
  {
    var r := Filter(s, keep);
    if r != [] {
      assert r[0] in s && keep(r[0]);
    }
  }

  /** The elements of `s` that are kept. */
  ghost function KeptElements<T>(s: seq<T>, keep: T -> bool): set<T> {
    set x | x in s && keep(x)
  }

  /** In a list without repeats, the filtered length is the number of
      distinct elements kept. */
  lemma DistinctFilterCount<T>(s: seq<T>, keep: T -> bool)
    requires Distinct(s)
    ensures |Filter(s, keep)| == |KeptElements(s, keep)|
  {
    var r := Filter(s, keep);
    forall x | x in s ensures multiset(s)[x] == 1 {
      DistinctCount(s, x);
    }
    forall i, j | 0 <= i < j < |r| ensures r[i] != r[j] {
      RepeatCount(r, i, j);
      FilterMultiplicity(s, keep, r[i]);
    }
    DistinctCardinality(r);
    FilterMembers(s, keep);
    assert (set x | x in r) == KeptElements(s, keep);
  }

  /** Two lists with the same elements keep the same elements. */
  lemma KeptElementsOf<T>(s: seq<T>, elements: set<T>, keep: T -> bool)
    requires forall x :: x in s <==> x in elements
    ensures KeptElements(s, keep) == set x | x in elements && keep(x)
  {
  }

  // ---- Array.prototype.sort with a numeric comparator (stable) ----

  ghost predicate SortedDesc<T>(s: seq<T>, key: T -> int) {
    forall i, j :: 0 <= i < j < |s| ==> key(s[i]) >= key(s[j])
  }

  ghost predicate SortedAsc<T>(s: seq<T>, key: T -> int) {
    forall i, j :: 0 <= i < j < |s| ==> key(s[i]) <= key(s[j])
  }

  /** Puts `x` after every element whose key is at least its own, so that an
      element inserted later stays after earlier ones with an equal key. */
  function InsertDesc<T>(s: seq<T>, x: T, key: T -> int): (r: seq<T>)
    requires SortedDesc(s, key)
    decreases |s|, 1
    ensures SortedDesc(r, key)
    ensures multiset(r) == multiset(s) + multiset{x}
  {
    if s == [] then [x]
    else if key(s[0]) >= key(x) then
      var rest := InsertDesc(s[1..], x, key);
      assert s == [s[0]] + s[1..];
      InsertDescBelow(s[1..], x, key, key(s[0]));
      [s[0]] + rest
    else
      [x] + s
  }

  /** Inserting into a list whose keys are at most `bound` an element whose
      key is at most `bound` gives such a list again. */
  lemma InsertDescBelow<T>(s: seq<T>, x: T, key: T -> int, bound: int)
    requires SortedDesc(s, key)
    requires forall i :: 0 <= i < |s| ==> key(s[i]) <= bound
    requires key(x) <= bound
    decreases |s|, 2
    ensures forall i :: 0 <= i < |InsertDesc(s, x, key)| ==> key(InsertDesc(s, x, key)[i]) <= bound
  {
    var r := InsertDesc(s, x, key);
    forall i | 0 <= i < |r| ensures key(r[i]) <= bound {
      assert r[i] in multiset(r);
      assert r[i] in multiset(s) || r[i] == x;
      if r[i] in multiset(s) {
        assert r[i] in s;
      }
    }
  }

  /** `s.sort((a, b) => key(b) - key(a))`: newest (largest key) first. */
  function SortDesc<T>(s: seq<T>, key: T -> int): (r: seq<T>)
    ensures SortedDesc(r, key)
    ensures multiset(r) == multiset(s)
  {
    if s == [] then []
    else
      var init, last := s[..|s| - 1], s[|s| - 1];
      assert s == init + [last];
      InsertDesc(SortDesc(init, key), last, key)
  }

  /** `s.sort((a, b) => key(a) - key(b))`: smallest key first. */
  function SortAsc<T>(s: seq<T>, key: T -> int): (r: seq<T>)
    ensures SortedAsc(r, key)
    ensures multiset(r) == multiset(s)
  {
    var r := SortDesc(s, x => -key(x));
    assert forall i, j :: 0 <= i < j < |r| ==> -key(r[i]) >= -key(r[j]);
    r
  }

  /** Within a run of equal keys, elements keep ascending `tie` order. */
  ghost predicate TiesAscending<T>(s: seq<T>, key: T -> int, tie: T -> int) {
    forall i, j :: 0 <= i < j < |s| && key(s[i]) == key(s[j]) ==> tie(s[i]) < tie(s[j])
  }

  lemma {:induction false} InsertDescStable<T>(s: seq<T>, x: T, key: T -> int, tie: T -> int)
    requires SortedDesc(s, key) && TiesAscending(s, key, tie)
    requires forall y :: y in s ==> tie(y) < tie(x)
    ensures TiesAscending(InsertDesc(s, x, key), key, tie)
  {
    if s != [] && key(s[0]) >= key(x) {
      var t := s[1..];
      InsertDescStable(t, x, key, tie);
      var rest := InsertDesc(t, x, key);
      InsertDescElements(t, x, key);
      HeadTies(s, key, tie);
      assert s[0] in s;
      PrependTies(s[0], rest, key, tie);
    } else if s != [] {
      forall y | y in s ensures key(y) != key(x) {
        var k :| 0 <= k < |s| && s[k] == y;
        assert key(s[0]) >= key(s[k]);
      }
      PrependTies(x, s, key, tie);
    }
  }

  /** An element goes in front of a list whose ties ascend when it precedes,
      in `tie` order, every element with its key. */
  lemma PrependTies<T>(h: T, rest: seq<T>, key: T -> int, tie: T -> int)
    requires TiesAscending(rest, key, tie)
    requires forall y :: y in rest && key(y) == key(h) ==> tie(h) < tie(y)
    ensures TiesAscending([h] + rest, key, tie)
  {
    var r := [h] + rest;
    forall i, j | 0 <= i < j < |r| && key(r[i]) == key(r[j]) ensures tie(r[i]) < tie(r[j]) {
      assert r[j] == rest[j - 1];
      if i > 0 {
        assert r[i] == rest[i - 1];
      }
    }
  }

  /** Inserting brings in `x` and nothing else. */
  lemma InsertDescElements<T>(s: seq<T>, x: T, key: T -> int)
    requires SortedDesc(s, key)
    ensures forall y :: y in InsertDesc(s, x, key) ==> y in s || y == x
  {
    forall y | y in InsertDesc(s, x, key) ensures y in s || y == x {
      assert y in multiset(InsertDesc(s, x, key));
    }
  }

  /** In a list whose ties ascend, the head comes before every later element
      with its key. */
  lemma HeadTies<T>(s: seq<T>, key: T -> int, tie: T -> int)
    requires s != [] && TiesAscending(s, key, tie)
    ensures forall y :: y in s[1..] && key(y) == key(s[0]) ==> tie(s[0]) < tie(y)
  {
    forall y | y in s[1..] && key(y) == key(s[0]) ensures tie(s[0]) < tie(y) {
      var k :| 0 <= k < |s[1..]| && s[1..][k] == y;
      assert s[k + 1] == y;
    }
  }

  /** The sort is stable: an input already in ascending `tie` order keeps
      that order among elements with equal keys. */
  lemma {:induction false} SortDescStable<T>(s: seq<T>, key: T -> int, tie: T -> int)
    requires IncreasingBy(s, tie)
    ensures TiesAscending(SortDesc(s, key), key, tie)
  {
    if s != [] {
      var init, last := s[..|s| - 1], s[|s| - 1];
      assert s == init + [last];
      SortDescStable(init, key, tie);
      var sorted := SortDesc(init, key);
      forall y | y in sorted ensures tie(y) < tie(last) {
        assert y in multiset(init);
        var k :| 0 <= k < |init| && init[k] == y;
        assert s[k] == y;
      }
      InsertDescStable(sorted, last, key, tie);
    }
  }

  /** The ascending sort is stable in the same sense. */
  lemma SortAscStable<T>(s: seq<T>, key: T -> int, tie: T -> int)
    requires IncreasingBy(s, tie)
    ensures TiesAscending(SortAsc(s, key), key, tie)
  {
    var neg := x => -key(x);
    SortDescStable(s, neg, tie);
    var r := SortAsc(s, key);
    assert forall i, j :: 0 <= i < j < |r| && key(r[i]) == key(r[j]) ==> neg(r[i]) == neg(r[j]);
  }

  /** A list with no repeated element keeps that property under any
      permutation. */
  lemma {:induction false} DistinctPermutation<T>(s: seq<T>, r: seq<T>)
    requires Distinct(s) && multiset(r) == multiset(s)
    ensures Distinct(r)
  {
    forall x | x in multiset(s) ensures multiset(s)[x] == 1 {
      DistinctCount(s, x);
    }
    forall i, j | 0 <= i < j < |r| ensures r[i] != r[j] {
      RepeatCount(r, i, j);
      assert r[i] in multiset(s);
    }
  }

  /** An element found at two positions occurs at least twice. */
  lemma RepeatCount<T>(r: seq<T>, i: int, j: int)
    requires 0 <= i < j < |r|
    ensures r[i] == r[j] ==> multiset(r)[r[i]] >= 2
  {
    assert r == r[..j] + r[j..];
    assert r[i] in r[..j] && r[j] in r[j..];
    assert multiset(r)[r[i]] == multiset(r[..j])[r[i]] + multiset(r[j..])[r[i]];
  }

  lemma {:induction false} DistinctCount<T>(s: seq<T>, x: T)
    requires Distinct(s) && x in s
    ensures multiset(s)[x] == 1
  {
    var i :| 0 <= i < |s| && s[i] == x;
    assert s == s[..i] + [x] + s[i + 1..];
    assert x !in s[..i] && x !in s[i + 1..];
    assert multiset(s[..i])[x] == 0 && multiset(s[i + 1..])[x] == 0;
  }

  /** A list with no repeated element is as long as the set of its elements. */
  lemma {:induction false} DistinctCardinality<T>(s: seq<T>)
    requires Distinct(s)
    ensures |set x | x in s| == |s|
  {
    if s != [] {
      var init, last := s[..|s| - 1], s[|s| - 1];
      DistinctCardinality(init);
      assert (set x | x in s) == (set x | x in init) + {last};
      assert last !in init;
    }
  }

  /** Filtering keeps the elements in their order, so ids still increase. */
  lemma {:induction false} FilterIncreasing<T>(s: seq<T>, keep: T -> bool, idOf: T -> int)
    requires IncreasingBy(s, idOf)
    ensures IncreasingBy(Filter(s, keep), idOf)
  {
    if s != [] {
      var init, last := s[..|s| - 1], s[|s| - 1];
      assert s == init + [last];
      assert IncreasingBy(init, idOf);
      FilterIncreasing(init, keep, idOf);
      var f := Filter(init, keep);
      if keep(last) {
        forall i | 0 <= i < |f| ensures idOf(f[i]) < idOf(last) {
          assert f[i] in init;
          var k :| 0 <= k < |init| && init[k] == f[i];
          assert s[k] == init[k];
        }
        AppendIncreasing(f, last, idOf);
        assert Filter(s, keep) == f + [last];
      } else {
        assert Filter(s, keep) == f;
      }
    }
  }

  /** An element whose id exceeds every id of an increasing list may go at
      its end. */
  lemma AppendIncreasing<T>(f: seq<T>, x: T, idOf: T -> int)
    requires IncreasingBy(f, idOf)
    requires forall i :: 0 <= i < |f| ==> idOf(f[i]) < idOf(x)
    ensures IncreasingBy(f + [x], idOf)
  {
    var r := f + [x];
    forall i, j | 0 <= i < j < |r| ensures idOf(r[i]) < idOf(r[j]) {
      assert r[i] == f[i];
      if j < |f| {
        assert r[j] == f[j];
      }
    }
  }

  /** A table whose records carry their own key lists them in ascending id
      order. */
  lemma InsertionOrderIncreasing<T>(m: map<int, T>, next: int, idOf: T -> int)
    requires KeysBelow(m, next)
    requires forall k :: k in m ==> idOf(m[k]) == k
    ensures IncreasingBy(InsertionOrder(m, next), idOf)
  {
  }

  /** Distinct ids make distinct elements. */
  lemma IncreasingDistinct<T>(s: seq<T>, idOf: T -> int)
    requires IncreasingBy(s, idOf)
    ensures Distinct(s)
  {
  }

  /** `s.find(p)`: the position of the first element satisfying `p`. */
  function FindFirst<T>(s: seq<T>, p: T -> bool): (r: Option<nat>)
    ensures r.Some? ==> r.value < |s| && p(s[r.value]) && forall j :: 0 <= j < r.value ==> !p(s[j])
    ensures r.None? ==> forall j :: 0 <= j < |s| ==> !p(s[j])
  {
    if s == [] then None
    else if p(s[0]) then Some(0)
    else match FindFirst(s[1..], p)
      case None => None
      case Some(i) => Some(i + 1)
  }

  /** Two disjoint listings drawn from a third, all without repeats, are
      together no longer than it. */
  lemma {:induction false} DisjointCount<T>(a: seq<T>, b: seq<T>, c: seq<T>)
    requires Distinct(a) && Distinct(b) && Distinct(c)
    requires forall x :: x in a ==> x !in b && x in c
    requires forall x :: x in b ==> x in c
    ensures |a| + |b| <= |c|
  {
    DistinctCardinality(a);
    DistinctCardinality(b);
    DistinctCardinality(c);
    var sa, sb, sc := set x | x in a, set x | x in b, set x | x in c;
    assert sa !! sb;
    assert sa + sb <= sc;
    assert sc == (sa + sb) + (sc - (sa + sb));
  }

  /** `Array.from(m.values()).find(p)`: the value with the smallest key
      among those that satisfy `p`. */
  function FindInOrder<T>(m: map<int, T>, next: int, p: T -> bool, idOf: T -> int): (r: Option<T>)
    requires KeysBelow(m, next)
    requires forall k :: k in m ==> idOf(m[k]) == k
    ensures r.Some? ==> idOf(r.value) in m && m[idOf(r.value)] == r.value && p(r.value)
    ensures r.Some? ==> forall k :: k in m && k < idOf(r.value) ==> !p(m[k])
    ensures r.None? ==> forall k :: k in m ==> !p(m[k])
  {
    var ids := AscendingKeys(m.Keys, next);
    var all := ValuesAt(m, ids);
    match FindFirst(all, p)
    case None =>
      assert forall k :: k in m ==> k in ids;
      None
    case Some(i) =>
      EarlierKeys(m, ids, all, p, i);
      Some(all[i])
  }

  lemma EarlierKeys<T>(m: map<int, T>, ids: seq<int>, all: seq<T>, p: T -> bool, i: nat)
    requires StrictlyIncreasing(ids) && i < |ids| == |all|
    requires forall k :: k in m ==> k in ids
    requires forall j :: 0 <= j < |ids| ==> ids[j] in m && all[j] == m[ids[j]]
    requires forall j :: 0 <= j < i ==> !p(all[j])
    ensures forall k :: k in m && k < ids[i] ==> !p(m[k])
  {
    forall k | k in m && k < ids[i]
      ensures !p(m[k])
    {
      var j :| 0 <= j < |ids| && ids[j] == k;
      assert j < i;
    }
  }

  /** `Array.from(m.values()).filter(keep)`: the accepted values, once each,
      in ascending id order. */
  lemma SelectedFacts<T>(m: map<int, T>, next: int, keep: T -> bool, idOf: T -> int)
    requires KeysBelow(m, next)
    requires forall k :: k in m ==> idOf(m[k]) == k
    ensures forall x :: x in Filter(InsertionOrder(m, next), keep) <==> x in m.Values && keep(x)
    ensures IncreasingBy(Filter(InsertionOrder(m, next), keep), idOf)
    ensures (forall x :: x in m.Values ==> keep(x)) ==> |Filter(InsertionOrder(m, next), keep)| == |m|
  {
    var all := InsertionOrder(m, next);
    InsertionOrderContents(m, next);
    InsertionOrderIncreasing(m, next, idOf);
    FilterIncreasing(all, keep, idOf);
    FilterMembers(all, keep);
    var kept := Filter(all, keep);
    forall x ensures x in kept <==> x in m.Values && keep(x) {
      assert x in kept <==> x in all && keep(x);
      assert x in all <==> x in m.Values;
    }
    if forall x :: x in m.Values ==> keep(x) {
      FilterKeepsAll(all, keep);
    }
  }

  lemma FilterKeepsAll<T>(s: seq<T>, keep: T -> bool)
    requires forall x :: x in s ==> keep(x)
    ensures Filter(s, keep) == s
  {
    assert forall i :: 0 <= i < |s| ==> s[i] in s;
  }

  lemma FilterMembers<T>(s: seq<T>, keep: T -> bool)
    ensures forall x :: x in Filter(s, keep) <==> x in s && keep(x)
  {
    var r := Filter(s, keep);
    forall x ensures x in r <==> x in s && keep(x) {
      if x in r {
        var i :| 0 <= i < |r| && r[i] == x;
      }
      if x in s && keep(x) {
        var i :| 0 <= i < |s| && s[i] == x;
      }
    }
  }

  /** `Array.from(m.values()).filter(keep).sort(by key, largest first)`:
      exactly the stored values that `keep` accepts, each once, largest key
      first, equal keys in ascending id order. */
  function SelectDesc<T(==,!new)>(m: map<int, T>, next: int, keep: T -> bool, key: T -> int, idOf: T -> int): (r: seq<T>)
    requires KeysBelow(m, next)
    requires forall k :: k in m ==> idOf(m[k]) == k
    ensures forall x :: x in r <==> x in m.Values && keep(x)
    ensures Distinct(r)
    ensures SortedDesc(r, key)
    ensures TiesAscending(r, key, idOf)
    ensures (forall x :: x in m.Values ==> keep(x)) ==> |r| == |m|
  {
    var kept := Filter(InsertionOrder(m, next), keep);
    SelectedFacts(m, next, keep, idOf);
    var r := SortDesc(kept, key);
    IncreasingDistinct(kept, idOf);
    DistinctPermutation(kept, r);
    SortDescStable(kept, key, idOf);
    assert forall x :: x in r <==> x in multiset(kept);
    assert |r| == |multiset(r)| == |kept|;
    r
  }

  /** The same with the smallest key first. */
  function SelectAsc<T(==,!new)>(m: map<int, T>, next: int, keep: T -> bool, key: T -> int, idOf: T -> int): (r: seq<T>)
    requires KeysBelow(m, next)
    requires forall k :: k in m ==> idOf(m[k]) == k
    ensures forall x :: x in r <==> x in m.Values && keep(x)
    ensures Distinct(r)
    ensures SortedAsc(r, key)
    ensures TiesAscending(r, key, idOf)
  {
    var kept := Filter(InsertionOrder(m, next), keep);
    SelectedFacts(m, next, keep, idOf);
    var r := SortAsc(kept, key);
    IncreasingDistinct(kept, idOf);
    DistinctPermutation(kept, r);
    SortAscStable(kept, key, idOf);
    assert forall x :: x in r <==> x in multiset(kept);
    r
  }
}
