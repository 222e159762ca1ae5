/** The two list idioms the resolution code uses more than once:
    `lst.sort(key=k, reverse=True)` (Python's sort is stable, also when
    reversed) and the "seen-set" loop that keeps the first record per key. */
module Lists {
  import opened Wrappers

  // ---------------------------------------------------------------------------
  // Stable sort, descending by an integer key

  /** Inserts `x` in front of the first element whose key is not larger. */
  function InsertDesc<T>(x: T, s: seq<T>, key: T -> int): (r: seq<T>)
    ensures |r| == |s| + 1
    ensures multiset(r) == multiset(s) + multiset{x}
  {
    if s == [] || key(x) >= key(s[0]) then [x] + s
    else
      assert s == [s[0]] + s[1..];
      [s[0]] + InsertDesc(x, s[1..], key)
  }

  /** The list after `lst.sort(key=key, reverse=True)`. */
  function SortDesc<T>(s: seq<T>, key: T -> int): (r: seq<T>)
    ensures |r| == |s|
    ensures multiset(r) == multiset(s)
  {
    if s == [] then []
    else
      assert s == [s[0]] + s[1..];
      InsertDesc(s[0], SortDesc(s[1..], key), key)
  }

  predicate SortedDesc<T>(s: seq<T>, key: T -> int) {
    forall i, j :: 0 <= i < j < |s| ==> key(s[i]) >= key(s[j])
  }

  /** The elements of `s` whose key is `v`, in order. */
  function WithKey<T>(s: seq<T>, key: T -> int, v: int): seq<T> {
    if s == [] then []
    else (if key(s[0]) == v then [s[0]] else []) + WithKey(s[1..], key, v)
  }

  lemma {:induction false} InsertDescSorted<T>(x: T, s: seq<T>, key: T -> int)
    requires SortedDesc(s, key)
    ensures SortedDesc(InsertDesc(x, s, key), key)
  {
    if s != [] && key(x) < key(s[0]) {
      InsertDescSorted(x, s[1..], key);
      InsertDescStep(x, s, key);
      InsertDescBounded(x, s[1..], key, key(s[0]));
      var r := InsertDesc(x, s, key);
      var rest := InsertDesc(x, s[1..], key);
      forall i, j | 0 <= i < j < |r| ensures key(r[i]) >= key(r[j]) {
        assert r[j] == rest[j - 1];
        if i > 0 {
          assert r[i] == rest[i - 1];
        }
      }
    }
  }

  /** A bound on every key survives an insertion that respects it. */
  lemma {:induction false} InsertDescBounded<T>(x: T, s: seq<T>, key: T -> int, b: int)
    requires key(x) <= b && forall k :: 0 <= k < |s| ==> key(s[k]) <= b
    ensures forall k :: 0 <= k < |s| + 1 ==> key(InsertDesc(x, s, key)[k]) <= b
  {
    if s != [] && key(x) < key(s[0]) {
      InsertDescBounded(x, s[1..], key, b);
      InsertDescStep(x, s, key);
    }
  }

  /** The result of SortDesc is ordered by non-increasing key. */
  lemma {:induction false} SortDescSorted<T>(s: seq<T>, key: T -> int)
    ensures SortedDesc(SortDesc(s, key), key)
  {
    if s != [] {
      SortDescSorted(s[1..], key);
      InsertDescSorted(s[0], SortDesc(s[1..], key), key);
    }
  }

  lemma WithKeyCons<T>(a: T, rest: seq<T>, key: T -> int, v: int)
    ensures WithKey([a] + rest, key, v) == (if key(a) == v then [a] else []) + WithKey(rest, key, v)
  {
    assert ([a] + rest)[1..] == rest;
  }

  lemma InsertDescStep<T>(x: T, s: seq<T>, key: T -> int)
    requires s != [] && key(x) < key(s[0])
    ensures InsertDesc(x, s, key) == [s[0]] + InsertDesc(x, s[1..], key)
  {
  }

  /** Inserting `x` places it in front of every element with its own key. */
  lemma {:induction false} InsertDescWithKey<T>(x: T, s: seq<T>, key: T -> int, v: int)
    ensures WithKey(InsertDesc(x, s, key), key, v)
         == (if key(x) == v then [x] else []) + WithKey(s, key, v)
  {
    if s == [] || key(x) >= key(s[0]) {
      WithKeyCons(x, s, key, v);
    } else {
      var rest := InsertDesc(x, s[1..], key);
      InsertDescStep(x, s, key);
      InsertDescWithKey(x, s[1..], key, v);
      WithKeyCons(s[0], rest, key, v);
      var tail := WithKey(s[1..], key, v);
      if key(x) == v {
        assert WithKey([s[0]] + rest, key, v) == WithKey(rest, key, v) == [x] + tail;
        assert WithKey(s, key, v) == tail;
      } else if key(s[0]) == v {
        assert WithKey(rest, key, v) == tail;
        assert WithKey(s, key, v) == [s[0]] + tail;
      } else {
        assert WithKey(rest, key, v) == tail;
        assert WithKey(s, key, v) == tail;
      }
    }
  }

  /** Stability: among elements with equal keys, SortDesc keeps the input order. */
  lemma {:induction false} SortDescStable<T>(s: seq<T>, key: T -> int, v: int)
    ensures WithKey(SortDesc(s, key), key, v) == WithKey(s, key, v)
  {
    if s != [] {
      SortDescStable(s[1..], key, v);
      InsertDescWithKey(s[0], SortDesc(s[1..], key), key, v);
    }
  }

  /** `s[k]` is the first element of `s` with the largest key. */
  predicate IsFirstMax<T>(s: seq<T>, key: T -> int, k: int) {
    && 0 <= k < |s|
    && (forall j :: 0 <= j < |s| ==> key(s[j]) <= key(s[k]))
    && (forall j :: 0 <= j < k ==> key(s[j]) < key(s[k]))
  }

  lemma InsertDescHead<T>(x: T, s: seq<T>, key: T -> int)
    ensures InsertDesc(x, s, key)[0] == if s == [] || key(x) >= key(s[0]) then x else s[0]
  {
  }

  /** The first maximum of a non-empty list, from the first maximum of its tail. */
  lemma FirstMaxCons<T>(s: seq<T>, key: T -> int, k: int)
    requires |s| >= 2 && IsFirstMax(s[1..], key, k)
    ensures key(s[0]) >= key(s[k + 1]) ==> IsFirstMax(s, key, 0)
    ensures key(s[0]) < key(s[k + 1]) ==> IsFirstMax(s, key, k + 1)
  {
    assert forall j :: 1 <= j < |s| ==> s[j] == s[1..][j - 1];
  }

  /** The head of the sorted list is the first element with the largest key;
      this is what `sorted(...)[0]` picks in the document matchers. */
  lemma {:induction false} SortDescHead<T>(s: seq<T>, key: T -> int)
    requires s != []
    ensures exists k :: IsFirstMax(s, key, k) && SortDesc(s, key)[0] == s[k]
  {
    var rest := SortDesc(s[1..], key);
    InsertDescHead(s[0], rest, key);
    if |s| == 1 {
      assert IsFirstMax(s, key, 0);
    } else {
      SortDescHead(s[1..], key);
      var k :| IsFirstMax(s[1..], key, k) && rest[0] == s[1..][k];
      FirstMaxCons(s, key, k);
      if key(s[0]) >= key(rest[0]) {
        assert IsFirstMax(s, key, 0);
      } else {
        assert IsFirstMax(s, key, k + 1);
      }
    }
  }

  // ---------------------------------------------------------------------------
  // Keep the first element per key

  function KeysOf<T(==), K(==)>(s: seq<T>, key: T -> K): set<K> {
    set x | x in s :: key(x)
  }

  /** `s[i]` is the first element of `s` with its key. */
  predicate IsFirstOfKey<T, K(==)>(s: seq<T>, key: T -> K, i: int) {
    0 <= i < |s| && forall j :: 0 <= j < i ==> key(s[j]) != key(s[i])
  }

  /** What the loop
        seen, out = set(), []
        for x in s:
            if key(x) not in seen: seen.add(key(x)); out.append(x)
      leaves in `out`, written one element at a time from the back. */
  function FirstPerKey<T(==), K(==)>(s: seq<T>, key: T -> K): (r: seq<T>)
    ensures |r| <= |s|
  {
    if s == [] then []
    else
      var front, x := s[..|s| - 1], s[|s| - 1];
      FirstPerKey(front, key) + (if key(x) in KeysOf(front, key) then [] else [x])
  }

  /** The positions of the first occurrences of each key, in increasing order. */
  ghost function FirstPositions<T, K>(s: seq<T>, key: T -> K): seq<nat> {
    if s == [] then []
    else
      var front := s[..|s| - 1];
      FirstPositions(front, key) + (if key(s[|s| - 1]) in KeysOf(front, key) then [] else [|s| - 1])
  }

  lemma FirstOfKeyInPrefix<T, K>(s: seq<T>, key: T -> K, i: int)
    requires 0 <= i < |s| - 1
    ensures IsFirstOfKey(s, key, i) == IsFirstOfKey(s[..|s| - 1], key, i)
  {
  }

  lemma KeysOfPrefix<T, K>(s: seq<T>, key: T -> K, n: nat, k: K)
    requires n <= |s|
    ensures k in KeysOf(s[..n], key) <==> exists j :: 0 <= j < n && key(s[j]) == k
  {
    if exists j :: 0 <= j < n && key(s[j]) == k {
      var j :| 0 <= j < n && key(s[j]) == k;
      assert s[..n][j] == s[j];
    }
  }

  /** FirstPerKey is exactly the subsequence of `s` made of the first element
      of every key: the positions used increase, and a position is used if and
      only if no earlier element has the same key. */
  lemma {:induction false} FirstPerKeyPositions<T, K>(s: seq<T>, key: T -> K)
    ensures var r, p := FirstPerKey(s, key), FirstPositions(s, key);
      && |r| == |p|
      && (forall j :: 0 <= j < |p| ==> p[j] < |s| && r[j] == s[p[j]])
      && (forall j1, j2 :: 0 <= j1 < j2 < |p| ==> p[j1] < p[j2])
      && (forall i :: 0 <= i < |s| ==> (i in p <==> IsFirstOfKey(s, key, i)))
  {
    if s != [] {
      var front, x := s[..|s| - 1], s[|s| - 1];
      FirstPerKeyPositions(front, key);
      var pf := FirstPositions(front, key);
      KeysOfPrefix(s, key, |s| - 1, key(x));
      forall i | 0 <= i < |s|
        ensures i in FirstPositions(s, key) <==> IsFirstOfKey(s, key, i)
      {
        if i < |s| - 1 {
          FirstOfKeyInPrefix(s, key, i);
        }
      }
    }
  }

  /** A map that fixes every element of `s` fixes its first-per-key list. */
  lemma MapFixedPerKey<T, K>(s: seq<T>, key: T -> K, f: T -> T)
    requires forall x :: x in s ==> f(x) == x
    ensures Map(FirstPerKey(s, key), f) == FirstPerKey(s, key)
  {
    var r, p := FirstPerKey(s, key), FirstPositions(s, key);
    FirstPerKeyPositions(s, key);
    forall j | 0 <= j < |r|
      ensures f(r[j]) == r[j]
    {
      assert r[j] == s[p[j]];
    }
  }

  /** No two elements of FirstPerKey share a key. */
  lemma FirstPerKeyUnique<T, K>(s: seq<T>, key: T -> K)
    ensures var r := FirstPerKey(s, key);
      forall j1, j2 :: 0 <= j1 < j2 < |r| ==> key(r[j1]) != key(r[j2])
  {
    var r, p := FirstPerKey(s, key), FirstPositions(s, key);
    FirstPerKeyPositions(s, key);
    forall j1, j2 | 0 <= j1 < j2 < |r|
      ensures key(r[j1]) != key(r[j2])
    {
      assert p[j2] in p;
      assert IsFirstOfKey(s, key, p[j2]);
      assert p[j1] < p[j2];
    }
  }

  /** Some position at or before `i` holds the first element with the key of `s[i]`. */
  lemma {:induction false} FirstWithKeyExists<T, K>(s: seq<T>, key: T -> K, i: int) returns (f: int)
    requires 0 <= i < |s|
    ensures 0 <= f <= i && key(s[f]) == key(s[i]) && IsFirstOfKey(s, key, f)
  {
    if exists j :: 0 <= j < i && key(s[j]) == key(s[i]) {
      var j :| 0 <= j < i && key(s[j]) == key(s[i]);
      f := FirstWithKeyExists(s, key, j);
    } else {
      f := i;
    }
  }

  /** Every key of the input is kept: FirstPerKey has the same keys as `s`. */
  lemma FirstPerKeyKeys<T, K>(s: seq<T>, key: T -> K)
    ensures KeysOf(FirstPerKey(s, key), key) == KeysOf(s, key)
  {
    var r, p := FirstPerKey(s, key), FirstPositions(s, key);
    FirstPerKeyPositions(s, key);
    forall k | k in KeysOf(s, key)
      ensures k in KeysOf(r, key)
    {
      var x :| x in s && key(x) == k;
      var i :| 0 <= i < |s| && s[i] == x;
      var first := FirstWithKeyExists(s, key, i);
      assert first in p;
      var j :| 0 <= j < |p| && p[j] == first;
      assert r[j] == s[first];
    }
    forall k | k in KeysOf(r, key)
      ensures k in KeysOf(s, key)
    {
      var y :| y in r && key(y) == k;
      var j :| 0 <= j < |r| && r[j] == y;
      assert s[p[j]] == y;
    }
  }

  /** Adding an element adds its key. */
  lemma KeysOfAppend<T, K>(s: seq<T>, x: T, key: T -> K)
    ensures KeysOf(s + [x], key) == KeysOf(s, key) + {key(x)}
  {
    assert forall y :: y in s + [x] <==> y in s || y == x;
  }

  /** FirstPerKey of a list with one more element at the back. */
  lemma FirstPerKeyAppend<T, K>(s: seq<T>, x: T, key: T -> K)
    ensures FirstPerKey(s + [x], key) == FirstPerKey(s, key) + (if key(x) in KeysOf(s, key) then [] else [x])
  {
    assert (s + [x])[..|s|] == s;
  }

  /** One more element of the seen-set loop. */
  lemma FirstPerKeySnoc<T, K>(s: seq<T>, i: nat, key: T -> K)
    requires i < |s|
    ensures KeysOf(s[..i + 1], key) == KeysOf(s[..i], key) + {key(s[i])}
    ensures FirstPerKey(s[..i + 1], key)
         == FirstPerKey(s[..i], key) + (if key(s[i]) in KeysOf(s[..i], key) then [] else [s[i]])
  {
    assert s[..i + 1] == s[..i] + [s[i]];
    assert s[..i + 1][..i] == s[..i];
    KeysOfAppend(s[..i], s[i], key);
  }

  /** The seen-set loop itself. */
  method KeepFirstPerKey<T, K(==)>(s: seq<T>, key: T -> K) returns (r: seq<T>)
    ensures r == FirstPerKey(s, key)
  {
    var seen: set<K> := {};
    r := [];
    for i := 0 to |s|
      invariant seen == KeysOf(s[..i], key)
      invariant r == FirstPerKey(s[..i], key)
    {
      FirstPerKeySnoc(s, i, key);
      var k := key(s[i]);
      if k !in seen {
        seen := seen + {k};
        r := r + [s[i]];
      }
    }
    assert s[..|s|] == s;
  }

  /** Keeping the first element per key keeps a descending order. */
  lemma FirstPerKeySorted<T, K>(s: seq<T>, key: T -> K, order: T -> int)
    requires SortedDesc(s, order)
    ensures SortedDesc(FirstPerKey(s, key), order)
  {
    var r, p := FirstPerKey(s, key), FirstPositions(s, key);
    FirstPerKeyPositions(s, key);
    forall i, j | 0 <= i < j < |r|
      ensures order(r[i]) >= order(r[j])
    {
      assert r[i] == s[p[i]] && r[j] == s[p[j]] && p[i] < p[j];
    }
  }

  lemma SortDescOfTwo<T>(x: T, y: T, key: T -> int)
    requires key(x) >= key(y)
    ensures SortDesc([x, y], key) == [x, y]
  {
    assert [x, y][1..] == [y];
    assert [y][1..] == [];
  }

  lemma FirstPerKeyOfTwo<T, K>(x: T, y: T, key: T -> K)
    ensures FirstPerKey([x, y], key) == if key(x) == key(y) then [x] else [x, y]
  {
    assert [x, y][..1] == [x];
    assert [x][..0] == [];
    assert FirstPerKey([x], key) == [x];
    assert KeysOf([x], key) == {key(x)};
  }

  /** The first `n` elements, or all of them: `s[:n]`. */
  function Truncate<T>(s: seq<T>, n: nat): seq<T> {
    if |s| <= n then s else s[..n]
  }

  /** A prefix of a descending list is descending, and a prefix keeps
      elements with distinct keys distinct. */
  lemma TruncateKeeps<T, K>(s: seq<T>, n: nat, key: T -> K, order: T -> int)
    requires SortedDesc(s, order)
    requires forall i, j :: 0 <= i < j < |s| ==> key(s[i]) != key(s[j])
    ensures |Truncate(s, n)| <= n
    ensures SortedDesc(Truncate(s, n), order)
    ensures forall i, j :: 0 <= i < j < |Truncate(s, n)| ==> key(Truncate(s, n)[i]) != key(Truncate(s, n)[j])
  {
  }

  /** The elements of `s` that satisfy `keep`, in order. */
  function Filter<T(==)>(s: seq<T>, keep: T -> bool): (r: seq<T>)
    ensures |r| <= |s|
    ensures forall i :: 0 <= i < |r| ==> keep(r[i]) && r[i] in s
  {
    if s == [] then []
    else
      var front := s[..|s| - 1];
      Filter(front, keep) + (if keep(s[|s| - 1]) then [s[|s| - 1]] else [])
  }

  /** One more element of a filtering loop. */
  lemma FilterSnoc<T>(s: seq<T>, i: nat, keep: T -> bool)
    requires i < |s|
    ensures Filter(s[..i + 1], keep) == Filter(s[..i], keep) + (if keep(s[i]) then [s[i]] else [])
  {
    assert s[..i + 1][..i] == s[..i];
  }

  /** One more element of a seen-set loop that skips the elements `keep`
      rejects. */
  lemma FilteredFirstPerKeySnoc<T, K>(s: seq<T>, i: nat, keep: T -> bool, key: T -> K)
    requires i < |s|
    ensures var f, x := Filter(s[..i], keep), s[i];
      && KeysOf(Filter(s[..i + 1], keep), key)
         == KeysOf(f, key) + (if keep(x) && key(x) !in KeysOf(f, key) then {key(x)} else {})
      && FirstPerKey(Filter(s[..i + 1], keep), key)
         == FirstPerKey(f, key) + (if keep(x) && key(x) !in KeysOf(f, key) then [x] else [])
  {
    var f, x := Filter(s[..i], keep), s[i];
    FilterSnoc(s, i, keep);
    if keep(x) {
      assert Filter(s[..i + 1], keep) == f + [x];
      KeysOfAppend(f, x, key);
      FirstPerKeyAppend(f, x, key);
      if key(x) in KeysOf(f, key) {
        assert KeysOf(f, key) + {key(x)} == KeysOf(f, key);
        assert FirstPerKey(f, key) + [] == FirstPerKey(f, key);
      }
    } else {
      assert Filter(s[..i + 1], keep) == f;
    }
  }

  /** Every element that `keep` accepts is kept. */
  lemma {:induction false} FilterKeeps<T>(s: seq<T>, keep: T -> bool, x: T)
    requires x in s && keep(x)
    ensures x in Filter(s, keep)
  {
    var n := |s| - 1;
    if x != s[n] {
      assert x in s[..n];
      FilterKeeps(s[..n], keep, x);
    }
  }

  /** Filtering out the elements with one particular key removes exactly
      that key. */
  lemma FilterKeysOf<T, K>(s: seq<T>, keep: T -> bool, key: T -> K, dropped: K)
    requires forall x :: keep(x) <==> key(x) != dropped
    ensures KeysOf(Filter(s, keep), key) == KeysOf(s, key) - {dropped}
  {
    forall k | k in KeysOf(s, key) - {dropped}
      ensures k in KeysOf(Filter(s, keep), key)
    {
      var x :| x in s && key(x) == k;
      FilterKeeps(s, keep, x);
    }
  }

  /** The seen-set loop that also skips the elements `keep` rejects and
      appends `f` of each element it keeps:
        seen, out = set(), []
        for x in s:
            if keep(x) and key(x) not in seen: seen.add(key(x)); out.append(f(x)) */
  method KeepFirstPerKeyIf<T, K(==), U>(s: seq<T>, keep: T -> bool, key: T -> K, f: T -> U)
    returns (r: seq<U>)
    ensures r == Map(FirstPerKey(Filter(s, keep), key), f)
  {
    var seen: set<K> := {};
    r := [];
    for i := 0 to |s|
      invariant seen == KeysOf(Filter(s[..i], keep), key)
      invariant r == Map(FirstPerKey(Filter(s[..i], keep), key), f)
    {
      FilteredFirstPerKeySnoc(s, i, keep, key);
      MapAppend(FirstPerKey(Filter(s[..i], keep), key), s[i], f);
      if keep(s[i]) && key(s[i]) !in seen {
        seen := seen + {key(s[i])};
        r := r + [f(s[i])];
      }
    }
    assert s[..|s|] == s;
  }

  // ---------------------------------------------------------------------------
  // Filtering comprehension

  /** The values `f` gives to the elements it maps to `Some`, in order: the
      loop that appends one record per usable item and skips the others. */
  function Somes<T, U>(s: seq<T>, f: T -> Option<U>): (r: seq<U>)
    ensures |r| <= |s|
  {
    if s == [] then []
    else
      var last := f(s[|s| - 1]);
      Somes(s[..|s| - 1], f) + (if last.Some? then [last.value] else [])
  }

  /** One more element of the loop. */
  lemma SomesSnoc<T, U>(s: seq<T>, i: nat, f: T -> Option<U>)
    requires i < |s|
    ensures Somes(s[..i + 1], f) == Somes(s[..i], f) + (if f(s[i]).Some? then [f(s[i]).value] else [])
  {
    assert s[..i + 1][..i] == s[..i];
  }

  /** Every value comes from an element of the input. */
  lemma {:induction false} SomesFrom<T, U>(s: seq<T>, f: T -> Option<U>)
    ensures forall y :: y in Somes(s, f) ==> exists x :: x in s && f(x) == Some(y)
  {
    if s != [] {
      var front := s[..|s| - 1];
      SomesFrom(front, f);
      forall y | y in Somes(s, f) ensures exists x :: x in s && f(x) == Some(y) {
        if y in Somes(front, f) {
          var x :| x in front && f(x) == Some(y);
          assert x in s;
        } else {
          assert f(s[|s| - 1]) == Some(y);
        }
      }
    }
  }

  /** With `keep` telling which elements `f` maps to `Some`, the values are
      those of the kept elements, one each, in order. */
  lemma {:induction false} SomesOfKept<T, U>(s: seq<T>, f: T -> Option<U>, keep: T -> bool)
    requires forall x :: keep(x) == f(x).Some?
    ensures var r, kept := Somes(s, f), Filter(s, keep);
      |r| == |kept| && forall i :: 0 <= i < |kept| ==> f(kept[i]) == Some(r[i])
  {
    if s != [] {
      var front := s[..|s| - 1];
      SomesOfKept(front, f, keep);
      var r, kept := Somes(s, f), Filter(s, keep);
      var rf, kf := Somes(front, f), Filter(front, keep);
      forall i | 0 <= i < |kept| ensures f(kept[i]) == Some(r[i]) {
        if i < |kf| {
          assert kept[i] == kf[i] && r[i] == rf[i];
        }
      }
    }
  }

  // ---------------------------------------------------------------------------
  // Element-wise map

  /** `[f(x) for x in s]` */
  function Map<T, U>(s: seq<T>, f: T -> U): (r: seq<U>)
    ensures |r| == |s| && forall i :: 0 <= i < |s| ==> r[i] == f(s[i])
  {
    seq(|s|, i requires 0 <= i < |s| => f(s[i]))
  }

  /** One more element of the loop that builds the list. */
  lemma MapSnoc<T, U>(s: seq<T>, i: nat, f: T -> U)
    requires i < |s|
    ensures Map(s[..i + 1], f) == Map(s[..i], f) + [f(s[i])]
  {
    var l, r := Map(s[..i + 1], f), Map(s[..i], f) + [f(s[i])];
    forall j | 0 <= j < i + 1 ensures l[j] == r[j] {
      assert s[..i + 1][j] == s[j];
    }
  }

  /** Mapping a list with one more element at the back. */
  lemma MapAppend<T, U>(s: seq<T>, x: T, f: T -> U)
    ensures Map(s + [x], f) == Map(s, f) + [f(x)]
  {
    var l, r := Map(s + [x], f), Map(s, f) + [f(x)];
    assert forall j :: 0 <= j < |s| ==> (s + [x])[j] == s[j];
    assert |l| == |r|;
  }

  // ---------------------------------------------------------------------------
  // Existence

  /** `any(p(x) for x in s)` */
  predicate AnyOf<T>(s: seq<T>, p: T -> bool) {
    exists i :: 0 <= i < |s| && p(s[i])
  }

  /** One more element of a loop that stops at the first element satisfying
      `p`: `s[i]` is such an element exactly when the prefix up to it has one
      and the shorter prefix has none. */
  lemma AnyOfSnoc<T>(s: seq<T>, i: nat, p: T -> bool)
    requires i < |s|
    ensures AnyOf(s[..i + 1], p) <==> AnyOf(s[..i], p) || p(s[i])
    ensures p(s[i]) ==> AnyOf(s, p)
  {
    if AnyOf(s[..i + 1], p) {
      var j :| 0 <= j < i + 1 && p(s[..i + 1][j]);
      if j < i {
        assert s[..i][j] == s[..i + 1][j];
      }
    }
    if AnyOf(s[..i], p) {
      var j :| 0 <= j < i && p(s[..i][j]);
      assert s[..i + 1][j] == s[..i][j];
    }
    if p(s[i]) {
      assert s[..i + 1][i] == s[i];
    }
  }
}
