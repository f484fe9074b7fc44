/** `Array.prototype.sort` with a numeric comparator, as the engine does it:
    a stable sort. Modelled as insertion sort on sequences, ascending by an
    integer key (a descending sort uses the negated key). */
module Sorting {

  predicate SortedBy<T>(s: seq<T>, key: T -> int) {
    forall i, j :: 0 <= i < j < |s| ==> key(s[i]) <= key(s[j])
  }

  /** The elements whose key is `k`, in their order in `s`. */
  function WithKey<T>(s: seq<T>, key: T -> int, k: int): seq<T> {
    if |s| == 0 then []
    else (if key(s[0]) == k then [s[0]] else []) + WithKey(s[1..], key, k)
  }

  /** Places `x` after every element whose key is not greater than its own. */
  function InsertBy<T>(sorted: seq<T>, x: T, key: T -> int): (r: seq<T>)
    ensures |r| == |sorted| + 1
    ensures multiset(r) == multiset(sorted) + multiset{x}
    ensures SortedBy(sorted, key) ==> SortedBy(r, key)
  {
    if |sorted| == 0 then [x]
    else if key(x) < key(sorted[0]) then [x] + sorted
    else
      var rest := InsertBy(sorted[1..], x, key);
      assert sorted == [sorted[0]] + sorted[1..];
      assert SortedBy(sorted, key) ==> SortedBy([sorted[0]] + rest, key) by {
        if SortedBy(sorted, key) {
          ConsSorted(sorted, x, key, rest);
        }
      }
      [sorted[0]] + rest
  }

  /** The head of a sorted sequence can go before the rest with `x` inserted,
      when `x` is not smaller. */
  lemma ConsSorted<T>(sorted: seq<T>, x: T, key: T -> int, rest: seq<T>)
    requires |sorted| > 0 && SortedBy(sorted, key) && key(sorted[0]) <= key(x)
    requires multiset(rest) == multiset(sorted[1..]) + multiset{x}
    requires SortedBy(sorted[1..], key) ==> SortedBy(rest, key)
    ensures SortedBy([sorted[0]] + rest, key)
  {
    assert SortedBy(sorted[1..], key) by {
      forall i, j | 0 <= i < j < |sorted[1..]|
        ensures key(sorted[1..][i]) <= key(sorted[1..][j])
      {
        assert sorted[1..][i] == sorted[i + 1] && sorted[1..][j] == sorted[j + 1];
      }
    }
    forall j | 0 <= j < |rest|
      ensures key(sorted[0]) <= key(rest[j])
    {
      assert rest[j] in multiset(rest);
      if rest[j] != x {
        assert rest[j] in multiset(sorted[1..]);
        var k :| 0 <= k < |sorted[1..]| && sorted[1..][k] == rest[j];
        assert sorted[1..][k] == sorted[k + 1];
      }
    }
    var r := [sorted[0]] + rest;
    forall i, j | 0 <= i < j < |r|
      ensures key(r[i]) <= key(r[j])
    {
      if i == 0 {
        assert r[j] == rest[j - 1];
      } else {
        assert r[i] == rest[i - 1] && r[j] == rest[j - 1];
      }
    }
  }

  /** `s.sort((a, b) => key(a) - key(b))`. */
  function SortBy<T>(s: seq<T>, key: T -> int): (r: seq<T>)
    ensures |r| == |s|
    ensures multiset(r) == multiset(s)
    ensures SortedBy(r, key)
  {
    if |s| == 0 then []
    else
      assert s == s[..|s| - 1] + [s[|s| - 1]];
      InsertBy(SortBy(s[..|s| - 1], key), s[|s| - 1], key)
  }

  lemma {:induction false} WithKeyAppend<T>(a: seq<T>, b: seq<T>, key: T -> int, k: int)
    ensures WithKey(a + b, key, k) == WithKey(a, key, k) + WithKey(b, key, k)
  {
    if |a| == 0 {
      assert a + b == b;
    } else {
      assert (a + b)[1..] == a[1..] + b;
      WithKeyAppend(a[1..], b, key, k);
    }
  }

  lemma {:induction false} WithKeyNone<T>(s: seq<T>, key: T -> int, k: int)
    requires forall i :: 0 <= i < |s| ==> key(s[i]) != k
    ensures WithKey(s, key, k) == []
  {
    if |s| > 0 {
      WithKeyNone(s[1..], key, k);
    }
  }

  lemma {:induction false} InsertByWithKey<T>(sorted: seq<T>, x: T, key: T -> int, k: int)
    requires SortedBy(sorted, key)
    ensures WithKey(InsertBy(sorted, x, key), key, k)
         == WithKey(sorted, key, k) + (if key(x) == k then [x] else [])
  {
    if |sorted| == 0 {
      assert InsertBy(sorted, x, key) == [x];
      assert [x][1..] == [];
    } else if key(x) < key(sorted[0]) {
      var r := [x] + sorted;
      assert InsertBy(sorted, x, key) == r;
      assert r[1..] == sorted;
      if key(x) == k {
        assert forall i :: 0 <= i < |sorted| ==> key(sorted[0]) <= key(sorted[i]);
        WithKeyNone(sorted, key, k);
      }
    } else {
      var tail := sorted[1..];
      assert SortedBy(tail, key) by {
        forall i, j | 0 <= i < j < |tail| ensures key(tail[i]) <= key(tail[j]) {
          assert tail[i] == sorted[i + 1] && tail[j] == sorted[j + 1];
        }
      }
      var rest := InsertBy(tail, x, key);
      var r := [sorted[0]] + rest;
      assert InsertBy(sorted, x, key) == r;
      assert r[1..] == rest;
      InsertByWithKey(tail, x, key, k);
      var h := if key(sorted[0]) == k then [sorted[0]] else [];
      assert WithKey(r, key, k) == h + WithKey(rest, key, k);
      assert WithKey(sorted, key, k) == h + WithKey(tail, key, k);
    }
  }

  lemma WithKeyLast<T>(s: seq<T>, key: T -> int, k: int)
    requires |s| > 0
    ensures WithKey(s, key, k)
         == WithKey(s[..|s| - 1], key, k) + (if key(s[|s| - 1]) == k then [s[|s| - 1]] else [])
  {
    var init, last := s[..|s| - 1], s[|s| - 1];
    assert s == init + [last];
    WithKeyAppend(init, [last], key, k);
    assert [last][1..] == [];
  }

  /** The sort is stable: the elements sharing a key keep their input order. */
  lemma {:induction false} SortByStable<T>(s: seq<T>, key: T -> int, k: int)
    ensures WithKey(SortBy(s, key), key, k) == WithKey(s, key, k)
  {
    if |s| > 0 {
      var init, last := s[..|s| - 1], s[|s| - 1];
      var tail := if key(last) == k then [last] else [];
      var sortedInit := SortBy(init, key);
      assert SortBy(s, key) == InsertBy(sortedInit, last, key);
      SortByStable(init, key, k);
      InsertByWithKey(sortedInit, last, key, k);
      WithKeyLast(s, key, k);
    }
  }
}
