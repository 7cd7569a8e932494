/** Python's `sorted(xs, key=...)` on an integer key. Python guarantees that
    its sort is stable; a stable sort's output is unique (`StableSortIsUnique`),
    so the insertion sort defined here returns exactly what `sorted` returns. */
module StableSort {

  /** `s` is in ascending order of `key`. */
  predicate SortedBy<T>(s: seq<T>, key: T -> int) {
    forall i, j :: 0 <= i < j < |s| ==> key(s[i]) <= key(s[j])
  }

  /** The elements of `s` whose key is `k`, in their order in `s`. */
  function WithKey<T>(s: seq<T>, key: T -> int, k: int): (r: seq<T>)
    ensures |r| <= |s|
  {
    if s == [] then []
    else (if key(s[0]) == k then [s[0]] else []) + WithKey(s[1..], key, k)
  }

  /** `r` keeps, for every key, the elements of `s` with that key in the
      order `s` has them: the defining property of a stable sort. */
  ghost predicate SameRuns<T>(r: seq<T>, s: seq<T>, key: T -> int) {
    forall k :: WithKey(r, key, k) == WithKey(s, key, k)
  }

  /** Puts `x` in front of the first element of `s` whose key is not smaller. */
  function Insert<T>(x: T, s: seq<T>, key: T -> int): (r: seq<T>)
    ensures |r| == |s| + 1
    ensures multiset(r) == multiset(s) + multiset{x}
    ensures r[0] == x || (s != [] && r[0] == s[0])
  {
    if s == [] || key(x) <= key(s[0]) then [x] + s
    else
      assert s == [s[0]] + s[1..];
      [s[0]] + Insert(x, s[1..], key)
  }

  /** The stable sort of `s` by `key`: a rearrangement of `s`. */
  function Sort<T>(s: seq<T>, key: T -> int): (r: seq<T>)
    ensures |r| == |s| && multiset(r) == multiset(s)
  {
    if s == [] then []
    else
      assert s == [s[0]] + s[1..];
      Insert(s[0], Sort(s[1..], key), key)
  }

  lemma {:induction false} InsertKeepsOrder<T>(x: T, s: seq<T>, key: T -> int)
    requires SortedBy(s, key)
    ensures SortedBy(Insert(x, s, key), key)
  {
    if s == [] || key(x) <= key(s[0]) {
      SortedCons(x, s, key);
    } else {
      SortedTail(s, key);
      InsertKeepsOrder(x, s[1..], key);
      var t := Insert(x, s[1..], key);
      if s[1..] != [] { assert s[1..][0] == s[1]; }
      SortedCons(s[0], t, key);
    }
  }

  /** The sort's result is in ascending key order. */
  lemma {:induction false} SortIsOrdered<T>(s: seq<T>, key: T -> int)
    ensures SortedBy(Sort(s, key), key)
  {
    if s != [] {
      SortIsOrdered(s[1..], key);
      InsertKeepsOrder(s[0], Sort(s[1..], key), key);
    }
  }

  /** Prepending an element whose key is at most the head's keeps a sorted
      sequence sorted. */
  lemma SortedCons<T>(h: T, t: seq<T>, key: T -> int)
    requires SortedBy(t, key) && (t == [] || key(h) <= key(t[0]))
    ensures SortedBy([h] + t, key)
  {
    var r := [h] + t;
    forall i, j | 0 <= i < j < |r| ensures key(r[i]) <= key(r[j]) {
      if i == 0 {
        assert r[j] == t[j - 1];
        if j > 1 { assert key(t[0]) <= key(t[j - 1]); }
      } else {
        assert r[i] == t[i - 1] && r[j] == t[j - 1];
      }
    }
  }

  /** The tail of a sorted sequence is sorted. */
  lemma SortedTail<T>(s: seq<T>, key: T -> int)
    requires s != []
    ensures SortedBy(s, key) ==> SortedBy(s[1..], key)
  {
    if SortedBy(s, key) {
      forall i, j | 0 <= i < j < |s| - 1 ensures key(s[1..][i]) <= key(s[1..][j]) {
        assert s[1..][i] == s[i + 1] && s[1..][j] == s[j + 1];
      }
    }
  }

  lemma {:induction false} WithKeyConcat<T>(a: seq<T>, b: seq<T>, key: T -> int, k: int)
    ensures WithKey(a + b, key, k) == WithKey(a, key, k) + WithKey(b, key, k)
  {
    if a == [] {
      assert a + b == b;
    } else {
      var head := if key(a[0]) == k then [a[0]] else [];
      assert (a + b)[0] == a[0] && (a + b)[1..] == a[1..] + b;
      WithKeyConcat(a[1..], b, key, k);
      calc {
        WithKey(a + b, key, k);
        head + WithKey(a[1..] + b, key, k);
        head + (WithKey(a[1..], key, k) + WithKey(b, key, k));
        (head + WithKey(a[1..], key, k)) + WithKey(b, key, k);
        WithKey(a, key, k) + WithKey(b, key, k);
      }
    }
  }

  /** Inserting into a sorted sequence puts `x` after every element with a
      smaller key and before those with the same key. */
  lemma {:induction false} InsertKeepsRuns<T>(x: T, s: seq<T>, key: T -> int, k: int)
    requires SortedBy(s, key)
    ensures WithKey(Insert(x, s, key), key, k) == WithKey([x], key, k) + WithKey(s, key, k)
  {
    if s == [] || key(x) <= key(s[0]) {
      WithKeyConcat([x], s, key, k);
    } else {
      SortedTail(s, key);
      InsertKeepsRuns(x, s[1..], key, k);
      assert Insert(x, s, key) == [s[0]] + Insert(x, s[1..], key);
      RunPastHead(s[0], x, Insert(x, s[1..], key), s[1..], key, k);
      assert [s[0]] + s[1..] == s;
    }
  }

  /** The step of `InsertKeepsRuns` past a head whose key differs from `x`'s:
      at most one of the two belongs to the run. */
  lemma RunPastHead<T>(h: T, x: T, u: seq<T>, t: seq<T>, key: T -> int, k: int)
    requires key(h) != key(x)
    requires WithKey(u, key, k) == WithKey([x], key, k) + WithKey(t, key, k)
    ensures WithKey([h] + u, key, k) == WithKey([x], key, k) + WithKey([h] + t, key, k)
  {
    WithKeyConcat([h], u, key, k);
    WithKeyConcat([h], t, key, k);
    WithKeySingleton(h, key, k);
    WithKeySingleton(x, key, k);
  }

  lemma WithKeySingleton<T>(x: T, key: T -> int, k: int)
    ensures WithKey([x], key, k) == if key(x) == k then [x] else []
  {
    assert [x][1..] == [];
  }

  /** The sort is stable. */
  lemma {:induction false} SortIsStable<T>(s: seq<T>, key: T -> int)
    ensures SameRuns(Sort(s, key), s, key)
  {
    forall k ensures WithKey(Sort(s, key), key, k) == WithKey(s, key, k) {
      SortKeepsRun(s, key, k);
    }
  }

  lemma {:induction false} SortKeepsRun<T>(s: seq<T>, key: T -> int, k: int)
    ensures WithKey(Sort(s, key), key, k) == WithKey(s, key, k)
  {
    if s != [] {
      var t := s[1..];
      SortKeepsRun(t, key, k);
      SortIsOrdered(t, key);
      InsertKeepsRun(s[0], t, Sort(t, key), key, k);
      assert [s[0]] + t == s;
    }
  }

  /** The step of `SortKeepsRun`: inserting `h` into a sorted sequence with the
      runs of `t` gives the runs of `[h] + t`. */
  lemma InsertKeepsRun<T>(h: T, t: seq<T>, r: seq<T>, key: T -> int, k: int)
    requires SortedBy(r, key) && WithKey(r, key, k) == WithKey(t, key, k)
    ensures WithKey(Insert(h, r, key), key, k) == WithKey([h] + t, key, k)
  {
    InsertKeepsRuns(h, r, key, k);
    WithKeyConcat([h], t, key, k);
  }

  /** Two sequences sorted by the same key with the same runs are equal, so
      every stable sort of a sequence gives the same result. */
  lemma {:induction false} StableSortIsUnique<T>(r: seq<T>, s: seq<T>, key: T -> int)
    requires SortedBy(r, key) && SortedBy(s, key)
    requires SameRuns(r, s, key)
    ensures r == s
  {
    if r == [] || s == [] {
      HeadStartsItsRun(r, key);
      HeadStartsItsRun(s, key);
    } else {
      var a, b := key(r[0]), key(s[0]);
      assert r[0] in WithKey(r, key, a);
      assert WithKey(r, key, a) == WithKey(s, key, a);
      MinimalKey(s, key, r[0], a);
      assert s[0] in WithKey(s, key, b);
      MinimalKey(r, key, s[0], b);
      assert a == b;
      assert WithKey(r, key, a)[0] == r[0];
      assert WithKey(s, key, a)[0] == s[0];
      assert r[0] == s[0];
      forall k ensures WithKey(r[1..], key, k) == WithKey(s[1..], key, k) {
        var h := if key(r[0]) == k then [r[0]] else [];
        assert WithKey(r, key, k) == h + WithKey(r[1..], key, k);
        assert WithKey(s, key, k) == h + WithKey(s[1..], key, k);
        assert (h + WithKey(r[1..], key, k))[|h|..] == WithKey(r[1..], key, k);
        assert (h + WithKey(s[1..], key, k))[|h|..] == WithKey(s[1..], key, k);
      }
      SortedTail(r, key);
      SortedTail(s, key);
      StableSortIsUnique(r[1..], s[1..], key);
      assert r == [r[0]] + r[1..] && s == [s[0]] + s[1..];
    }
  }

  lemma HeadStartsItsRun<T>(s: seq<T>, key: T -> int)
    ensures s != [] ==> WithKey(s, key, key(s[0])) != []
  {
  }

  /** Every element of `WithKey(s, key, k)` is an element of `s` with key `k`. */
  lemma {:induction false} WithKeyMember<T>(s: seq<T>, key: T -> int, k: int, x: T)
    requires x in WithKey(s, key, k)
    ensures x in s && key(x) == k
  {
    if s != [] && !(key(s[0]) == k && x == s[0]) {
      WithKeyMember(s[1..], key, k, x);
    }
  }

  /** The first element of a sorted sequence has the smallest key. */
  lemma MinimalKey<T>(s: seq<T>, key: T -> int, x: T, k: int)
    requires SortedBy(s, key) && s != []
    requires x in WithKey(s, key, k)
    ensures key(s[0]) <= k
  {
    WithKeyMember(s, key, k, x);
    var i :| 0 <= i < |s| && s[i] == x;
  }

  /** Corollary: any sorted rearrangement of `s` that keeps its runs, such as
      the one Python's `sorted` builds, is `Sort(s, key)`. */
  lemma SortIsTheStableSort<T>(s: seq<T>, r: seq<T>, key: T -> int)
    requires SortedBy(r, key) && SameRuns(r, s, key)
    ensures r == Sort(s, key)
  {
    SortIsStable(s, key);
    SortIsOrdered(s, key);
    StableSortIsUnique(r, Sort(s, key), key);
  }

  /** `f` applied to each element of `s`. */
  function Map<T, U>(f: T -> U, s: seq<T>): (r: seq<U>)
    ensures |r| == |s|
    ensures forall i :: 0 <= i < |s| ==> r[i] == f(s[i])
  {
    if s == [] then [] else [f(s[0])] + Map(f, s[1..])
  }

  lemma {:induction false} InsertCommutesWithMap<T, U>(x: T, s: seq<T>, key: T -> int, f: T -> U, fkey: U -> int)
    requires forall y :: fkey(f(y)) == key(y)
    ensures Insert(f(x), Map(f, s), fkey) == Map(f, Insert(x, s, key))
  {
    if s != [] && key(x) > key(s[0]) {
      InsertCommutesWithMap(x, s[1..], key, f, fkey);
      assert Map(f, s)[1..] == Map(f, s[1..]);
    }
  }

  /** Sorting the images of `s` by a key that `f` carries over is mapping
      the sorted `s`. */
  lemma {:induction false} SortCommutesWithMap<T, U>(s: seq<T>, key: T -> int, f: T -> U, fkey: U -> int)
    requires forall y :: fkey(f(y)) == key(y)
    ensures Sort(Map(f, s), fkey) == Map(f, Sort(s, key))
  {
    if s != [] {
      SortCommutesWithMap(s[1..], key, f, fkey);
      assert Map(f, s)[1..] == Map(f, s[1..]);
      InsertCommutesWithMap(s[0], Sort(s[1..], key), key, f, fkey);
    }
  }

  /** Two keys that order the elements of `[x] + s` alike make `Insert` agree. */
  lemma {:induction false} InsertSameOrder<T>(x: T, s: seq<T>, key1: T -> int, key2: T -> int)
    requires forall a, b :: a in multiset(s) && b in multiset(s) + multiset{x} ==> (key1(a) <= key1(b) <==> key2(a) <= key2(b))
    requires forall a :: a in multiset(s) ==> (key1(x) <= key1(a) <==> key2(x) <= key2(a))
    ensures Insert(x, s, key1) == Insert(x, s, key2)
  {
    if s != [] {
      assert s[0] in multiset(s);
      assert multiset(s) == multiset{s[0]} + multiset(s[1..]) by { assert s == [s[0]] + s[1..]; }
      if key1(x) > key1(s[0]) {
        InsertSameOrder(x, s[1..], key1, key2);
      }
    }
  }

  /** Two keys that order the elements of `s` alike give the same sort. */
  lemma {:induction false} SortSameOrder<T>(s: seq<T>, key1: T -> int, key2: T -> int)
    requires forall a, b :: a in multiset(s) && b in multiset(s) ==> (key1(a) <= key1(b) <==> key2(a) <= key2(b))
    ensures Sort(s, key1) == Sort(s, key2)
  {
    if s != [] {
      var t := s[1..];
      assert multiset(s) == multiset{s[0]} + multiset(t) by { assert s == [s[0]] + t; }
      SortSameOrder(t, key1, key2);
      InsertIntoSameOrder(s[0], t, Sort(t, key1), key1, key2);
    }
  }

  /** The step of `SortSameOrder`: inserting `h` into a rearrangement of `t`. */
  lemma InsertIntoSameOrder<T>(h: T, t: seq<T>, r: seq<T>, key1: T -> int, key2: T -> int)
    requires multiset(r) == multiset(t)
    requires forall a, b :: a in multiset{h} + multiset(t) && b in multiset{h} + multiset(t) ==> (key1(a) <= key1(b) <==> key2(a) <= key2(b))
    ensures Insert(h, r, key1) == Insert(h, r, key2)
  {
    forall a, b | a in multiset(r) && b in multiset(r) + multiset{h}
      ensures key1(a) <= key1(b) <==> key2(a) <= key2(b)
    {
      assert a in multiset{h} + multiset(t) && b in multiset{h} + multiset(t);
    }
    forall a | a in multiset(r) ensures key1(h) <= key1(a) <==> key2(h) <= key2(a) {
      assert a in multiset{h} + multiset(t) && h in multiset{h} + multiset(t);
    }
    InsertSameOrder(h, r, key1, key2);
  }

  /** The first `n` elements of the sort come from `s`, are in key order,
      and none has a larger key than an element left behind. */
  lemma SortPrefixKeepsSmallest<T>(s: seq<T>, key: T -> int, n: nat)
    requires n <= |s|
    ensures multiset(Sort(s, key)[..n]) <= multiset(s)
    ensures SortedBy(Sort(s, key)[..n], key)
    ensures forall a, b :: a in Sort(s, key)[..n] && b in multiset(s) - multiset(Sort(s, key)[..n]) ==> key(a) <= key(b)
  {
    var sorted := Sort(s, key);
    SortIsOrdered(s, key);
    PrefixSplit(sorted, n);
    SortedPrefix(sorted, key, n);
    forall a, b | a in sorted[..n] && b in multiset(s) - multiset(sorted[..n]) ensures key(a) <= key(b) {
      PrefixBeforeSuffix(sorted, key, n, a, b);
    }
  }

  lemma PrefixSplit<T>(s: seq<T>, n: nat)
    requires n <= |s|
    ensures multiset(s) == multiset(s[..n]) + multiset(s[n..])
  {
    assert s == s[..n] + s[n..];
  }

  lemma SortedPrefix<T>(s: seq<T>, key: T -> int, n: nat)
    requires n <= |s| && SortedBy(s, key)
    ensures SortedBy(s[..n], key)
  {
    forall i, j | 0 <= i < j < n ensures key(s[..n][i]) <= key(s[..n][j]) {
      assert s[..n][i] == s[i] && s[..n][j] == s[j];
    }
  }

  lemma PrefixBeforeSuffix<T>(s: seq<T>, key: T -> int, n: nat, a: T, b: T)
    requires n <= |s| && SortedBy(s, key)
    requires a in s[..n] && b in multiset(s[n..])
    ensures key(a) <= key(b)
  {
    var i :| 0 <= i < n && s[..n][i] == a;
    var j :| 0 <= j < |s| - n && s[n..][j] == b;
    assert s[i] == a && s[n + j] == b;
  }
}
