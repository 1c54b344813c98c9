/**
 * The JavaScript array operations the history stores are built from, stated
 * on sequences: prepend-then-slice, push-then-slice-from-the-end, `filter`,
 * `reverse`, `find`, and the stable `sort` of ES2019 with a descending
 * numeric comparator.
 */
module JsArray {
  import opened Wrappers

  function Min(a: int, b: int): int {
    if a < b then a else b
  }

  /**
   * `[x, ...h].slice(0, cap)`: `x` comes first, followed by the oldest-kept
   * prefix of `h` that still fits, so the entries dropped are the last ones of `h`.
   */
  function PrependCapped<T>(x: T, h: seq<T>, cap: nat): (r: seq<T>)
    ensures |r| == Min(|h| + 1, cap)
    ensures cap > 0 ==> r[0] == x && r[1..] == h[..|r| - 1]
  {
    ([x] + h)[..Min(|h| + 1, cap)]
  }

  /**
   * `h.push(x); if (h.length > cap) h = h.slice(-cap)`: `x` comes last,
   * preceded by the newest entries of `h` in their order; the ones dropped
   * are the first ones of `h`.
   */
  function AppendKeepLast<T>(h: seq<T>, x: T, cap: nat): (r: seq<T>)
    requires cap > 0
    ensures |r| == Min(|h| + 1, cap)
    ensures r[|r| - 1] == x
    ensures r[..|r| - 1] == h[|h| - (|r| - 1)..]
  {
    var pushed := h + [x];
    if |pushed| > cap then pushed[|pushed| - cap..] else pushed
  }

  /** `h.filter(e => !drop(e))`: the entries that `drop` rejects, in their order. */
  function Without<T>(h: seq<T>, drop: T -> bool): (r: seq<T>)
    ensures |r| <= |h|
    ensures forall k | 0 <= k < |r| :: r[k] in h && !drop(r[k])
    ensures forall k | 0 <= k < |h| :: !drop(h[k]) ==> h[k] in r
    ensures |r| == |h| <==> forall k | 0 <= k < |h| :: !drop(h[k])
    ensures |r| == |h| ==> r == h
  {
    if h == [] then []
    else if drop(h[0]) then Without(h[1..], drop)
    else [h[0]] + Without(h[1..], drop)
  }

  /** Filtering works piece by piece, so the kept entries stay in their relative order. */
  lemma {:induction false} WithoutConcat<T>(a: seq<T>, b: seq<T>, drop: T -> bool)
    ensures Without(a + b, drop) == Without(a, drop) + Without(b, drop)
  {
    if a == [] {
      assert a + b == b;
    } else {
      assert (a + b)[0] == a[0];
      assert (a + b)[1..] == a[1..] + b;
      WithoutConcat(a[1..], b, drop);
    }
  }

  /** Filtering twice with the same predicate filters once. */
  lemma {:induction false} WithoutIdempotent<T>(h: seq<T>, drop: T -> bool)
    ensures Without(Without(h, drop), drop) == Without(h, drop)
  {
    if h != [] {
      WithoutIdempotent(h[1..], drop);
    }
  }

  /** `s.reverse()` (on a copy): the element at `k` is the one `k` places from the end. */
  function Reverse<T>(s: seq<T>): (r: seq<T>)
    ensures |r| == |s|
    ensures forall k | 0 <= k < |s| :: r[k] == s[|s| - 1 - k]
  {
    if s == [] then [] else Reverse(s[1..]) + [s[0]]
  }

  lemma ReverseReverse<T>(s: seq<T>)
    ensures Reverse(Reverse(s)) == s
  {
    var r := Reverse(Reverse(s));
    assert forall k | 0 <= k < |s| :: r[k] == s[k];
  }

  lemma ReverseConcat<T>(a: seq<T>, b: seq<T>)
    ensures Reverse(a + b) == Reverse(b) + Reverse(a)
  {
    var r := Reverse(a + b);
    var q := Reverse(b) + Reverse(a);
    forall k | 0 <= k < |r| ensures r[k] == q[k] {
      if k < |b| {
        assert q[k] == Reverse(b)[k];
      } else {
        assert q[k] == Reverse(a)[k - |b|];
      }
    }
  }

  /** Filtering a reversed array gives the reversed filtered array. */
  lemma {:induction false} WithoutReverse<T>(s: seq<T>, drop: T -> bool)
    ensures Without(Reverse(s), drop) == Reverse(Without(s, drop))
  {
    if s != [] {
      var x := s[0];
      var t := s[1..];
      assert s == [x] + t;
      assert Reverse(s) == Reverse(t) + [x];
      WithoutConcat(Reverse(t), [x], drop);
      WithoutReverse(t, drop);
      WithoutConcat([x], t, drop);
      ReverseConcat(Without([x], drop), Without(t, drop));
      assert Reverse(Without([x], drop)) == Without([x], drop);
    }
  }

  /** `s.find(p)`: an element of `s` that satisfies `p`, the first one, if there is one. */
  function Find<T>(s: seq<T>, p: T -> bool): (r: Option<T>)
    ensures r.Some? ==> r.value in s && p(r.value)
    ensures s != [] && p(s[0]) ==> r == Some(s[0])
    ensures r.Some? && !p(s[0]) ==> r == Find(s[1..], p)
    ensures r.Some? ==> exists i | 0 <= i < |s| :: s[i] == r.value && forall k | 0 <= k < i :: !p(s[k])
    ensures r.None? <==> forall k | 0 <= k < |s| :: !p(s[k])
  {
    if s == [] then None
    else if p(s[0]) then Some(s[0])
    else Find(s[1..], p)
  }

  /** Non-increasing by `key`. */
  predicate SortedDesc<T>(s: seq<T>, key: T -> int) {
    forall i, j | 0 <= i < j < |s| :: key(s[i]) >= key(s[j])
  }

  /** The entries of `s` whose key is `k`, in their order. */
  function WithKey<T>(s: seq<T>, key: T -> int, k: int): seq<T> {
    if s == [] then []
    else (if key(s[0]) == k then [s[0]] else []) + WithKey(s[1..], key, k)
  }

  /** Puts `x` in front of the first entry whose key is not greater than its own. */
  function InsertDesc<T>(x: T, s: seq<T>, key: T -> int): (r: seq<T>)
    ensures multiset(r) == multiset(s) + multiset{x}
    ensures SortedDesc(s, key) ==> SortedDesc(r, key)
  {
    if s == [] || key(s[0]) <= key(x) then
      PrependSorted(x, s, key);
      [x] + s
    else
      assert s == [s[0]] + s[1..];
      SortedDescTail(s, key);
      var rest := InsertDesc(x, s[1..], key);
      InsertDescBelowHead(x, s, rest, key);
      [s[0]] + rest
  }

  lemma SortedDescTail<T>(s: seq<T>, key: T -> int)
    requires s != []
    ensures SortedDesc(s, key) ==> SortedDesc(s[1..], key)
  {
    if SortedDesc(s, key) {
      forall i, j | 0 <= i < j < |s| - 1 ensures key(s[1..][i]) >= key(s[1..][j]) {
        assert s[1..][i] == s[i + 1] && s[1..][j] == s[j + 1];
      }
    }
  }

  lemma PrependSorted<T>(x: T, s: seq<T>, key: T -> int)
    requires s == [] || key(s[0]) <= key(x)
    ensures SortedDesc(s, key) ==> SortedDesc([x] + s, key)
  {
    if SortedDesc(s, key) {
      var r := [x] + s;
      forall i, j | 0 <= i < j < |r| ensures key(r[i]) >= key(r[j]) {
        assert r[j] == s[j - 1];
        if i > 0 {
          assert r[i] == s[i - 1];
        } else {
          assert key(s[0]) >= key(s[j - 1]);
        }
      }
    }
  }

  /** Putting a sorted head in front of a sorted tail that it dominates keeps the order. */
  lemma InsertDescBelowHead<T>(x: T, s: seq<T>, rest: seq<T>, key: T -> int)
    requires s != [] && key(s[0]) > key(x)
    requires multiset(rest) == multiset(s[1..]) + multiset{x}
    requires SortedDesc(s, key) ==> SortedDesc(rest, key)
    ensures SortedDesc(s, key) ==> SortedDesc([s[0]] + rest, key)
  {
    if SortedDesc(s, key) {
      forall j | 0 <= j < |rest| ensures key(s[0]) >= key(rest[j]) {
        assert rest[j] in multiset(rest);
        if rest[j] != x {
          assert rest[j] in multiset(s[1..]);
          var i :| 0 <= i < |s[1..]| && s[1..][i] == rest[j];
          assert s[i + 1] == rest[j];
        }
      }
      var r := [s[0]] + rest;
      forall i, j | 0 <= i < j < |r| ensures key(r[i]) >= key(r[j]) {
        if i > 0 {
          assert r[i] == rest[i - 1] && r[j] == rest[j - 1];
        } else {
          assert r[j] == rest[j - 1];
        }
      }
    }
  }

  /**
   * `s.sort((a, b) => key(b) - key(a))`: a permutation of `s`, non-increasing
   * by key. The sort is stable, as `StableSortDesc` proves.
   */
  function SortDesc<T>(s: seq<T>, key: T -> int): (r: seq<T>)
    ensures multiset(r) == multiset(s)
    ensures SortedDesc(r, key)
  {
    if s == [] then []
    else
      assert s == [s[0]] + s[1..];
      InsertDesc(s[0], SortDesc(s[1..], key), key)
  }

  lemma {:induction false} InsertDescWithKey<T>(x: T, s: seq<T>, key: T -> int, k: int)
    ensures WithKey(InsertDesc(x, s, key), key, k) == (if key(x) == k then [x] else []) + WithKey(s, key, k)
  {
    var here := if key(x) == k then [x] else [];
    if s == [] || key(s[0]) <= key(x) {
      var r := [x] + s;
      assert InsertDesc(x, s, key) == r;
      assert r[1..] == s;
      assert WithKey(r, key, k) == here + WithKey(s, key, k);
    } else {
      var rest := InsertDesc(x, s[1..], key);
      var r := [s[0]] + rest;
      assert InsertDesc(x, s, key) == r;
      assert r[1..] == rest;
      var head := if key(s[0]) == k then [s[0]] else [];
      InsertDescWithKey(x, s[1..], key, k);
      assert WithKey(r, key, k) == head + (here + WithKey(s[1..], key, k));
      assert WithKey(s, key, k) == head + WithKey(s[1..], key, k);
      assert head == [] || here == [];
    }
  }

  /** Entries with equal keys keep their relative order: the sort is stable. */
  lemma {:induction false} StableSortDesc<T>(s: seq<T>, key: T -> int, k: int)
    ensures WithKey(SortDesc(s, key), key, k) == WithKey(s, key, k)
  {
    if s != [] {
      StableSortDesc(s[1..], key, k);
      InsertDescWithKey(s[0], SortDesc(s[1..], key), key, k);
    }
  }
}
