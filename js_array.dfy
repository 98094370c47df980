/** JavaScript's `Array.prototype.sort` with a comparator, and
    `Array.from(new Set(xs))`, as the front-end components use them.

    Every comparator the components pass orders elements by a key: the
    comparator's sign is the lexicographic comparison of two integer
    sequences (`a.vagas - b.vagas` is the key `[vagas]`, the default string
    sort is the key of character codes, and so on).  `Array.prototype.sort`
    is stable, so the model is a stable insertion sort by that key: elements
    with equal keys keep their relative order. */
module JsArray {

  /** Lexicographic `<=` on integer sequences; a proper prefix is smaller. */
  predicate LexLeq(a: seq<int>, b: seq<int>)
    decreases |a|
  {
    |a| == 0 || (|b| > 0 && (a[0] < b[0] || (a[0] == b[0] && LexLeq(a[1..], b[1..]))))
  }

  lemma {:induction false} LexRefl(a: seq<int>)
    ensures LexLeq(a, a)
    decreases |a|
  {
    if |a| > 0 { LexRefl(a[1..]); }
  }

  lemma {:induction false} LexTotal(a: seq<int>, b: seq<int>)
    ensures LexLeq(a, b) || LexLeq(b, a)
    decreases |a|
  {
    if |a| > 0 && |b| > 0 && a[0] == b[0] { LexTotal(a[1..], b[1..]); }
  }

  lemma {:induction false} LexTrans(a: seq<int>, b: seq<int>, c: seq<int>)
    requires LexLeq(a, b) && LexLeq(b, c)
    ensures LexLeq(a, c)
    decreases |a|
  {
    if |a| > 0 && a[0] == b[0] && b[0] == c[0] { LexTrans(a[1..], b[1..], c[1..]); }
  }

  lemma {:induction false} LexAntisym(a: seq<int>, b: seq<int>)
    requires LexLeq(a, b) && LexLeq(b, a)
    ensures a == b
    decreases |a|
  {
    if |a| > 0 {
      LexAntisym(a[1..], b[1..]);
      assert a == [a[0]] + a[1..] && b == [b[0]] + b[1..];
    }
  }

  /** The comparator's view of an element: its key. */
  predicate KeyLeq<T>(key: T -> seq<int>, x: T, y: T) {
    LexLeq(key(x), key(y))
  }

  /** Every element is key-wise at most every later one. */
  predicate Sorted<T>(s: seq<T>, key: T -> seq<int>) {
    forall i, j :: 0 <= i < j < |s| ==> KeyLeq(key, s[i], s[j])
  }

  /** Insert `x` after the last element whose key is at most `x`'s:
      one step of a stable insertion sort, scanning from the right. */
  function Insert<T>(s: seq<T>, x: T, key: T -> seq<int>): seq<T>
    decreases |s|
  {
    if |s| == 0 || KeyLeq(key, s[|s| - 1], x) then s + [x]
    else Insert(s[..|s| - 1], x, key) + [s[|s| - 1]]
  }

  /** The array `s` after `s.sort(cmp)`. */
  function Sort<T>(s: seq<T>, key: T -> seq<int>): seq<T>
    decreases |s|
  {
    if |s| == 0 then [] else Insert(Sort(s[..|s| - 1], key), s[|s| - 1], key)
  }

  /** The elements of `s` whose key is `k`, in order. */
  function WithKey<T>(s: seq<T>, key: T -> seq<int>, k: seq<int>): seq<T>
    decreases |s|
  {
    if |s| == 0 then []
    else WithKey(s[..|s| - 1], key, k) + (if key(s[|s| - 1]) == k then [s[|s| - 1]] else [])
  }

  lemma {:induction false} InsertPermutes<T>(s: seq<T>, x: T, key: T -> seq<int>)
    ensures multiset(Insert(s, x, key)) == multiset(s) + multiset{x}
    decreases |s|
  {
    if |s| > 0 && !KeyLeq(key, s[|s| - 1], x) {
      InsertPermutes(s[..|s| - 1], x, key);
      assert s == s[..|s| - 1] + [s[|s| - 1]];
    }
  }

  lemma {:induction false} InsertSorted<T>(s: seq<T>, x: T, key: T -> seq<int>)
    requires Sorted(s, key)
    ensures Sorted(Insert(s, x, key), key)
    ensures |Insert(s, x, key)| == |s| + 1
    decreases |s|
  {
    var r := Insert(s, x, key);
    if |s| == 0 {
    } else if KeyLeq(key, s[|s| - 1], x) {
      forall i, j | 0 <= i < j < |r| ensures KeyLeq(key, r[i], r[j]) {
        if j == |s| && i < |s| - 1 {
          LexTrans(key(s[i]), key(s[|s| - 1]), key(x));
        }
      }
    } else {
      var init, last := s[..|s| - 1], s[|s| - 1];
      InsertSorted(init, x, key);
      InsertPermutes(init, x, key);
      var p := Insert(init, x, key);
      LexTotal(key(last), key(x));
      forall i, j | 0 <= i < j < |r| ensures KeyLeq(key, r[i], r[j]) {
        if j == |r| - 1 && i < |p| {
          // every element of p is init's or x, all key-wise at most `last`
          assert r[i] == p[i];
          assert p[i] in multiset(p);
          assert p[i] in multiset(init) || p[i] == x;
          if p[i] != x {
            var k :| 0 <= k < |init| && init[k] == p[i];
            assert s[k] == init[k];
          }
        }
      }
    }
  }

  lemma {:induction false} SortPermutes<T>(s: seq<T>, key: T -> seq<int>)
    ensures multiset(Sort(s, key)) == multiset(s)
    ensures |Sort(s, key)| == |s|
    decreases |s|
  {
    if |s| > 0 {
      SortPermutes(s[..|s| - 1], key);
      InsertPermutes(Sort(s[..|s| - 1], key), s[|s| - 1], key);
      assert s == s[..|s| - 1] + [s[|s| - 1]];
      assert |Sort(s, key)| == |multiset(Sort(s, key))|;
    }
  }

  lemma {:induction false} SortSorted<T>(s: seq<T>, key: T -> seq<int>)
    ensures Sorted(Sort(s, key), key)
    decreases |s|
  {
    if |s| > 0 {
      SortSorted(s[..|s| - 1], key);
      InsertSorted(Sort(s[..|s| - 1], key), s[|s| - 1], key);
    }
  }

  lemma {:induction false} WithKeyAppend<T>(s: seq<T>, t: seq<T>, key: T -> seq<int>, k: seq<int>)
    ensures WithKey(s + t, key, k) == WithKey(s, key, k) + WithKey(t, key, k)
    decreases |t|
  {
    if |t| > 0 {
      assert (s + t)[..|s + t| - 1] == s + t[..|t| - 1];
      WithKeyAppend(s, t[..|t| - 1], key, k);
    } else {
      assert s + t == s;
    }
  }

  lemma {:induction false} InsertKeepsKeyOrder<T>(s: seq<T>, x: T, key: T -> seq<int>, k: seq<int>)
    ensures WithKey(Insert(s, x, key), key, k) == WithKey(s + [x], key, k)
    decreases |s|
  {
    if |s| > 0 && !KeyLeq(key, s[|s| - 1], x) {
      var init, last := s[..|s| - 1], s[|s| - 1];
      var p := Insert(init, x, key);
      var xk := if key(x) == k then [x] else [];
      var lk := if key(last) == k then [last] else [];
      InsertKeepsKeyOrder(init, x, key, k);
      // `x` is moved only past elements with a strictly larger key
      LexRefl(key(x));
      assert key(last) != key(x);
      assert xk + lk == lk + xk;
      assert (p + [last])[..|p| ] == p;
      assert WithKey(p + [last], key, k) == WithKey(p, key, k) + lk;
      assert (init + [x])[..|init|] == init;
      assert WithKey(init + [x], key, k) == WithKey(init, key, k) + xk;
      assert (s + [x])[..|s|] == s;
      assert WithKey(s + [x], key, k) == WithKey(s, key, k) + xk;
    }
  }

  /** Stability: sorting keeps the relative order of elements with equal keys. */
  lemma {:induction false} SortIsStable<T>(s: seq<T>, key: T -> seq<int>, k: seq<int>)
    ensures WithKey(Sort(s, key), key, k) == WithKey(s, key, k)
    decreases |s|
  {
    if |s| > 0 {
      var init, last := s[..|s| - 1], s[|s| - 1];
      SortIsStable(init, key, k);
      InsertKeepsKeyOrder(Sort(init, key), last, key, k);
      WithKeyAppend(Sort(init, key), [last], key, k);
      WithKeyAppend(init, [last], key, k);
      assert s == init + [last];
    }
  }

  /** Moves `a[i]` left past the elements with a larger key: one pass of
      the insertion sort over the sorted prefix `a[..i]`. */
  method InsertInPlace<T>(a: array<T>, i: nat, key: T -> seq<int>)
    requires i < a.Length
    modifies a
    ensures a[..i + 1] == Insert(old(a[..i]), old(a[i]), key)
    ensures a[i + 1..] == old(a[i + 1..])
  {
    ghost var t := a[..i];
    var x := a[i];
    var j := i;
    assert t[..j] == t && t[j..] == [];
    while j > 0 && !KeyLeq(key, a[j - 1], x)
      invariant 0 <= j <= i
      invariant forall k :: 0 <= k < j ==> a[k] == t[k]
      invariant forall k :: j < k <= i ==> a[k] == t[k - 1]
      invariant a[i + 1..] == old(a[i + 1..])
      invariant Insert(t, x, key) == Insert(t[..j], x, key) + t[j..]
    {
      InsertShift(t, j, x, key);
      a[j] := a[j - 1];
      j := j - 1;
    }
    assert t[..j] + [x] == Insert(t[..j], x, key);
    a[j] := x;
    assert a[..i + 1] == t[..j] + [x] + t[j..];
  }

  /** Moving the inserted element one place further left. */
  lemma InsertShift<T>(t: seq<T>, j: nat, x: T, key: T -> seq<int>)
    requires 0 < j <= |t| && !KeyLeq(key, t[j - 1], x)
    ensures Insert(t[..j], x, key) + t[j..] == Insert(t[..j - 1], x, key) + t[j - 1..]
  {
    assert t[..j][..j - 1] == t[..j - 1];
    assert t[j - 1..] == [t[j - 1]] + t[j..];
  }

  /** `a.sort(cmp)`: sorts the array in place. */
  method SortInPlace<T>(a: array<T>, key: T -> seq<int>)
    modifies a
    ensures a[..] == Sort(old(a[..]), key)
  {
    ghost var s := a[..];
    var i := 0;
    while i < a.Length
      invariant 0 <= i <= a.Length
      invariant a[..i] == Sort(s[..i], key)
      invariant a[i..] == s[i..]
    {
      assert a[i] == s[i];
      InsertInPlace(a, i, key);
      assert s[..i + 1][..i] == s[..i];
      i := i + 1;
    }
    assert s[..a.Length] == s;
  }

  // ---------------------------------------------------------------------
  // Array.from(new Set(xs))

  /** The distinct elements of `xs` in first-occurrence order, as a JS `Set`
      keeps them. */
  function Distinct(xs: seq<string>): (r: seq<string>)
    ensures forall x :: x in r <==> x in xs
    ensures forall i, j :: 0 <= i < j < |r| ==> r[i] != r[j]
    decreases |xs|
  {
    if |xs| == 0 then []
    else
      var d := Distinct(xs[..|xs| - 1]);
      assert xs == xs[..|xs| - 1] + [xs[|xs| - 1]];
      if xs[|xs| - 1] in d then d else d + [xs[|xs| - 1]]
  }

  /** The UTF-16-like code units of a string; JS's default `sort()` compares these. */
  function CharCodes(s: string): (r: seq<int>)
    ensures |r| == |s|
    ensures forall i :: 0 <= i < |s| ==> r[i] == s[i] as int
  {
    seq(|s|, i requires 0 <= i < |s| => s[i] as int)
  }

  lemma CharCodesInjective(a: string, b: string)
    requires CharCodes(a) == CharCodes(b)
    ensures a == b
  {
    assert |a| == |b|;
    forall i | 0 <= i < |a| ensures a[i] == b[i] {
      assert CharCodes(a)[i] == CharCodes(b)[i];
    }
  }

  /** `Array.from(new Set(xs)).sort()` for strings. */
  function SortedDistinct(xs: seq<string>): seq<string> {
    Sort(Distinct(xs), CharCodes)
  }

  /** No element occurs twice. */
  predicate NoDuplicates<T(==)>(s: seq<T>) {
    forall i, j :: 0 <= i < j < |s| ==> s[i] != s[j]
  }

  lemma {:induction false} NoDuplicatesCount<T>(s: seq<T>, v: T)
    requires NoDuplicates(s)
    ensures multiset(s)[v] <= 1
    decreases |s|
  {
    if |s| > 0 {
      NoDuplicatesCount(s[1..], v);
      assert s == [s[0]] + s[1..];
      if s[0] == v { assert v !in s[1..]; }
    }
  }

  /** A permutation of a sequence without duplicates has none either. */
  lemma PermutationNoDuplicates<T>(d: seq<T>, r: seq<T>)
    requires NoDuplicates(d) && multiset(d) == multiset(r)
    ensures NoDuplicates(r)
  {
    forall i, j | 0 <= i < j < |r| ensures r[i] != r[j] {
      NoDuplicatesCount(d, r[i]);
      assert r == r[..i] + [r[i]] + r[i + 1..j] + [r[j]] + r[j + 1..];
    }
  }

  /** The option lists hold every value exactly once, in strictly increasing order. */
  lemma SortedDistinctSpec(xs: seq<string>)
    ensures var r := SortedDistinct(xs);
      && (forall x :: x in r <==> x in xs)
      && NoDuplicates(r)
      && Sorted(r, CharCodes)
  {
    var d := Distinct(xs);
    var r := SortedDistinct(xs);
    SortPermutes(d, CharCodes);
    SortSorted(d, CharCodes);
    PermutationNoDuplicates(d, r);
    forall x ensures x in r <==> x in d {
      assert x in r <==> x in multiset(r);
      assert x in d <==> x in multiset(d);
    }
  }
}
