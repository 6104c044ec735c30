/** The LINQ operators the UI code uses, over sequences: `Where` as Filter,
    `TakeLast`, and `OrderBy`/`ThenBy` as a stable sort on a lexicographic key. */
module Seqs {

  /** `Where(p)`: the elements satisfying `p`, in their original order. */
  function Filter<T>(s: seq<T>, p: T -> bool): (r: seq<T>)
    ensures |r| <= |s|
  {
    if s == [] then [] else (if p(s[0]) then [s[0]] else []) + Filter(s[1..], p)
  }

  /** `a` is `b` with some elements left out, the rest in their original order. */
  predicate IsSubsequence<T(==)>(a: seq<T>, b: seq<T>)
    decreases |b|
  {
    if a == [] then true
    else if b == [] then false
    else (a[0] == b[0] && IsSubsequence(a[1..], b[1..])) || IsSubsequence(a, b[1..])
  }

  /** An element survives the filter exactly when it was there and passes. */
  lemma {:induction false} FilterMembership<T>(s: seq<T>, p: T -> bool, x: T)
    ensures x in Filter(s, p) <==> x in s && p(x)
  {
    if s != [] {
      FilterMembership(s[1..], p, x);
      assert s == [s[0]] + s[1..];
    }
  }

  /** The filter keeps the order of what it keeps. */
  lemma {:induction false} FilterIsSubsequence<T>(s: seq<T>, p: T -> bool)
    ensures IsSubsequence(Filter(s, p), s)
  {
    if s != [] {
      FilterIsSubsequence(s[1..], p);
      var rest := Filter(s[1..], p);
      if p(s[0]) {
        assert Filter(s, p) == [s[0]] + rest;
        assert (Filter(s, p))[1..] == rest;
      } else {
        assert Filter(s, p) == rest;
        if rest != [] {
          assert IsSubsequence(rest, s[1..]);
        }
      }
    }
  }

  /** A filter whose predicate holds everywhere keeps everything. */
  lemma {:induction false} FilterAll<T>(s: seq<T>, p: T -> bool)
    requires forall i :: 0 <= i < |s| ==> p(s[i])
    ensures Filter(s, p) == s
  {
    if s != [] {
      FilterAll(s[1..], p);
    }
  }

  /** `TakeLast(n)`: the last `n` elements, or all of them when there are fewer;
      nothing for `n <= 0`. */
  function TakeLast<T>(s: seq<T>, n: int): (r: seq<T>)
    ensures |r| == if n <= 0 then 0 else if n < |s| then n else |s|
    ensures forall i :: 0 <= i < |r| ==> r[i] == s[|s| - |r| + i]
  {
    if n <= 0 then [] else if n < |s| then s[|s| - n..] else s
  }

  /** A subset is no larger than its superset. */
  lemma {:induction false} SubsetCardinality<T>(a: set<T>, b: set<T>)
    requires a <= b
    ensures |a| <= |b|
    decreases |a|
  {
    if a != {} {
      var x :| x in a;
      SubsetCardinality(a - {x}, b - {x});
    }
  }

  /** A sequence has no more distinct elements than positions. */
  lemma {:induction false} DistinctAtMostLength<T>(s: seq<T>)
    ensures |set x | x in s| <= |s|
  {
    if s != [] {
      var init := s[..|s| - 1];
      DistinctAtMostLength(init);
      assert s == init + [s[|s| - 1]];
      assert (set x | x in s) == (set x | x in init) + {s[|s| - 1]};
    }
  }

  /** Lexicographic order on integer keys; a proper prefix comes first. */
  predicate LexLe(a: seq<int>, b: seq<int>)
    decreases |a|
  {
    a == [] || (b != [] && (a[0] < b[0] || (a[0] == b[0] && LexLe(a[1..], b[1..]))))
  }

  lemma {:induction false} LexLeReflexive(a: seq<int>)
    ensures LexLe(a, a)
    decreases |a|
  {
    if a != [] {
      LexLeReflexive(a[1..]);
    }
  }

  lemma {:induction false} LexLeTotal(a: seq<int>, b: seq<int>)
    ensures LexLe(a, b) || LexLe(b, a)
    decreases |a|
  {
    if a != [] && b != [] && a[0] == b[0] {
      LexLeTotal(a[1..], b[1..]);
    }
  }

  lemma {:induction false} LexLeTransitive(a: seq<int>, b: seq<int>, c: seq<int>)
    requires LexLe(a, b) && LexLe(b, c)
    ensures LexLe(a, c)
    decreases |a|
  {
    if a != [] && a[0] == b[0] && b[0] == c[0] {
      LexLeTransitive(a[1..], b[1..], c[1..]);
    }
  }

  /** Lexicographic order on a fixed-length head, then on the tails. */
  lemma {:induction false} LexLeAppend(h1: seq<int>, t1: seq<int>, h2: seq<int>, t2: seq<int>)
    requires |h1| == |h2|
    ensures LexLe(h1 + t1, h2 + t2) <==> LexLe(h1, h2) && (h1 == h2 ==> LexLe(t1, t2)) && (h1 != h2 || LexLe(t1, t2))
    decreases |h1|
  {
    if h1 != [] {
      assert (h1 + t1)[1..] == h1[1..] + t1;
      assert (h2 + t2)[1..] == h2[1..] + t2;
      LexLeAppend(h1[1..], t1, h2[1..], t2);
      if h1[0] == h2[0] && h1[1..] == h2[1..] {
        assert h1 == h2;
      }
    } else {
      assert h1 + t1 == t1 && h2 + t2 == t2;
    }
  }

  /** Elements are in non-decreasing key order. */
  ghost predicate SortedBy<T>(s: seq<T>, key: T -> seq<int>)
  {
    forall i, j :: 0 <= i < j < |s| ==> LexLe(key(s[i]), key(s[j]))
  }

  /** Insert `x` after every element whose key is not greater than its own. */
  function Insert<T>(x: T, s: seq<T>, key: T -> seq<int>): (r: seq<T>)
    ensures |r| == |s| + 1
    ensures multiset(r) == multiset(s) + multiset{x}
  {
    if s == [] then [x]
    else if !LexLe(key(s[0]), key(x)) then [x] + s
    else
      assert s == [s[0]] + s[1..];
      [s[0]] + Insert(x, s[1..], key)
  }

  /** A stable sort by `key`: `OrderBy(key)` with `ThenBy`s folded into the key. */
  function SortByKey<T>(s: seq<T>, key: T -> seq<int>): (r: seq<T>)
    ensures |r| == |s|
    ensures multiset(r) == multiset(s)
  {
    if s == [] then []
    else
      assert s == s[..|s| - 1] + [s[|s| - 1]];
      Insert(s[|s| - 1], SortByKey(s[..|s| - 1], key), key)
  }

  lemma {:induction false} InsertSorted<T>(x: T, s: seq<T>, key: T -> seq<int>)
    requires SortedBy(s, key)
    ensures SortedBy(Insert(x, s, key), key)
  {
    if s == [] {
    } else if !LexLe(key(s[0]), key(x)) {
      LexLeTotal(key(s[0]), key(x));
      var r := [x] + s;
      forall i, j | 0 <= i < j < |r| ensures LexLe(key(r[i]), key(r[j])) {
        if i == 0 && j > 1 {
          LexLeTransitive(key(x), key(s[0]), key(s[j - 1]));
        }
      }
    } else {
      InsertSorted(x, s[1..], key);
      var t := Insert(x, s[1..], key);
      var r := [s[0]] + t;
      forall i, j | 0 <= i < j < |r| ensures LexLe(key(r[i]), key(r[j])) {
        if i == 0 {
          var y := t[j - 1];
          assert y in multiset(t);
          assert y == x || y in multiset(s[1..]);
          if y != x {
            var k :| 0 <= k < |s[1..]| && s[1..][k] == y;
            assert s[k + 1] == y;
          }
        }
      }
    }
  }

  /** The test "has key `k`", as a filter predicate. */
  function KeyIs<T>(key: T -> seq<int>, k: seq<int>): T -> bool
  {
    x => key(x) == k
  }

  /** Filtering distributes over concatenation. */
  lemma {:induction false} FilterAppend<T>(a: seq<T>, b: seq<T>, p: T -> bool)
    ensures Filter(a + b, p) == Filter(a, p) + Filter(b, p)
  {
    var c := a + b;
    if a == [] {
      assert c == b;
    } else {
      assert c[0] == a[0] && c[1..] == a[1..] + b;
      FilterAppend(a[1..], b, p);
      var head := if p(a[0]) then [a[0]] else [];
      assert Filter(c, p) == head + Filter(a[1..] + b, p);
      assert Filter(a, p) == head + Filter(a[1..], p);
    }
  }

  /** Filtering a sequence with a known last element. */
  lemma {:induction false} FilterSnoc<T>(s: seq<T>, p: T -> bool)
    requires s != []
    ensures Filter(s, p) == Filter(s[..|s| - 1], p) + (if p(s[|s| - 1]) then [s[|s| - 1]] else [])
  {
    var init, last := s[..|s| - 1], s[|s| - 1];
    assert s == init + [last];
    FilterAppend(init, [last], p);
    FilterCons(last, [], p);
    assert [last] + [] == [last];
  }

  /** A filter that rejects everything keeps nothing. */
  lemma {:induction false} FilterNone<T>(s: seq<T>, p: T -> bool)
    requires forall i :: 0 <= i < |s| ==> !p(s[i])
    ensures Filter(s, p) == []
  {
    if s != [] {
      FilterNone(s[1..], p);
    }
  }

  /** Filtering a sequence with a known first element. */
  lemma {:induction false} FilterCons<T>(a: T, t: seq<T>, p: T -> bool)
    ensures Filter([a] + t, p) == (if p(a) then [a] else []) + Filter(t, p)
  {
    var c := [a] + t;
    assert c[0] == a && c[1..] == t;
  }

  /** The tail of a sorted sequence is sorted. */
  lemma {:induction false} SortedTail<T>(s: seq<T>, key: T -> seq<int>)
    requires s != [] && SortedBy(s, key)
    ensures SortedBy(s[1..], key)
  {
    var t := s[1..];
    forall i, j | 0 <= i < j < |t| ensures LexLe(key(t[i]), key(t[j])) {
      assert t[i] == s[i + 1] && t[j] == s[j + 1];
    }
  }

  /** Nothing in a sorted sequence whose head is greater than `x` has `x`'s key. */
  lemma {:induction false} NoTiesBehindGreater<T>(x: T, s: seq<T>, key: T -> seq<int>)
    requires s != [] && SortedBy(s, key) && !LexLe(key(s[0]), key(x))
    ensures Filter(s, KeyIs(key, key(x))) == []
  {
    var p := KeyIs(key, key(x));
    forall i | 0 <= i < |s| ensures !p(s[i]) {
      if i == 0 {
        LexLeReflexive(key(x));
      } else {
        assert LexLe(key(s[0]), key(s[i]));
      }
    }
    FilterNone(s, p);
  }

  /** Inserting into a sorted sequence puts `x` after every element with the
      same key. */
  lemma {:induction false} InsertKeepsTies<T>(x: T, s: seq<T>, key: T -> seq<int>, k: seq<int>)
    requires SortedBy(s, key)
    ensures Filter(Insert(x, s, key), KeyIs(key, k)) == Filter(s, KeyIs(key, k)) + (if key(x) == k then [x] else [])
  {
    var p := KeyIs(key, k);
    var tie := if key(x) == k then [x] else [];
    assert p(x) == (key(x) == k);
    if s == [] {
      FilterCons(x, [], p);
      assert [x] + [] == [x];
    } else if !LexLe(key(s[0]), key(x)) {
      assert Insert(x, s, key) == [x] + s;
      FilterCons(x, s, p);
      if key(x) == k {
        NoTiesBehindGreater(x, s, key);
      }
    } else {
      var t := s[1..];
      var head := if p(s[0]) then [s[0]] else [];
      var u := Insert(x, t, key);
      assert Insert(x, s, key) == [s[0]] + u;
      SortedTail(s, key);
      InsertKeepsTies(x, t, key, k);
      assert Filter(u, p) == Filter(t, p) + tie;
      FilterCons(s[0], u, p);
      assert Filter(s, p) == head + Filter(t, p);
      assert Filter([s[0]] + u, p) == head + (Filter(t, p) + tie);
      assert head + (Filter(t, p) + tie) == (head + Filter(t, p)) + tie;
    }
  }

  /** The sort is stable: the elements with any one key come out in the order
      they went in. */
  lemma {:induction false} SortByKeyStable<T>(s: seq<T>, key: T -> seq<int>, k: seq<int>)
    ensures Filter(SortByKey(s, key), KeyIs(key, k)) == Filter(s, KeyIs(key, k))
  {
    if s != [] {
      var p := KeyIs(key, k);
      var init, last := s[..|s| - 1], s[|s| - 1];
      var sorted := SortByKey(init, key);
      assert SortByKey(s, key) == Insert(last, sorted, key);
      SortByKeyStable(init, key, k);
      SortByKeySorted(init, key);
      InsertKeepsTies(last, sorted, key, k);
      FilterSnoc(s, p);
      assert p(last) == (key(last) == k);
    }
  }

  /** The sort orders its output by the key. */
  lemma {:induction false} SortByKeySorted<T>(s: seq<T>, key: T -> seq<int>)
    ensures SortedBy(SortByKey(s, key), key)
  {
    if s != [] {
      SortByKeySorted(s[..|s| - 1], key);
      InsertSorted(s[|s| - 1], SortByKey(s[..|s| - 1], key), key);
    }
  }
}

/** Two's-complement fixed-width integers as C# computes them in an unchecked
    context. */
module Int32 {
  const MinValue: int := -0x8000_0000
  const MaxValue: int := 0x7FFF_FFFF
  const LongMaxValue: int := 0x7FFF_FFFF_FFFF_FFFF

  predicate InRange(x: int) { MinValue <= x <= MaxValue }

  /** The 32-bit value an unchecked `int` operation leaves for the exact result `x`. */
  function Wrap(x: int): (r: int)
    ensures InRange(r)
    ensures (r - x) % 0x1_0000_0000 == 0
    ensures InRange(x) ==> r == x
  {
    (x - MinValue) % 0x1_0000_0000 + MinValue
  }

  /** C#'s integer division, which truncates toward zero. */
  function TruncDiv(a: int, b: int): (q: int)
    requires b != 0
    ensures a >= 0 && b > 0 ==> q == a / b
    ensures a < 0 && b > 0 ==> q == -((-a) / b)
  {
    if (a >= 0) == (b > 0) then
      (if a >= 0 then a / b else (-a) / (-b))
    else
      -((if a >= 0 then a else -a) / (if b > 0 then b else -b))
  }
}
