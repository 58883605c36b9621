/** Sequence helpers the LINQ operators of the source stand for: `Sum`,
    stable `OrderBy`, `Distinct`, `List.Remove`, `Array.IndexOf`. */
module Seqs {

  function Min(a: int, b: int): int { if a <= b then a else b }
  function Max(a: int, b: int): int { if a >= b then a else b }

  /** 0, 1, ..., n - 1 */
  function Iota(n: nat): (r: seq<nat>)
    ensures |r| == n && forall i :: 0 <= i < n ==> r[i] == i
  {
    seq(n, i requires 0 <= i < n => i)
  }

  /** Left-to-right sum, so that `Sum(s[..i])` is the running total after i steps. */
  function Sum(s: seq<real>): real
    decreases |s|
  {
    if s == [] then 0.0 else Sum(s[..|s| - 1]) + s[|s| - 1]
  }

  function Scaled(s: seq<real>, factor: real): (r: seq<real>)
    ensures |r| == |s| && forall i :: 0 <= i < |s| ==> r[i] == s[i] * factor
  {
    seq(|s|, i requires 0 <= i < |s| => s[i] * factor)
  }

  lemma {:induction false} SumScaled(s: seq<real>, factor: real)
    ensures Sum(Scaled(s, factor)) == Sum(s) * factor
    decreases |s|
  {
    if s != [] {
      var k := |s| - 1;
      var t := Scaled(s, factor);
      SumScaled(s[..k], factor);
      var u := Scaled(s[..k], factor);
      forall i | 0 <= i < k ensures t[..k][i] == u[i] {
        assert s[..k][i] == s[i];
      }
      assert t[..k] == u;
      assert Sum(t) == Sum(t[..k]) + t[k];
    }
  }

  lemma {:induction false} SumConstant(s: seq<real>, c: real)
    requires forall i :: 0 <= i < |s| ==> s[i] == c
    ensures Sum(s) == |s| as real * c
    decreases |s|
  {
    if s != [] {
      SumConstant(s[..|s| - 1], c);
    }
  }

  lemma {:induction false} SumNonNegative(s: seq<real>)
    requires forall i :: 0 <= i < |s| ==> 0.0 <= s[i]
    ensures 0.0 <= Sum(s)
    decreases |s|
  {
    if s != [] {
      SumNonNegative(s[..|s| - 1]);
    }
  }

  /** Running totals never decrease over non-negative entries. */
  lemma {:induction false} PrefixSumMonotone(s: seq<real>, i: nat, j: nat)
    requires i <= j <= |s|
    requires forall k :: 0 <= k < |s| ==> 0.0 <= s[k]
    ensures Sum(s[..i]) <= Sum(s[..j])
    decreases j - i
  {
    if i < j {
      PrefixSumMonotone(s, i, j - 1);
      assert s[..j][..j - 1] == s[..j - 1];
    }
  }

  // ----- stable sorting (LINQ OrderBy keeps equal keys in input order) -----

  /** Inserts x before the first element whose key is at least x's key. */
  function Insert<T>(x: T, t: seq<T>, key: T -> real): (r: seq<T>)
    ensures |r| == |t| + 1
    decreases |t|
  {
    if t == [] then [x]
    else if key(x) <= key(t[0]) then [x] + t
    else
      var rest := Insert(x, t[1..], key);
      assert t == [t[0]] + t[1..];
      [t[0]] + rest
  }

  /** Stable insertion sort by ascending key. */
  function StableSort<T>(s: seq<T>, key: T -> real): (r: seq<T>)
    ensures |r| == |s|
    decreases |s|
  {
    if s == [] then []
    else
      Insert(s[0], StableSort(s[1..], key), key)
  }

  /** Inserting adds x and keeps every element of t. */
  lemma {:induction false} InsertPermutes<T>(x: T, t: seq<T>, key: T -> real)
    ensures multiset(Insert(x, t, key)) == multiset(t) + multiset{x}
    decreases |t|
  {
    if t != [] && key(x) > key(t[0]) {
      InsertPermutes(x, t[1..], key);
      assert t == [t[0]] + t[1..];
    }
  }

  /** The sort is a permutation of its input. */
  lemma {:induction false} StableSortPermutes<T>(s: seq<T>, key: T -> real)
    ensures multiset(StableSort(s, key)) == multiset(s)
    decreases |s|
  {
    if s != [] {
      StableSortPermutes(s[1..], key);
      InsertPermutes(s[0], StableSort(s[1..], key), key);
      assert s == [s[0]] + s[1..];
    }
  }

  ghost predicate SortedBy<T>(s: seq<T>, key: T -> real)
  {
    forall i, j :: 0 <= i < j < |s| ==> key(s[i]) <= key(s[j])
  }

  /** Ordered by key, and by rank among equal keys. */
  ghost predicate LexSortedBy<T>(s: seq<T>, key: T -> real, rank: T -> int)
  {
    forall i, j :: 0 <= i < j < |s| ==>
      key(s[i]) < key(s[j]) || (key(s[i]) == key(s[j]) && rank(s[i]) < rank(s[j]))
  }

  ghost predicate StrictlyRanked<T>(s: seq<T>, rank: T -> int)
  {
    forall i, j :: 0 <= i < j < |s| ==> rank(s[i]) < rank(s[j])
  }

  /** Every element of an insertion satisfies a property that x and every
      element of t satisfy. */
  lemma {:induction false} InsertKeeps<T>(x: T, t: seq<T>, key: T -> real, P: T -> bool)
    requires P(x) && forall i :: 0 <= i < |t| ==> P(t[i])
    ensures forall j :: 0 <= j < |Insert(x, t, key)| ==> P(Insert(x, t, key)[j])
    decreases |t|
  {
    if t != [] && key(x) > key(t[0]) {
      InsertKeeps(x, t[1..], key, P);
      assert Insert(x, t, key) == [t[0]] + Insert(x, t[1..], key);
    }
  }

  /** Every element of the sort satisfies a property every input element
      satisfies. */
  lemma {:induction false} StableSortKeeps<T>(s: seq<T>, key: T -> real, P: T -> bool)
    requires forall i :: 0 <= i < |s| ==> P(s[i])
    ensures forall j :: 0 <= j < |StableSort(s, key)| ==> P(StableSort(s, key)[j])
    decreases |s|
  {
    if s != [] {
      StableSortKeeps(s[1..], key, P);
      InsertKeeps(s[0], StableSort(s[1..], key), key, P);
    }
  }

  lemma {:induction false} InsertSorted<T>(x: T, t: seq<T>, key: T -> real)
    requires SortedBy(t, key)
    ensures SortedBy(Insert(x, t, key), key)
    decreases |t|
  {
    if t != [] && key(x) > key(t[0]) {
      InsertSorted(x, t[1..], key);
      InsertKeeps(x, t[1..], key, y => key(t[0]) <= key(y));
    }
  }

  lemma {:induction false} StableSortSorted<T>(s: seq<T>, key: T -> real)
    ensures SortedBy(StableSort(s, key), key)
    decreases |s|
  {
    if s != [] {
      StableSortSorted(s[1..], key);
      InsertSorted(s[0], StableSort(s[1..], key), key);
    }
  }

  lemma {:induction false} InsertLexSorted<T>(x: T, t: seq<T>, key: T -> real, rank: T -> int)
    requires LexSortedBy(t, key, rank)
    requires forall i :: 0 <= i < |t| ==> rank(x) < rank(t[i])
    ensures LexSortedBy(Insert(x, t, key), key, rank)
    decreases |t|
  {
    if t != [] {
      if key(x) <= key(t[0]) {
        var r := Insert(x, t, key);
        assert r == [x] + t;
        forall j | 1 <= j < |r| ensures key(x) < key(r[j]) || (key(x) == key(r[j]) && rank(x) < rank(r[j])) {
          assert r[j] == t[j - 1];
          assert j - 1 == 0 || key(t[0]) <= key(t[j - 1]);
        }
      } else {
        InsertLexSorted(x, t[1..], key, rank);
        InsertKeeps(x, t[1..], key, y => key(t[0]) < key(y) || (key(t[0]) == key(y) && rank(t[0]) < rank(y)));
      }
    }
  }

  /** A stable sort of a sequence whose ranks increase orders equal keys by rank. */
  lemma {:induction false} StableSortLexSorted<T>(s: seq<T>, key: T -> real, rank: T -> int)
    requires StrictlyRanked(s, rank)
    ensures LexSortedBy(StableSort(s, key), key, rank)
    decreases |s|
  {
    if s != [] {
      StableSortLexSorted(s[1..], key, rank);
      StableSortKeeps(s[1..], key, y => rank(s[0]) < rank(y));
      InsertLexSorted(s[0], StableSort(s[1..], key), key, rank);
    }
  }

  // ----- list operations -----

  /** `Take(n)`: the first n elements, all of them when there are fewer, none
      for a negative n. */
  function Take<T>(s: seq<T>, n: int): (r: seq<T>)
    ensures |r| == Min(Max(n, 0), |s|) && r == s[..|r|]
  {
    s[..Min(Max(n, 0), |s|)]
  }

  lemma TakeAt<T>(s: seq<T>, n: int, x: nat)
    requires x < n && x < |s|
    ensures x < |Take(s, n)| && Take(s, n)[x] == s[x]
  {
  }

  /** A sequence built from its index function grows by the next value. */
  lemma TabulateStep<T>(n: nat, f: int --> T)
    requires forall i :: 0 <= i <= n ==> f.requires(i)
    ensures seq(n + 1, f) == seq(n, f) + [f(n)]
  {
    assert seq(n + 1, f)[..n] == seq(n, f);
  }

  /** Taking n from a sequence that already has n elements ignores what follows. */
  lemma TakeAppend<T>(a: seq<T>, b: seq<T>, n: nat)
    requires n <= |a|
    ensures Take(a + b, n) == Take(a, n)
  {
    assert (a + b)[..n] == a[..n];
  }

  /** Appending the next element of b while fewer than n were taken. */
  lemma TakeStep<T>(a: seq<T>, b: seq<T>, j: nat, n: nat)
    requires j < |b| && |Take(a + b[..j], n)| < n
    ensures Take(a + b[..j], n) + [b[j]] == Take(a + b[..j + 1], n)
  {
    assert b[..j + 1] == b[..j] + [b[j]];
    assert a + b[..j + 1] == (a + b[..j]) + [b[j]];
  }

  /** Stopping early once n elements were taken loses nothing. */
  lemma TakeDone<T>(a: seq<T>, b: seq<T>, j: nat, n: nat)
    requires j <= |b| && (j == |b| || |Take(a + b[..j], n)| >= n)
    ensures Take(a + b[..j], n) == Take(a + b, n)
  {
    if j == |b| {
      assert b[..j] == b;
    } else {
      assert a + b == (a + b[..j]) + b[j..];
      TakeAppend(a + b[..j], b[j..], n);
    }
  }

  /** Block i: f(i, 0), ..., f(i, m - 1). */
  function Block<T>(f: (nat, nat) -> T, i: nat, m: nat): (b: seq<T>)
    ensures |b| == m && forall j :: 0 <= j < m ==> b[j] == f(i, j)
  {
    seq(m, j requires 0 <= j < m => f(i, j))
  }

  /** Blocks 0 .. n-1 one after the other. */
  function Blocks<T>(f: (nat, nat) -> T, n: nat, m: nat): seq<T>
    decreases n
  {
    if n == 0 then [] else Blocks(f, n - 1, m) + Block(f, n - 1, m)
  }

  lemma {:induction false} BlocksLength<T>(f: (nat, nat) -> T, n: nat, m: nat)
    ensures |Blocks(f, n, m)| == n * m
    decreases n
  {
    if n > 0 {
      BlocksLength(f, n - 1, m);
      assert (n - 1) * m + m == n * m;
    }
  }

  lemma {:induction false} BlocksPrefix<T>(f: (nat, nat) -> T, i: nat, n: nat, m: nat)
    requires i <= n
    ensures Blocks(f, i, m) <= Blocks(f, n, m)
    decreases n
  {
    if i < n {
      BlocksPrefix(f, i, n - 1, m);
    }
  }

  /** Element i * m + j is f(i, j). */
  lemma BlocksAt<T>(f: (nat, nat) -> T, n: nat, m: nat, i: nat, j: nat)
    requires i < n && j < m
    ensures i * m + j < |Blocks(f, n, m)| && Blocks(f, n, m)[i * m + j] == f(i, j)
  {
    var a, b := Blocks(f, i, m), Block(f, i, m);
    BlocksLength(f, i, m);
    BlocksPrefix(f, i + 1, n, m);
    assert Blocks(f, i + 1, m) == a + b;
    assert (a + b)[|a| + j] == b[j];
  }

  /** The same, among the first `count` elements. */
  lemma TakeBlocksAt<T>(f: (nat, nat) -> T, n: nat, m: nat, count: int, i: nat, j: nat)
    requires i < n && j < m && i * m + j < count
    ensures i * m + j < |Take(Blocks(f, n, m), count)| && Take(Blocks(f, n, m), count)[i * m + j] == f(i, j)
  {
    BlocksAt(f, n, m, i, j);
    TakeAt(Blocks(f, n, m), count, i * m + j);
  }

  /** Element s of the first `count` elements is element s % m of block
      s / m. */
  lemma TakeBlocksRow<T>(f: (nat, nat) -> T, n: nat, m: nat, count: int, s: nat)
    requires s < |Take(Blocks(f, n, m), count)|
    ensures m > 0 && s / m < n && s % m < m
    ensures Take(Blocks(f, n, m), count)[s] == f(s / m, s % m)
  {
    BlocksLength(f, n, m);
    BlockPosition(s, n, m);
    TakeBlocksAt(f, n, m, count, s / m, s % m);
  }

  /** `(int)Math.Ceiling((double)a / b)` for a positive divisor. */
  function CeilDiv(a: nat, b: nat): (r: nat)
    requires b > 0
    ensures r * b >= a && (r > 0 ==> (r - 1) * b < a)
    ensures a > 0 <==> r > 0
  {
    var q := a / b;
    if q * b == a then q else q + 1
  }


  /** Position s of n blocks of m lies in block s / m, at offset s % m. */
  lemma BlockPosition(s: nat, n: nat, m: nat)
    requires s < n * m
    ensures m > 0 && s / m < n && s % m < m && s == (s / m) * m + s % m
  {
  }

  /** `List.Remove`: drops the first occurrence of x, if any. */
  function RemoveFirst<T(==)>(s: seq<T>, x: T): (r: seq<T>)
    ensures x in s ==> |r| == |s| - 1 && multiset(r) == multiset(s) - multiset{x}
    ensures x !in s ==> r == s
    decreases |s|
  {
    if s == [] then []
    else if s[0] == x then
      assert s == [s[0]] + s[1..];
      s[1..]
    else
      assert s == [s[0]] + s[1..];
      [s[0]] + RemoveFirst(s[1..], x)
  }

  /** `Array.IndexOf`: the first position of x, or -1. */
  function IndexOf<T(==)>(s: seq<T>, x: T): (r: int)
    ensures -1 <= r < |s|
    ensures r == -1 <==> x !in s
    ensures 0 <= r ==> s[r] == x && forall i :: 0 <= i < r ==> s[i] != x
    decreases |s|
  {
    if s == [] then -1
    else if s[0] == x then 0
    else
      var r := IndexOf(s[1..], x);
      if r == -1 then -1 else r + 1
  }

  /** The distinct elements in order of first appearance: the key order of a
      dictionary filled from s. */
  function Distinct<T(==,!new)>(s: seq<T>): (r: seq<T>)
    ensures forall x :: x in r <==> x in s
    ensures forall i, j :: 0 <= i < j < |r| ==> r[i] != r[j]
    decreases |s|
  {
    if s == [] then []
    else
      var d := Distinct(s[..|s| - 1]);
      assert forall x :: x in s <==> x in s[..|s| - 1] || x == s[|s| - 1] by {
        assert s == s[..|s| - 1] + [s[|s| - 1]];
      }
      if s[|s| - 1] in d then d else d + [s[|s| - 1]]
  }

  /** A prefix one longer is the shorter prefix and one more element. */
  lemma TakeSnoc<T>(s: seq<T>, n: nat)
    requires 0 < n <= |s|
    ensures s[..n] == s[..n - 1] + [s[n - 1]]
  {
  }

  /** One more element: appended unless it is already there. */
  lemma DistinctSnoc<T(!new)>(s: seq<T>, x: T)
    ensures Distinct(s + [x]) == if x in Distinct(s) then Distinct(s) else Distinct(s) + [x]
  {
    assert (s + [x])[..|s|] == s;
  }

  /** The set of a sequence's elements. */
  function Elements<T>(s: seq<T>): set<T>
  {
    set x | x in s
  }

  /** A sequence without repetitions has as many elements as its set. */
  lemma {:induction false} DistinctCardinality<T>(r: seq<T>)
    requires forall i, j :: 0 <= i < j < |r| ==> r[i] != r[j]
    ensures |Elements(r)| == |r|
    decreases |r|
  {
    if r != [] {
      var k := |r| - 1;
      var p := r[..k];
      DistinctCardinality(p);
      assert Elements(r) == Elements(p) + {r[k]} by {
        assert r == p + [r[k]];
      }
      assert r[k] !in Elements(p);
    }
  }

  ghost predicate AllDistinct<T>(s: seq<T>)
  {
    forall i, j :: 0 <= i < j < |s| ==> s[i] != s[j]
  }

  /** A sequence without repetitions holds each value at most once. */
  lemma {:induction false} DistinctCount<T>(s: seq<T>, x: T)
    requires AllDistinct(s)
    ensures multiset(s)[x] <= 1
    decreases |s|
  {
    if s != [] {
      assert AllDistinct(s[1..]) by {
        forall i, j | 0 <= i < j < |s| - 1 ensures s[1..][i] != s[1..][j] {
          assert s[1..][i] == s[i + 1] && s[1..][j] == s[j + 1];
        }
      }
      DistinctCount(s[1..], x);
      assert s == [s[0]] + s[1..];
      assert s[0] !in s[1..];
    }
  }

  /** A permutation of a sequence without repetitions has none either. */
  lemma PermutationKeepsDistinct<T>(a: seq<T>, b: seq<T>)
    requires multiset(a) == multiset(b) && AllDistinct(a)
    ensures AllDistinct(b)
  {
    forall i, j | 0 <= i < j < |b| ensures b[i] != b[j] {
      var x := b[j];
      DistinctCount(a, x);
      assert b == b[..j] + b[j..];
      assert multiset(b)[x] == multiset(b[..j])[x] + multiset(b[j..])[x];
      assert b[j..][0] == x;
      assert multiset(b[..j])[x] == 0;
      assert b[..j][i] == b[i];
    }
  }

  /** One part of a split of a sequence without repetitions has none. */
  lemma PartKeepsDistinct<T>(s: seq<T>, a: seq<T>, b: seq<T>)
    requires multiset(a) + multiset(b) == multiset(s) && AllDistinct(s)
    ensures AllDistinct(a)
  {
    assert multiset(s) == multiset(a + b);
    PermutationKeepsDistinct(s, a + b);
    forall i, j | 0 <= i < j < |a| ensures a[i] != a[j] {
      assert (a + b)[i] == a[i] && (a + b)[j] == a[j];
    }
  }

  /** a can be obtained from b by deleting elements. */
  predicate IsSubsequence<T(==)>(a: seq<T>, b: seq<T>)
    decreases |b|
  {
    if a == [] then true
    else if b == [] then false
    else if a[0] == b[0] then IsSubsequence(a[1..], b[1..])
    else IsSubsequence(a, b[1..])
  }
}
