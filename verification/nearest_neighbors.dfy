/** The brute-force k-nearest-neighbour search shared by the balancers and
    the selectors. The search lists (index, distance) for every row but the
    excluded one, in index order, sorts that list stably by distance and keeps
    the first k indices. The specification below is stated over the list of
    distances from the query to every row, so that it serves any distance
    function. */
module NearestNeighbors {
  import opened Seqs

  datatype Candidate = Candidate(index: nat, distance: real)

  function Distance(c: Candidate): real { c.distance }

  function Position(c: Candidate): int { c.index }

  /** Squared Euclidean distance over the coordinates of a. The source takes
      the square root; that is monotone, so every comparison of distances
      comes out the same. */
  function SquaredDistance(a: seq<real>, b: seq<real>): real
    requires |a| <= |b|
    decreases |a|
  {
    if a == [] then 0.0
    else
      var k := |a| - 1;
      SquaredDistance(a[..k], b) + (a[k] - b[k]) * (a[k] - b[k])
  }

  lemma {:induction false} SquaredDistanceNonNegative(a: seq<real>, b: seq<real>)
    requires |a| <= |b|
    ensures 0.0 <= SquaredDistance(a, b)
    decreases |a|
  {
    if a != [] {
      var k := |a| - 1;
      SquaredDistanceNonNegative(a[..k], b);
      assert 0.0 <= (a[k] - b[k]) * (a[k] - b[k]);
    }
  }

  lemma {:induction false} SquaredDistanceToSelf(a: seq<real>, b: seq<real>)
    requires |a| <= |b| && a == b[..|a|]
    ensures SquaredDistance(a, b) == 0.0
    decreases |a|
  {
    if a != [] {
      var k := |a| - 1;
      assert a[..k] == b[..k];
      SquaredDistanceToSelf(a[..k], b);
    }
  }

  lemma {:induction false} SquaredDistanceSymmetric(a: seq<real>, b: seq<real>)
    requires |a| == |b|
    ensures SquaredDistance(a, b) == SquaredDistance(b, a)
    decreases |a|
  {
    if a != [] {
      var k := |a| - 1;
      SquaredDistanceSymmetric(a[..k], b[..k]);
      PrefixDistance(a[..k], b, k);
      PrefixDistance(b[..k], a, k);
    }
  }

  /** Only the first |a| coordinates of b matter. */
  lemma {:induction false} PrefixDistance(a: seq<real>, b: seq<real>, n: nat)
    requires |a| <= n <= |b|
    ensures SquaredDistance(a, b) == SquaredDistance(a, b[..n])
    decreases |a|
  {
    if a != [] {
      PrefixDistance(a[..|a| - 1], b, n);
    }
  }

  /** The distance from the query to every row. */
  function DistancesTo(features: seq<seq<real>>, target: seq<real>): (d: seq<real>)
    requires forall q :: 0 <= q < |features| ==> |features[q]| <= |target|
    ensures |d| == |features|
    ensures forall q :: 0 <= q < |features| ==> d[q] == SquaredDistance(features[q], target)
  {
    seq(|features|, q requires 0 <= q < |features| => SquaredDistance(features[q], target))
  }

  /** The list the search builds over rows 0 .. n-1. */
  function CandidatesUpTo(distances: seq<real>, excludeIndex: int, n: nat): seq<Candidate>
    requires n <= |distances|
  {
    if n == 0 then []
    else
      CandidatesUpTo(distances, excludeIndex, n - 1)
      + (if n - 1 == excludeIndex then [] else [Candidate(n - 1, distances[n - 1])])
  }

  function Candidates(distances: seq<real>, excludeIndex: int): seq<Candidate>
  {
    CandidatesUpTo(distances, excludeIndex, |distances|)
  }

  /** The number of rows the search considers. */
  function Considered(n: nat, excludeIndex: int): nat
  {
    if 0 <= excludeIndex < n then n - 1 else n
  }

  /** The indices the search returns: the first k entries of the list stably
      sorted by distance. `Take` of a negative count is empty. */
  function KNearest(distances: seq<real>, excludeIndex: int, k: int): seq<nat>
  {
    var sorted := StableSort(Candidates(distances, excludeIndex), Distance);
    var m := Min(Max(k, 0), |sorted|);
    seq(m, i requires 0 <= i < m => sorted[i].index)
  }

  lemma {:induction false} CandidatesShape(distances: seq<real>, excludeIndex: int, n: nat)
    requires n <= |distances|
    ensures var c := CandidatesUpTo(distances, excludeIndex, n);
      && |c| == Considered(n, excludeIndex)
      && StrictlyRanked(c, Position)
      && (forall p :: 0 <= p < |c| ==> c[p].index < n && c[p].index != excludeIndex && c[p].distance == distances[c[p].index])
      && (forall q :: 0 <= q < n && q != excludeIndex ==> Candidate(q, distances[q]) in c)
    decreases n
  {
    if n > 0 {
      CandidatesShape(distances, excludeIndex, n - 1);
    }
  }

  /** The sorted list: ordered by distance and then by index, holding
      exactly the considered rows with their distances. */
  lemma SortedCandidates(distances: seq<real>, excludeIndex: int)
    ensures var sorted := StableSort(Candidates(distances, excludeIndex), Distance);
      && |sorted| == Considered(|distances|, excludeIndex)
      && LexSortedBy(sorted, Distance, Position)
      && (forall p :: 0 <= p < |sorted| ==>
            sorted[p].index < |distances| && sorted[p].index != excludeIndex
            && sorted[p].distance == distances[sorted[p].index])
      && (forall q :: 0 <= q < |distances| && q != excludeIndex ==> Candidate(q, distances[q]) in sorted)
  {
    var c := Candidates(distances, excludeIndex);
    CandidatesShape(distances, excludeIndex, |distances|);
    var sorted := StableSort(c, Distance);
    StableSortLexSorted(c, Distance, Position);
    StableSortPermutes(c, Distance);
    forall p | 0 <= p < |sorted|
      ensures sorted[p].index < |distances| && sorted[p].index != excludeIndex
      ensures sorted[p].distance == distances[sorted[p].index]
    {
      assert sorted[p] in multiset(c);
    }
    forall q | 0 <= q < |distances| && q != excludeIndex
      ensures Candidate(q, distances[q]) in sorted
    {
      assert Candidate(q, distances[q]) in multiset(c);
    }
  }

  /** The search returns min(k, considered) distinct considered rows. */
  lemma KNearestRows(distances: seq<real>, excludeIndex: int, k: int)
    ensures var r := KNearest(distances, excludeIndex, k);
      && |r| == Min(Max(k, 0), Considered(|distances|, excludeIndex))
      && (forall i :: 0 <= i < |r| ==> r[i] < |distances| && r[i] != excludeIndex)
      && (forall i, j :: 0 <= i < j < |r| ==> r[i] != r[j])
  {
    SortedCandidates(distances, excludeIndex);
    var sorted := StableSort(Candidates(distances, excludeIndex), Distance);
    var r := KNearest(distances, excludeIndex, k);
    forall i, j | 0 <= i < j < |r| ensures r[i] != r[j] {
      assert r[i] == sorted[i].index && r[j] == sorted[j].index;
    }
  }

  /** The rows come by non-decreasing distance, equal distances by index. */
  lemma KNearestOrdered(distances: seq<real>, excludeIndex: int, k: int)
    ensures var r := KNearest(distances, excludeIndex, k);
      && (forall i :: 0 <= i < |r| ==> r[i] < |distances|)
      && (forall i, j :: 0 <= i < j < |r| ==>
            distances[r[i]] < distances[r[j]] || (distances[r[i]] == distances[r[j]] && r[i] < r[j]))
  {
    SortedCandidates(distances, excludeIndex);
    var sorted := StableSort(Candidates(distances, excludeIndex), Distance);
    var r := KNearest(distances, excludeIndex, k);
    forall i, j | 0 <= i < j < |r|
      ensures distances[r[i]] < distances[r[j]] || (distances[r[i]] == distances[r[j]] && r[i] < r[j])
    {
      assert r[i] == sorted[i].index && r[j] == sorted[j].index;
    }
  }

  /** A considered row that is left out is only left out because k rows were
      found, and it is no closer than the last of them (nor, at equal
      distance, of lower index). */
  lemma KNearestOmitted(distances: seq<real>, excludeIndex: int, k: int, q: nat)
    requires q < |distances| && q != excludeIndex
    requires q !in KNearest(distances, excludeIndex, k)
    ensures var r := KNearest(distances, excludeIndex, k);
      && |r| == Max(k, 0)
      && (|r| > 0 ==>
            r[|r| - 1] < |distances| &&
            (distances[r[|r| - 1]] < distances[q] || (distances[r[|r| - 1]] == distances[q] && r[|r| - 1] < q)))
  {
    SortedCandidates(distances, excludeIndex);
    var sorted := StableSort(Candidates(distances, excludeIndex), Distance);
    var r := KNearest(distances, excludeIndex, k);
    var m := |r|;
    var p :| 0 <= p < |sorted| && sorted[p] == Candidate(q, distances[q]);
    assert forall i :: 0 <= i < m ==> r[i] == sorted[i].index;
    assert m <= p;
    if m > 0 {
      assert r[m - 1] == sorted[m - 1].index;
    }
  }
}
