/** Greedy set cover over range sets (rangeset/src/ops/cover.rs). */
module RangeCover {
  import opened Basics
  import opened Ranges
  import opened RangeSources
  import opened RangeIterators
  import R = RangeRelations
  import opened RangeSets

  // ----- what is covered -----

  ghost predicate Positions(items: seq<seq<Range>>, ps: seq<nat>) { forall i :: 0 <= i < |ps| ==> ps[i] < |items| }

  function UnionOf(items: seq<seq<Range>>, ps: seq<nat>): set<int>
    requires Positions(items, ps)
  {
    if ps == [] then {} else Denote(items[ps[0]]) + UnionOf(items, ps[1..])
  }

  lemma {:induction false} UnionSnoc(items: seq<seq<Range>>, ps: seq<nat>, p: nat)
    requires Positions(items, ps) && p < |items|
    ensures UnionOf(items, ps + [p]) == UnionOf(items, ps) + Denote(items[p])
  {
    if ps == [] {
      assert [p][1..] == [];
    } else {
      assert (ps + [p])[1..] == ps[1..] + [p];
      UnionSnoc(items, ps[1..], p);
    }
  }

  lemma {:induction false} UnionHolds(items: seq<seq<Range>>, ps: seq<nat>, i: nat)
    requires Positions(items, ps) && i < |ps|
    ensures Denote(items[ps[i]]) <= UnionOf(items, ps)
  {
    if i > 0 { UnionHolds(items, ps[1..], i - 1); }
  }

  /** Positions of items that lie within the query. */
  ghost predicate Candidates(query: set<int>, items: seq<seq<Range>>, ps: seq<nat>) {
    Positions(items, ps) && forall i :: 0 <= i < |ps| ==> Denote(items[ps[i]]) <= query
  }

  /** A family of candidates that covers the query between them. */
  ghost predicate Covers(query: set<int>, items: seq<seq<Range>>, family: seq<nat>) {
    Candidates(query, items, family) && query <= UnionOf(items, family)
  }

  // ----- the greedy bound -----

  function Pow(b: int, e: nat): int { if e == 0 then 1 else b * Pow(b, e - 1) }

  lemma {:induction false} PowPositive(b: int, e: nat)
    requires b >= 0
    ensures Pow(b, e) >= 0
  {
    if e > 0 { PowPositive(b, e - 1); }
  }

  /** If `k` sets cover the query, each pick leaves at most the `(k - 1) / k`-th part. */
  ghost predicate Bounded(query: set<int>, items: seq<seq<Range>>, picked: seq<nat>, k: nat)
    requires Positions(items, picked) && k > 0
  {
    |query - UnionOf(items, picked)| * Pow(k, |picked|) <= |query| * Pow(k - 1, |picked|)
  }

  ghost predicate GreedyBound(query: set<int>, items: seq<seq<Range>>, picked: seq<nat>)
    requires Positions(items, picked)
  {
    forall family :: family != [] && Covers(query, items, family) ==> Bounded(query, items, picked, |family|)
  }

  /** No candidate has more than `c` values in `U`. */
  ghost predicate AtMost(query: set<int>, items: seq<seq<Range>>, U: set<int>, c: nat) {
    forall q :: 0 <= q < |items| && Denote(items[q]) <= query ==> |Denote(items[q]) * U| <= c
  }

  lemma SubsetSize(A: set<int>, B: set<int>)
    requires A <= B
    ensures |A| <= |B|
  {
    assert B == A + (B - A);
    DisjointUnionSize(A, B - A);
  }

  lemma UnionCut(A: set<int>, B: set<int>, U: set<int>)
    ensures |(A + B) * U| <= |A * U| + |B * U|
  {
    assert (A + B) * U == A * U + (B * U - A * U);
    DisjointUnionSize(A * U, B * U - A * U);
    SubsetSize(B * U - A * U, B * U);
  }

  lemma OneMore(n: nat, c: nat)
    ensures (n + 1) * c == n * c + c
  {
  }

  /** What `k` sets cover has at most `k` times as many values as the best of them. */
  lemma {:induction false} FamilySize(query: set<int>, items: seq<seq<Range>>, family: seq<nat>, U: set<int>, c: nat)
    requires Candidates(query, items, family) && AtMost(query, items, U, c)
    ensures |UnionOf(items, family) * U| <= |family| * c
  {
    hide Denote;
    if family == [] {
      assert UnionOf(items, family) * U == {};
    } else {
      assert |Denote(items[family[0]]) * U| <= c;
      FamilySize(query, items, family[1..], U, c);
      UnionCut(Denote(items[family[0]]), UnionOf(items, family[1..]), U);
      OneMore(|family| - 1, c);
    }
  }

  lemma Times(x: int, y: int, a: nat)
    requires x <= y
    ensures x * a <= y * a
  {
  }

  lemma Regroup(x: int, y: int, z: int)
    ensures x * (y * z) == (y * x) * z && (y * x) * z == y * (x * z)
  {
  }

  lemma Shrinks(k: nat, u: nat, v: nat, q: nat, a: nat, b: nat)
    requires k > 0 && k * v <= (k - 1) * u && u * a <= q * b
    ensures v * (k * a) <= q * ((k - 1) * b)
  {
    Regroup(v, k, a);
    Times(k * v, (k - 1) * u, a);
    Regroup(u, k - 1, a);
    Times(u * a, q * b, k - 1);
    Regroup(q, k - 1, b);
  }

  /** Taking `P` out of `U`, which is at most `k` times as large. */
  lemma PickSize(U: set<int>, P: set<int>, V: set<int>, k: nat)
    requires U == P + V && P !! V && |U| <= k * |P| && k > 0
    ensures k * |V| <= (k - 1) * |U|
  {
  }

  lemma BestPickFor(query: set<int>, items: seq<seq<Range>>, picked: seq<nat>, p: nat, family: seq<nat>)
    requires Positions(items, picked) && p < |items| && family != [] && Covers(query, items, family)
    requires var U := query - UnionOf(items, picked); AtMost(query, items, U, |Denote(items[p]) * U|)
    requires Bounded(query, items, picked, |family|)
    ensures Bounded(query, items, picked + [p], |family|)
  {
    hide Denote, AtMost, UnionOf, Pow, Bounded, Covers;
    var U := query - UnionOf(items, picked);
    var P := Denote(items[p]) * U;
    UnionSnoc(items, picked, p);
    FamilyCovers(query, items, family, U, |P|);
    PickLeaves(query, UnionOf(items, picked), Denote(items[p]), |family|);
    BoundedStep(query, items, picked, p, |family|);
  }

  lemma FamilyCovers(query: set<int>, items: seq<seq<Range>>, family: seq<nat>, U: set<int>, c: nat)
    requires Covers(query, items, family) && AtMost(query, items, U, c) && U <= query
    ensures |U| <= |family| * c
  {
    hide Denote, AtMost, UnionOf;
    FamilySize(query, items, family, U, c);
    assert UnionOf(items, family) * U == U;
  }

  lemma PickLeaves(query: set<int>, covered: set<int>, item: set<int>, k: nat)
    requires var U := query - covered; |U| <= k * |item * U| && k > 0
    ensures k * |query - (covered + item)| <= (k - 1) * |query - covered|
  {
    var U, P, V := query - covered, item * (query - covered), query - (covered + item);
    assert U == P + V && P !! V;
    PickSize(U, P, V, k);
  }

  lemma BoundedStep(query: set<int>, items: seq<seq<Range>>, picked: seq<nat>, p: nat, k: nat)
    requires Positions(items, picked) && p < |items| && k > 0 && Bounded(query, items, picked, k)
    requires k * |query - UnionOf(items, picked + [p])| <= (k - 1) * |query - UnionOf(items, picked)|
    ensures Bounded(query, items, picked + [p], k)
  {
    hide Denote, UnionOf, Pow;
    ShrinksBounded(k, |query - UnionOf(items, picked)|, |query - UnionOf(items, picked + [p])|, |query|, |picked|);
  }

  lemma ShrinksBounded(k: nat, u: nat, v: nat, q: nat, n: nat)
    requires k > 0 && k * v <= (k - 1) * u && u * Pow(k, n) <= q * Pow(k - 1, n)
    ensures v * Pow(k, n + 1) <= q * Pow(k - 1, n + 1)
  {
    PowPositive(k, n);
    PowPositive(k - 1, n);
    Shrinks(k, u, v, q, Pow(k, n), Pow(k - 1, n));
  }

  lemma BestPick(query: set<int>, items: seq<seq<Range>>, picked: seq<nat>, p: nat)
    requires Positions(items, picked) && p < |items| && GreedyBound(query, items, picked)
    requires var U := query - UnionOf(items, picked); AtMost(query, items, U, |Denote(items[p]) * U|)
    ensures GreedyBound(query, items, picked + [p])
  {
    hide Bounded, Covers, AtMost, Denote, UnionOf;
    forall family | family != [] && Covers(query, items, family)
      ensures Bounded(query, items, picked + [p], |family|)
    {
      BestPickFor(query, items, picked, p, family);
    }
  }

  // ----- the algorithm -----

  datatype Candidate = Candidate(i: nat, pos: nat, cover: int)

  /** The items that may be picked are in `others` or already picked. */
  ghost predicate Divided(query: set<int>, items: seq<seq<Range>>, others: seq<nat>, picked: seq<nat>) {
    && Candidates(query, items, others) && Candidates(query, items, picked)
    && (forall q :: 0 <= q < |items| && Denote(items[q]) <= query ==> q in others || q in picked)
    && (forall i, j :: 0 <= i < j < |others| ==> others[i] != others[j])
    && (forall i, j :: 0 <= i < j < |picked| ==> picked[i] != picked[j])
    && (forall i, j :: 0 <= i < |others| && 0 <= j < |picked| ==> others[i] != picked[j])
  }

  /** The candidate set with the most values still uncovered, unless none has any. */
  method MostCoverage(items: seq<seq<Range>>, others: seq<nat>, uncovered: seq<Range>) returns (best: Option<Candidate>)
    requires Positions(items, others) && Canonical(uncovered) && forall i :: 0 <= i < |items| ==> Canonical(items[i])
    ensures best.Some? ==>
              && best.value.i < |others| && others[best.value.i] == best.value.pos
              && best.value.cover == |Denote(items[best.value.pos]) * Denote(uncovered)| > 0
    ensures forall j :: 0 <= j < |others| ==>
              |Denote(items[others[j]]) * Denote(uncovered)| <= if best.Some? then best.value.cover else 0
  {
    hide Denote, Canonical;
    best := None;
    for i := 0 to |others|
      invariant best.Some? ==>
                  && best.value.i < |others| && others[best.value.i] == best.value.pos
                  && best.value.cover == |Denote(items[best.value.pos]) * Denote(uncovered)| > 0
      invariant forall j :: 0 <= j < i ==>
                  |Denote(items[others[j]]) * Denote(uncovered)| <= if best.Some? then best.value.cover else 0
    {
      var common := R.Intersection(items[others[i]], uncovered, true, true);
      LengthsCountValues(common);
      var cover := TotalLen(common);
      if cover > (if best.Some? then best.value.cover else 0) {
        best := Some(Candidate(i, others[i], cover));
      }
    }
  }

  method OnlySubsets(query: seq<Range>, items: seq<seq<Range>>) returns (others: seq<nat>)
    requires Canonical(query) && forall i :: 0 <= i < |items| ==> Canonical(items[i])
    ensures Divided(Denote(query), items, others, [])
  {
    others := [];
    for pos := 0 to |items|
      invariant Candidates(Denote(query), items, others)
      invariant forall q :: 0 <= q < pos && Denote(items[q]) <= Denote(query) ==> q in others
      invariant forall i :: 0 <= i < |others| ==> others[i] < pos
      invariant forall i, j :: 0 <= i < j < |others| ==> others[i] != others[j]
    {
      var inside := IsSubset(items[pos], query, true);
      if inside { others := others + [pos]; }
    }
  }

  /** The last element takes the place of the removed one. */
  function SwapRemove(s: seq<nat>, i: nat): seq<nat>
    requires i < |s|
  {
    s[i := s[|s| - 1]][..|s| - 1]
  }

  lemma SwapRemoveKeeps(query: set<int>, items: seq<seq<Range>>, others: seq<nat>, picked: seq<nat>, i: nat)
    requires Divided(query, items, others, picked) && i < |others|
    ensures Divided(query, items, SwapRemove(others, i), picked + [others[i]])
  {
    hide Denote;
    var left, more := SwapRemove(others, i), picked + [others[i]];
    SwapRemoveAt(others, i);
    forall q | 0 <= q < |items| && Denote(items[q]) <= query ensures q in left || q in more {
      if q in others { StillThere(others, picked, i, q); } else { assert picked <= more; }
    }
  }

  lemma SwapRemoveAt(others: seq<nat>, i: nat)
    requires i < |others|
    ensures var left := SwapRemove(others, i);
            |left| == |others| - 1 && forall j :: 0 <= j < |left| ==> left[j] == if j == i then others[|others| - 1] else others[j]
  {
  }

  lemma StillThere(others: seq<nat>, picked: seq<nat>, i: nat, q: nat)
    requires i < |others| && q in others
    ensures q in SwapRemove(others, i) || q in picked + [others[i]]
  {
    var left := SwapRemove(others, i);
    SwapRemoveAt(others, i);
    var j :| 0 <= j < |others| && others[j] == q;
    assert j == i ==> (picked + [others[i]])[|picked|] == q;
    assert j != i && j < |others| - 1 ==> left[j] == q;
    assert j != i && j == |others| - 1 ==> left[i] == q;
  }

  lemma PickedCoverNothing(query: set<int>, items: seq<seq<Range>>, others: seq<nat>, picked: seq<nat>, c: nat)
    requires Divided(query, items, others, picked)
    requires var U := query - UnionOf(items, picked); forall j :: 0 <= j < |others| ==> |Denote(items[others[j]]) * U| <= c
    ensures AtMost(query, items, query - UnionOf(items, picked), c)
  {
    var U := query - UnionOf(items, picked);
    forall q | 0 <= q < |items| && Denote(items[q]) <= query ensures |Denote(items[q]) * U| <= c {
      if q !in others {
        var i :| 0 <= i < |picked| && picked[i] == q;
        UnionHolds(items, picked, i);
        assert Denote(items[q]) * U == {};
      }
    }
  }

  /** All the items that lie within the query. */
  ghost function Subsets(query: set<int>, items: seq<seq<Range>>): set<int> {
    set q, x | 0 <= q < |items| && Denote(items[q]) <= query && x in Denote(items[q]) :: x
  }

  /** When no candidate has an uncovered value, all that can be covered is covered. */
  lemma NothingMoreToCover(query: set<int>, items: seq<seq<Range>>, picked: seq<nat>)
    requires Candidates(query, items, picked) && AtMost(query, items, query - UnionOf(items, picked), 0)
    ensures query - UnionOf(items, picked) == query - Subsets(query, items)
  {
    var U := query - UnionOf(items, picked);
    forall x | x in U ensures x !in Subsets(query, items) {
      forall q | 0 <= q < |items| && Denote(items[q]) <= query ensures x !in Denote(items[q]) {
        assert Denote(items[q]) * U == {};
        assert x !in Denote(items[q]) * U;
      }
    }
    UnionWithin(query, items, picked);
  }

  lemma {:induction false} UnionWithin(query: set<int>, items: seq<seq<Range>>, ps: seq<nat>)
    requires Candidates(query, items, ps)
    ensures UnionOf(items, ps) <= Subsets(query, items)
  {
    if ps != [] { UnionWithin(query, items, ps[1..]); }
  }

  /** Picks distinct candidates until they cover all that the candidates can cover,
      and not much slower than the best family of them. */
  method Cover(query: seq<Range>, items: seq<seq<Range>>) returns (covered: seq<nat>, uncovered: seq<Range>)
    requires Canonical(query) && forall i :: 0 <= i < |items| ==> Canonical(items[i])
    ensures Candidates(Denote(query), items, covered)
    ensures forall i, j :: 0 <= i < j < |covered| ==> covered[i] != covered[j]
    ensures Canonical(uncovered) && Denote(uncovered) == Denote(query) - UnionOf(items, covered)
    ensures Denote(uncovered) == Denote(query) - Subsets(Denote(query), items)
    ensures forall t :: 0 <= t <= |covered| ==> GreedyBound(Denote(query), items, covered[..t])
  {
    hide Denote, Canonical, GreedyBound, UnionOf, Divided, AtMost, Subsets, Candidates;
    ghost var Q := Denote(query);
    covered, uncovered := [], query;
    var others := OnlySubsets(query, items);
    StartCover(Q, items);
    var left := new RangeSet.FromCanonical(query);
    while left.ranges != []
      invariant left.Valid() && fresh(left) && Positions(items, covered) && Divided(Q, items, others, covered)
      invariant left.Values() == Q - UnionOf(items, covered)
      invariant forall t :: 0 <= t <= |covered| ==> GreedyBound(Q, items, covered[..t])
      decreases |others|
    {
      DividedMeans(Q, items, others, covered);
      var candidate := MostCoverage(items, others, left.ranges);
      PickedCoverNothing(Q, items, others, covered, if candidate.Some? then candidate.value.cover else 0);
      if candidate.None? {
        NothingMoreToCover(Q, items, covered);
        return covered, left.ranges;
      }
      var p := candidate.value.pos;
      assert covered[..|covered|] == covered;
      BestPick(Q, items, covered, p);
      UnionSnoc(items, covered, p);
      SwapRemoveKeeps(Q, items, others, covered, candidate.value.i);
      var source := new Source(items[p], true);
      left.DifferenceMut(source);
      others := SwapRemove(others, candidate.value.i);
      PrefixesGrow(Q, items, covered, p);
      covered := covered + [p];
    }
    DividedMeans(Q, items, others, covered);
    AllCovered(Q, items, covered, left.ranges);
    uncovered := [];
  }

  lemma StartCover(query: set<int>, items: seq<seq<Range>>)
    ensures GreedyBound(query, items, []) && query - UnionOf(items, []) == query
  {
  }

  lemma DividedMeans(query: set<int>, items: seq<seq<Range>>, others: seq<nat>, picked: seq<nat>)
    requires Divided(query, items, others, picked)
    ensures Candidates(query, items, picked) && Positions(items, others) && Positions(items, picked)
    ensures forall i, j :: 0 <= i < j < |picked| ==> picked[i] != picked[j]
  {
  }

  lemma PrefixesGrow(query: set<int>, items: seq<seq<Range>>, picked: seq<nat>, p: nat)
    requires Positions(items, picked + [p]) && GreedyBound(query, items, picked + [p])
    requires Positions(items, picked) && forall t :: 0 <= t <= |picked| ==> GreedyBound(query, items, picked[..t])
    ensures forall t :: 0 <= t <= |picked + [p]| ==> GreedyBound(query, items, (picked + [p])[..t])
  {
    hide GreedyBound;
    var more := picked + [p];
    forall t | 0 <= t <= |more| ensures GreedyBound(query, items, more[..t]) {
      assert t <= |picked| ==> more[..t] == picked[..t];
      assert t == |more| ==> more[..t] == more;
    }
  }

  /** With nothing left, nothing of the query was out of reach. */
  lemma AllCovered(query: set<int>, items: seq<seq<Range>>, picked: seq<nat>, left: seq<Range>)
    requires Candidates(query, items, picked) && left == [] && Denote(left) == query - UnionOf(items, picked)
    ensures Canonical(left) && Denote(left) == query - Subsets(query, items)
  {
    UnionWithin(query, items, picked);
  }
}
