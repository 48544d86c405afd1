/** Half-open integer ranges, lists of them, and the sets that they denote. */
module Ranges {

  datatype Range = Range(start: int, end: int)

  predicate NonEmpty(r: Range) { r.start < r.end }

  predicate Within(x: int, r: Range) { r.start <= x < r.end }

  function Span(r: Range): set<int> { set x | r.start <= x < r.end && Within(x, r) }

  /** The values of all the ranges of a list. */
  function Denote(rs: seq<Range>): set<int> {
    if rs == [] then {} else Span(rs[0]) + Denote(rs[1..])
  }

  /** Sorted, non-empty, disjoint and non-adjacent. */
  predicate Canonical(rs: seq<Range>) {
    && (forall i :: 0 <= i < |rs| ==> NonEmpty(rs[i]))
    && (forall i, j :: 0 <= i < j < |rs| ==> rs[i].end < rs[j].start)
  }

  lemma {:induction false} DenoteIn(rs: seq<Range>, x: int)
    ensures x in Denote(rs) <==> exists i :: 0 <= i < |rs| && rs[i].start <= x < rs[i].end
  {
    if rs != [] {
      DenoteIn(rs[1..], x);
      if x in Denote(rs[1..]) {
        var i :| 0 <= i < |rs[1..]| && rs[1..][i].start <= x < rs[1..][i].end;
        assert rs[i + 1].start <= x < rs[i + 1].end;
      }
      if i :| 0 <= i < |rs| && rs[i].start <= x < rs[i].end && i > 0 {
        assert rs[1..][i - 1] == rs[i];
      }
    }
  }

  lemma {:induction false} DenoteConcat(a: seq<Range>, b: seq<Range>)
    ensures Denote(a + b) == Denote(a) + Denote(b)
  {
    if a == [] {
      assert a + b == b;
    } else {
      assert (a + b)[1..] == a[1..] + b;
      DenoteConcat(a[1..], b);
    }
  }

  lemma DenoteOne(r: Range)
    ensures Denote([r]) == Span(r)
  {
  }

  lemma DenoteSnoc(a: seq<Range>, r: Range)
    ensures Denote(a + [r]) == Denote(a) + Span(r)
  {
    DenoteConcat(a, [r]);
    DenoteOne(r);
  }

  /** The first range of a canonical list is apart from the values that follow. */
  lemma CanonicalFront(rs: seq<Range>)
    requires Canonical(rs) && rs != []
    ensures Canonical(rs[1..])
    ensures forall x :: x in Denote(rs[1..]) ==> x > rs[0].end
  {
    forall x | x in Denote(rs[1..]) ensures x > rs[0].end {
      DenoteIn(rs[1..], x);
      var i :| 0 <= i < |rs[1..]| && rs[1..][i].start <= x < rs[1..][i].end;
      assert rs[1..][i] == rs[i + 1];
    }
  }

  /** A range that lies beyond a canonical list extends it. */
  lemma CanonicalSnoc(rs: seq<Range>, r: Range)
    requires Canonical(rs) && NonEmpty(r) && (forall x :: x in Denote(rs) ==> x + 1 < r.start)
    ensures Canonical(rs + [r])
  {
    forall i | 0 <= i < |rs| ensures rs[i].end < r.start {
      DenoteIn(rs, rs[i].end - 1);
    }
  }

  /** Two canonical lists of the same set are the same list. */
  lemma {:induction false} CanonicalIsUnique(a: seq<Range>, b: seq<Range>)
    requires Canonical(a) && Canonical(b) && Denote(a) == Denote(b)
    ensures a == b
  {
    assert a != [] ==> a[0].start in Denote(a);
    assert b != [] ==> b[0].start in Denote(b);
    if a != [] && b != [] {
      CanonicalFront(a);
      CanonicalFront(b);
      SameFront(a[0], Denote(a[1..]), b[0], Denote(b[1..]));
      CanonicalIsUnique(a[1..], b[1..]);
    }
  }

  lemma SameFront(r: Range, A: set<int>, s: Range, B: set<int>)
    requires NonEmpty(r) && NonEmpty(s) && Span(r) + A == Span(s) + B
    requires (forall x :: x in A ==> x > r.end) && (forall x :: x in B ==> x > s.end)
    ensures r == s && A == B
  {
    assert r.start in Span(r) + A && s.start in Span(s) + B;
    assert r.end !in Span(r) + A && s.end !in Span(s) + B;
    assert r.end - 1 in Span(r) + A && s.end - 1 in Span(s) + B;
    assert r.start == s.start;
    assert r.end < s.end ==> r.end in Span(s) + B;
    assert s.end < r.end ==> s.end in Span(r) + A;
    forall x ensures x in A <==> x in B {
      assert x in Span(r) + A <==> x in Span(s) + B;
    }
  }

  // ----- counting values -----

  function TotalLen(rs: seq<Range>): int {
    if rs == [] then 0 else (rs[0].end - rs[0].start) + TotalLen(rs[1..])
  }

  lemma {:induction false} SpanSize(r: Range)
    requires r.start <= r.end
    ensures |Span(r)| == r.end - r.start
    decreases r.end - r.start
  {
    if r.start < r.end {
      var s := Range(r.start, r.end - 1);
      SpanSize(s);
      assert Span(r) == Span(s) + {r.end - 1};
    } else {
      assert Span(r) == {};
    }
  }

  /** The lengths of the ranges add up to the number of values. */
  lemma {:induction false} LengthsCountValues(rs: seq<Range>)
    requires Canonical(rs)
    ensures TotalLen(rs) == |Denote(rs)|
  {
    if rs != [] {
      CanonicalFront(rs);
      SpanSize(rs[0]);
      LengthsCountValues(rs[1..]);
      DisjointUnionSize(Span(rs[0]), Denote(rs[1..]));
    }
  }

  lemma DisjointUnionSize(A: set<int>, B: set<int>)
    requires A !! B
    ensures |A + B| == |A| + |B|
  {
  }
}
