/** The lazy intersection of two sources (rangeset/src/iter.rs, IntersectionIter). */
module RangeIntersection {
  import opened Basics
  import opened Ranges
  import opened RangeSources
  import opened RangeUnion

  function Common(v: View, w: View): View { View(v.vals * w.vals, v.left + w.left) }

  /** Our range lies before the other's: what it holds is in no common range. */
  lemma Behindhand(a: Range, A: View, b: Range, B: View, z: Option<Range>, P: View)
    requires Ahead(Some(a), A.vals) && Ahead(Some(b), B.vals) && a.end <= b.start && SeekOk(A, b.start, z, P)
    ensures Ahead(z, P.vals)
    ensures var v, w := Common(Behind(Some(a), A), Behind(Some(b), B)), Common(Behind(z, P), Behind(Some(b), B));
            w.vals == v.vals && w.left < v.left
  {
  }

  /** Two ranges overlap: their common part is next, and the one that ends first
      is used up. */
  lemma Overlapping(a: Range, A: View, b: Range, B: View)
    requires Ahead(Some(a), A.vals) && Ahead(Some(b), B.vals) && b.start < a.end && a.start < b.end
    ensures var c := Some(Range(Max(a.start, b.start), Min(a.end, b.end)));
            var v := Common(Behind(Some(a), A), Behind(Some(b), B));
            && (a.end <= b.end ==> NextOk(v, c, Common(Behind(None, A), Behind(Some(b), B))))
            && (b.end <= a.end ==> NextOk(v, c, Common(Behind(Some(a), A), Behind(None, B))))
  {
  }

  lemma CommonSwap(v: View, w: View)
    ensures Common(v, w) == Common(w, v)
  {
  }

  lemma TakenInCommon(v: View, x: Option<Range>, A: View, w: View, y: Option<Range>, B: View)
    requires NextOk(v, x, A) && NextOk(w, y, B)
    ensures Common(Behind(x, A), Behind(y, B)).vals == Common(v, w).vals
    ensures Common(Behind(x, A), Behind(y, B)).left <= Common(v, w).left
    ensures Ahead(x, A.vals) && Ahead(y, B.vals)
  {
  }

  lemma LeftIsEmpty(v: View, A: View, w: View)
    requires NextOk(v, None, A)
    ensures NextOk(Common(v, w), None, Common(Behind(None, A), w))
  {
  }

  lemma RightIsEmpty(v: View, x: Option<Range>, A: View, w: View, B: View)
    requires NextOk(v, x, A) && NextOk(w, None, B)
    ensures NextOk(Common(v, w), None, Common(Behind(None, A), Behind(None, B)))
  {
  }

  lemma SeekIsAhead(v: View, n: int, r: Option<Range>, w: View)
    requires SeekOk(v, n, r, w)
    ensures Ahead(r, w.vals)
  {
  }

  /** Once both sides are positioned at `n`, every common range ends there or later. */
  lemma SoughtInCommon(v: View, w: View, n: int, x: Option<Range>, A: View, y: Option<Range>, B: View, r: Option<Range>, z: View)
    requires SeekOk(v, n, x, A) && SeekOk(w, n, y, B)
    requires NextOk(Common(Behind(x, A), Behind(y, B)), r, z)
    ensures SeekOk(Common(v, w), n, r, z)
  {
    assert forall u :: u in v.vals && u >= n - 1 ==> u in Behind(x, A).vals;
    assert forall u :: u in w.vals && u >= n - 1 ==> u in Behind(y, B).vals;
    assert Behind(x, A).vals <= v.vals && Behind(y, B).vals <= w.vals;
    var m := Common(Behind(x, A), Behind(y, B));
    assert m.vals <= v.vals * w.vals;
    assert m.left <= v.left + w.left;
    assert forall u :: u in v.vals * w.vals && u >= n - 1 ==> u in m.vals;
    if r.Some? {
      CommonEnds(x, A.vals, y, B.vals, r.value, z.vals, n);
    }
  }

  lemma CommonEnds(x: Option<Range>, A: set<int>, y: Option<Range>, B: set<int>, c: Range, W: set<int>, n: int)
    requires (x.None? ==> A == {}) && (x.Some? ==> x.value.end >= n && forall v :: v in A ==> v > x.value.end)
    requires (y.None? ==> B == {}) && (y.Some? ==> y.value.end >= n && forall v :: v in B ==> v > y.value.end)
    requires NonEmpty(c) && (Held(x) + A) * (Held(y) + B) == Span(c) + W && (forall v :: v in W ==> v > c.end)
    ensures c.end >= n
  {
    assert c.start in Span(c) + W && c.end !in Span(c) + W && c.end - 1 in Span(c);
    assert c.end - 1 in (Held(x) + A) * (Held(y) + B);
  }
}
