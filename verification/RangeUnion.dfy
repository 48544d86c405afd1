/** Buffered ranges in front of a source, and the merging of two sides into their union
    (rangeset/src/iter.rs, UnionIter). */
module RangeUnion {
  import opened Basics
  import opened Ranges
  import opened RangeSources

  // ----- a buffered range in front of a source -----

  function Held(r: Option<Range>): set<int> { if r.Some? then Span(r.value) else {} }

  function Count(r: Option<Range>): nat { if r.Some? then 1 else 0 }

  ghost predicate Ahead(r: Option<Range>, vals: set<int>) {
    r.Some? ==> NonEmpty(r.value) && forall x :: x in vals ==> x > r.value.end
  }

  function Behind(r: Option<Range>, v: View): View { View(Held(r) + v.vals, Count(r) + v.left) }

  /** What `take().or_else(seek)` gives: the buffered range, whatever its end. */
  ghost predicate PullOk(buffer: Option<Range>, v: View, n: int, r: Option<Range>, w: View) {
    if buffer.Some? then NextOk(v, r, w) else SeekOk(v, n, r, w)
  }

  lemma DroppedBuffer(buffer: Option<Range>, v: View, n: int, r: Option<Range>, w: View)
    requires Ahead(buffer, v.vals) && SeekOk(v, n, r, w) && (buffer.Some? ==> buffer.value.end < n)
    ensures SeekOk(Behind(buffer, v), n, r, w)
  {
  }

  // ----- union -----

  /** `V` is what is left to yield: `current` so far, and what both sides hold. */
  ghost predicate Merging(V: set<int>, current: Range, A: set<int>, B: set<int>) {
    && NonEmpty(current) && V == Span(current) + A + B
    && (forall x :: x in A ==> x >= current.start) && (forall x :: x in B ==> x >= current.start)
  }

  function Max(a: int, b: int): int { if a < b then b else a }

  function Min(a: int, b: int): int { if a < b then a else b }

  /** One side is pulled: its range is absorbed, or lies beyond `current`. */
  lemma Pulled(V: set<int>, current: Range, buffer: Option<Range>, v: View, B: set<int>, r: Option<Range>, w: View)
    requires Merging(V, current, v.vals, B) && PullOk(buffer, v, current.end, r, w)
    ensures r.None? ==> w.vals == {} && Merging(V, current, {}, B)
    ensures r.Some? && r.value.start <= current.end ==>
              Merging(V, Range(current.start, Max(current.end, r.value.end)), w.vals, B)
    ensures r.Some? && r.value.start > current.end ==>
              Merging(V, current, Span(r.value) + w.vals, B) && forall x :: x in Span(r.value) + w.vals ==> x > current.end
  {
  }

  lemma MergingSwap(V: set<int>, current: Range, A: set<int>, B: set<int>)
    requires Merging(V, current, A, B)
    ensures Merging(V, current, B, A)
  {
  }

  lemma MergingStarts(a: Range, A: set<int>, b: Range, B: set<int>)
    requires NonEmpty(a) && NonEmpty(b) && (forall x :: x in A ==> x > a.end) && (forall x :: x in B ==> x > b.end)
    requires b.start <= a.end && a.start <= b.end
    ensures Merging(Span(a) + A + (Span(b) + B), Range(Min(a.start, b.start), Max(a.end, b.end)), A, B)
  {
  }

  function Both(v: View, w: View): View { View(v.vals + w.vals, v.left + w.left) }

  /** The range that is first on one side is first of all, if the other side starts
      beyond it. */
  lemma FirstOfTwo(v: View, x: Option<Range>, A: View, w: View, y: Option<Range>, B: View)
    requires NextOk(v, x, A) && NextOk(w, y, B)
    requires y.Some? ==> x.Some? && x.value.end < y.value.start
    ensures NextOk(Both(v, w), x, Both(A, Behind(y, B))) && NextOk(Both(w, v), x, Both(Behind(y, B), A))
  {
  }

  /** Work that yields nothing does not change what `next` owes. */
  lemma Onwards(v: View, u: View, r: Option<Range>, w: View)
    requires u.vals == v.vals && u.left <= v.left && NextOk(u, r, w)
    ensures NextOk(v, r, w)
  {
  }

  lemma BehindNothing(v: View)
    ensures Behind(None, v) == v
  {
  }

  lemma NextIsAhead(v: View, r: Option<Range>, w: View)
    requires NextOk(v, r, w)
    ensures Ahead(r, w.vals)
  {
  }

  /** Taking a range off each side and putting it back changes nothing. */
  lemma FirstOfMerged(v: View, x: Option<Range>, A: View, w: View, y: Option<Range>, B: View, r: Option<Range>, z: View)
    requires NextOk(v, x, A) && NextOk(w, y, B) && NextOk(Both(Behind(x, A), Behind(y, B)), r, z)
    ensures NextOk(Both(v, w), r, z)
  {
  }

  /** Nothing more touches the block: it is what comes next. */
  lemma MergedAll(before: View, current: Range, v: View, w: View)
    requires Merging(before.vals, current, v.vals, w.vals) && v.left + w.left < before.left
    requires (forall x :: x in v.vals ==> x > current.end) && (forall x :: x in w.vals ==> x > current.end)
    ensures NextOk(before, Some(current), Both(v, w))
  {
    assert Span(current) + v.vals + w.vals == Span(current) + (v.vals + w.vals);
  }

  /** Once both sides are positioned at `n`, so is their union. */
  lemma SeekThenNext(v: View, w: View, n: int, x: Option<Range>, A: View, y: Option<Range>, B: View, r: Option<Range>, z: View)
    requires SeekOk(v, n, x, A) && SeekOk(w, n, y, B)
    requires NextOk(Both(Behind(x, A), Behind(y, B)), r, z)
    ensures SeekOk(Both(v, w), n, r, z)
  {
    var V := Behind(x, A).vals + Behind(y, B).vals;
    if r.Some? {
      assert r.value.start in Span(r.value) + z.vals;
      if x.Some? && (y.None? || x.value.start <= y.value.start) {
        FirstBlock(V, r.value, z.vals, x.value);
      } else if y.Some? {
        FirstBlock(V, r.value, z.vals, y.value);
      }
    }
  }

  /** The first block of a set reaches at least as far as any range that starts it. */
  lemma FirstBlock(V: set<int>, c: Range, W: set<int>, s: Range)
    requires NonEmpty(c) && V == Span(c) + W && (forall x :: x in W ==> x > c.end)
    requires NonEmpty(s) && Span(s) <= V && (forall x :: x in V ==> x >= s.start)
    ensures c.start == s.start && s.end <= c.end
  {
    assert c.start in V && s.start in Span(s);
    assert c.end !in V;
    assert c.start <= c.end < s.end ==> c.end in Span(s);
  }
}
