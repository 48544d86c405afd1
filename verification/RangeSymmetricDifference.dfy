/** The lazy symmetric difference of two sources (rangeset/src/iter.rs,
    SymmetricDifferenceIter). */
module RangeSymmetricDifference {
  import opened Basics
  import opened Ranges
  import opened RangeSources
  import opened RangeUnion

  /** The values of exactly one of two sets. */
  function Apart(A: set<int>, B: set<int>): set<int> { (A - B) + (B - A) }

  /** Whether the two buffered ranges start together. */
  function Unlike(x: Option<Range>, y: Option<Range>): nat {
    if x.Some? && y.Some? && x.value.start == y.value.start then 0 else 2
  }

  /** What the two sides still give, apart from the chunk that is being built. */
  function Rest(x: Option<Range>, A: View, y: Option<Range>, B: View): View {
    View(Apart(Held(x) + A.vals, Held(y) + B.vals), 4 * (Count(x) + A.left + Count(y) + B.left) + Unlike(x, y))
  }

  /** Both sides lie behind `current`. */
  ghost predicate AllBehind(current: Option<Range>, A: set<int>, B: set<int>) {
    current.Some? ==>
      && NonEmpty(current.value)
      && (forall v :: v in A ==> v >= current.value.end) && (forall v :: v in B ==> v >= current.value.end)
  }

  /** Nothing on either side ends before `current` does, so seeking skips nothing. */
  lemma PulledBehind(current: Range, buffer: Option<Range>, v: View, r: Option<Range>, w: View)
    requires PullOk(buffer, v, current.end, r, w) && forall x :: x in v.vals ==> x >= current.end
    ensures NextOk(v, r, w)
  {
    if buffer.None? && r.Some? {
      forall x | x in v.vals ensures x in Span(r.value) + w.vals {}
      assert v.vals == Span(r.value) + w.vals;
    } else if buffer.None? {
      forall x ensures x !in v.vals {}
    }
  }

  /** The two sides after taking a range off each. */
  lemma BothTaken(current: Option<Range>, a: Option<Range>, A0: View, x: Option<Range>, A: View, b: Option<Range>, B0: View, y: Option<Range>, B: View)
    requires NextOk(Behind(a, A0), x, A) && (a.Some? ==> x == a && A == A0)
    requires NextOk(Behind(b, B0), y, B) && (b.Some? ==> y == b && B == B0)
    ensures Rest(x, A, y, B).vals == Rest(a, A0, b, B0).vals && Rest(x, A, y, B).left <= Rest(a, A0, b, B0).left
    ensures Ahead(x, A.vals) && Ahead(y, B.vals) && (x.None? ==> A.vals == {}) && (y.None? ==> B.vals == {})
    ensures AllBehind(current, Held(a) + A0.vals, Held(b) + B0.vals) ==> AllBehind(current, Held(x) + A.vals, Held(y) + B.vals)
  {
  }

  /** A piece `chunk` of one side, which nothing else reaches, is cut off the front. */
  ghost predicate Cut(v: View, chunk: Range, w: View) {
    && NonEmpty(chunk) && v.vals == Span(chunk) + w.vals && w.left + 2 <= v.left
    && (forall x :: x in w.vals ==> x >= chunk.end)
  }

  /** One side's range lies before the other's, or is alone. */
  lemma CutWhole(x: Range, A: View, y: Option<Range>, B: View)
    requires Ahead(Some(x), A.vals) && Ahead(y, B.vals)
    requires if y.None? then B.vals == {} else x.end <= y.value.start
    ensures Cut(Rest(Some(x), A, y, B), x, Rest(None, A, y, B))
    ensures AllBehind(Some(x), A.vals, Held(y) + B.vals)
  {
  }

  /** One side's range starts first: the piece before the other's start. */
  lemma CutFront(x: Range, A: View, y: Range, B: View)
    requires Ahead(Some(x), A.vals) && Ahead(Some(y), B.vals) && x.start < y.start < x.end
    ensures var chunk, left := Range(x.start, y.start), Some(Range(y.start, x.end));
            && Cut(Rest(Some(x), A, Some(y), B), chunk, Rest(left, A, Some(y), B))
            && Ahead(left, A.vals) && AllBehind(Some(chunk), Held(left) + A.vals, Span(y) + B.vals)
  {
  }

  /** What of `x` lies behind the end of `y`. */
  function Beyond(x: Range, y: Range): Option<Range> {
    if y.end < x.end then Some(Range(y.end, x.end)) else None
  }

  /** Both ranges start together: their common part is in neither. */
  lemma CutCommon(current: Option<Range>, x: Range, A: View, y: Range, B: View)
    requires Ahead(Some(x), A.vals) && Ahead(Some(y), B.vals) && x.start == y.start
    requires AllBehind(current, Span(x) + A.vals, Span(y) + B.vals)
    ensures var mine, other := Beyond(x, y), Beyond(y, x);
            var v, w := Rest(Some(x), A, Some(y), B), Rest(mine, A, other, B);
            && w.vals == v.vals && w.left < v.left && Ahead(mine, A.vals) && Ahead(other, B.vals)
            && AllBehind(current, Held(mine) + A.vals, Held(other) + B.vals)
  {
  }

  lemma RestSwap(x: Option<Range>, A: View, y: Option<Range>, B: View)
    ensures Rest(x, A, y, B) == Rest(y, B, x, A)
  {
  }

  /** What `current` becomes when a chunk arrives. */
  function Extended(current: Option<Range>, chunk: Range): Range {
    if current.Some? && current.value.end == chunk.start then Range(current.value.start, chunk.end) else chunk
  }

  /** The chunk joins `current`, or `current` goes out and the chunk takes its place. */
  lemma Coalesced(current: Option<Range>, v: View, chunk: Range, w: View)
    requires Cut(v, chunk, w) && (current.Some? ==> NonEmpty(current.value) && current.value.end <= chunk.start)
    ensures var after := Behind(Some(Extended(current, chunk)), w);
            if current.None? || current.value.end == chunk.start
            then after.vals == Behind(current, v).vals && after.left < Behind(current, v).left
            else NextOk(Behind(current, v), current, after)
  {
  }

  lemma ExtendedIsBefore(current: Option<Range>, chunk: Range, A: set<int>, B: set<int>)
    requires AllBehind(Some(chunk), A, B) && (current.Some? ==> NonEmpty(current.value) && current.value.end <= chunk.start)
    ensures AllBehind(Some(Extended(current, chunk)), A, B)
  {
  }

  /** A chunk comes from behind `current`. */
  lemma ChunkIsBehind(current: Option<Range>, A: set<int>, B: set<int>, v: View, chunk: Range, w: View)
    requires AllBehind(current, A, B) && v.vals == Apart(A, B) && Cut(v, chunk, w)
    ensures current.Some? ==> NonEmpty(current.value) && current.value.end <= chunk.start
  {
    assert chunk.start in Span(chunk) + w.vals;
  }

  lemma RestIsApart(x: Option<Range>, A: View, y: Option<Range>, B: View)
    ensures Rest(x, A, y, B).vals == Apart(Held(x) + A.vals, Held(y) + B.vals)
  {
  }

  /** Both sides are exhausted: what is left is `current`. */
  lemma LastChunk(current: Option<Range>, A: View, B: View, before: View)
    requires A.vals == {} && B.vals == {} && AllBehind(current, Held(None) + A.vals, Held(None) + B.vals)
    requires Rest(None, A, None, B).vals == before.vals && Rest(None, A, None, B).left <= before.left
    ensures NextOk(Behind(current, before), current, Behind(None, Rest(None, A, None, B)))
    ensures AllBehind(None, Held(None) + A.vals, Held(None) + B.vals)
  {
  }
}
