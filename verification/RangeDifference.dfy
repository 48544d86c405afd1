/** The lazy difference of two sources (rangeset/src/iter.rs, DifferenceIter). */
module RangeDifference {
  import opened Basics
  import opened Ranges
  import opened RangeSources
  import opened RangeUnion

  /** A buffered range of the other side is spent once it lies before ours. */
  function Weight(mine: Option<Range>, other: Option<Range>): nat {
    if other.None? then 0
    else if mine.Some? && other.value.end <= mine.value.start then 1
    else 2
  }

  function Remaining(mine: Option<Range>, T: View, other: Option<Range>, O: View): View {
    View((Held(mine) + T.vals) - (Held(other) + O.vals), Count(mine) + T.left + 2 * O.left + Weight(mine, other))
  }

  /** Positioning both sides does not change what remains: the other side only loses
      values below ours. */
  lemma Positioned(mine: Option<Range>, T0: View, other: Option<Range>, O0: View, x: Range, T: View, y: Option<Range>, O: View)
    requires NextOk(Behind(mine, T0), Some(x), T) && (mine.Some? ==> mine == Some(x) && T == T0)
    requires PullOk(other, Behind(other, O0), x.start, y, O) && (other.Some? ==> y == other && O == O0)
    ensures Remaining(Some(x), T, y, O).vals == Remaining(mine, T0, other, O0).vals
    ensures Remaining(Some(x), T, y, O).left <= Remaining(mine, T0, other, O0).left
    ensures Ahead(Some(x), T.vals) && Ahead(y, O.vals) && (y.None? ==> O.vals == {})
  {
  }

  /** Nothing of the other side is left, or it starts behind our range. */
  lemma WholeRange(x: Range, T: View, y: Option<Range>, O: View)
    requires Ahead(Some(x), T.vals) && Ahead(y, O.vals)
    requires if y.None? then O.vals == {} else x.end <= y.value.start
    ensures NextOk(Remaining(Some(x), T, y, O), Some(x), Remaining(None, T, y, O))
  {
  }

  /** The other side's range lies before ours: look for its next one. */
  lemma SpentRange(x: Range, T: View, y: Range, O: View, z: Option<Range>, P: View)
    requires Ahead(Some(x), T.vals) && Ahead(Some(y), O.vals) && y.end <= x.start && SeekOk(O, x.start, z, P)
    ensures Remaining(Some(x), T, z, P).vals == Remaining(Some(x), T, Some(y), O).vals
    ensures Remaining(Some(x), T, z, P).left < Remaining(Some(x), T, Some(y), O).left && Ahead(z, P.vals)
  {
  }

  /** What the other side's range leaves of ours. */
  function Remainder(x: Range, y: Range): Option<Range> {
    if y.end < x.end then Some(Range(y.end, x.end)) else None
  }

  lemma CutRange(x: Range, T: View, y: Range, O: View)
    requires Ahead(Some(x), T.vals) && Ahead(Some(y), O.vals) && y.start < x.end && x.start < y.end
    ensures Ahead(Remainder(x, y), T.vals)
    ensures var v, w := Remaining(Some(x), T, Some(y), O), Remaining(Remainder(x, y), T, Some(y), O);
            if x.start < y.start then NextOk(v, Some(Range(x.start, y.start)), w) else v.vals == w.vals && w.left < v.left
  {
  }

  lemma NothingLeft(mine: Option<Range>, T0: View, T: View, other: Option<Range>, O: View)
    requires mine.None? && NextOk(Behind(mine, T0), None, T)
    ensures NextOk(Remaining(mine, T0, other, O), None, Remaining(None, T, other, O))
  {
  }

  lemma NextIsLess(v: View, r: Option<Range>, w: View)
    requires NextOk(v, r, w)
    ensures w.left <= v.left && (r.Some? ==> w.left < v.left)
  {
  }

  /** Dropping our ranges that end before `n` loses only values below `n - 1`. */
  ghost predicate Trimmed(v: View, n: int, u: View) {
    u.vals <= v.vals && u.left <= v.left && forall x :: x in v.vals && x >= n - 1 ==> x in u.vals
  }

  lemma Repositioned(mine: Option<Range>, T: View, n: int, m: Option<Range>, U: View, other: Option<Range>, O: View)
    requires Ahead(mine, T.vals) && SeekOk(Behind(mine, T), n, m, U) && U.left <= T.left
    ensures Ahead(m, U.vals)
    ensures Trimmed(Remaining(mine, T, other, O), n, Remaining(m, U, other, O))
    ensures m.None? ==> SeekOk(Remaining(mine, T, other, O), n, None, Remaining(None, U, other, O))
  {
    assert m.Some? ==> m.value.start in Span(m.value) && m.value.start in Held(mine) + T.vals;
  }

  lemma SkipInto(v: View, n: int, u: View, r: Option<Range>, w: View)
    requires Trimmed(v, n, u) && NextOk(u, r, w)
    ensures Skipped(v, n, r, w)
  {
  }
}
