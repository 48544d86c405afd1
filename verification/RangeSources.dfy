/** The contract of a range iterator, and how a list meets it (rangeset/src/iter.rs and
    RangeIter of rangeset/src/set.rs). */
module RangeSources {
  import opened Basics
  import opened Ranges

  /** What an iterator still yields, and a bound on how many ranges that takes. */
  datatype View = View(vals: set<int>, left: nat)

  /** `next` yields the first of the remaining ranges: everything that follows
      lies beyond its end, with a gap. */
  ghost predicate NextOk(v: View, r: Option<Range>, w: View) {
    match r
    case None => v.vals == {} && w.vals == {} && w.left <= v.left
    case Some(c) =>
      && NonEmpty(c) && v.vals == Span(c) + w.vals && w.left < v.left
      && (forall x :: x in w.vals ==> x > c.end)
  }

  /** The next range, after skipping some that end before `n`: those have no value
      of `n - 1` or above. */
  ghost predicate Skipped(v: View, n: int, r: Option<Range>, w: View) {
    match r
    case None => (forall x :: x in v.vals ==> x < n - 1) && w.vals == {} && w.left <= v.left
    case Some(c) =>
      && NonEmpty(c) && Span(c) + w.vals <= v.vals && w.left < v.left
      && (forall x :: x in v.vals && x >= n - 1 ==> x in Span(c) + w.vals)
      && (forall x :: x in w.vals ==> x > c.end)
  }

  /** `seek_end_ge(n)` yields a range that ends at `n` or later. It may lose values
      below `n - 1`, and no others. */
  ghost predicate SeekOk(v: View, n: int, r: Option<Range>, w: View) {
    Skipped(v, n, r, w) && (r.Some? ==> n <= r.value.end)
  }

  lemma SkipNothing(v: View, n: int, r: Option<Range>, w: View)
    requires NextOk(v, r, w)
    ensures Skipped(v, n, r, w)
  {
  }

  /** A range that ends too early is dropped; the search goes on behind it. */
  lemma SkipOne(v: View, n: int, c: Range, u: View, r: Option<Range>, w: View)
    requires Skipped(v, n, Some(c), u) && c.end < n && NextOk(u, r, w)
    ensures Skipped(v, n, r, w)
  {
  }

  /** The number of leading ranges that end before `n`. */
  method PartitionPoint(rs: seq<Range>, n: int) returns (k: nat)
    requires Canonical(rs)
    ensures k <= |rs|
    ensures forall i :: 0 <= i < k ==> rs[i].end < n
    ensures forall i :: k <= i < |rs| ==> n <= rs[i].end
  {
    k := 0;
    var hi := |rs|;
    while k < hi
      invariant 0 <= k <= hi <= |rs|
      invariant forall i :: 0 <= i < k ==> rs[i].end < n
      invariant forall i :: hi <= i < |rs| ==> n <= rs[i].end
    {
      var mid := (k + hi) / 2;
      if rs[mid].end < n {
        k := mid + 1;
      } else {
        hi := mid;
      }
    }
  }

  lemma {:induction false} SkippedAreBelow(rs: seq<Range>, k: nat, n: int)
    requires Canonical(rs) && k <= |rs| && forall i :: 0 <= i < k ==> rs[i].end < n
    ensures Canonical(rs[k..])
    ensures forall x :: x in Denote(rs) && x >= n - 1 ==> x in Denote(rs[k..])
    ensures Denote(rs[k..]) <= Denote(rs) && |rs[k..]| <= |rs|
  {
    if k > 0 {
      CanonicalFront(rs);
      assert forall i :: 0 <= i < k - 1 ==> rs[1..][i] == rs[i + 1];
      SkippedAreBelow(rs[1..], k - 1, n);
      assert rs[1..][k - 1..] == rs[k..];
    } else {
      assert rs[0..] == rs;
    }
  }

  lemma SkipThenNext(was: seq<Range>, k: nat, n: int, v: View, r: Option<Range>, w: View)
    requires Canonical(was) && k <= |was|
    requires (forall i :: 0 <= i < k ==> was[i].end < n) && (forall i :: k <= i < |was| ==> n <= was[i].end)
    requires v == View(Denote(was[k..]), |was| - k) && NextOk(v, r, w)
    requires r.Some? ==> k < |was| && r.value == was[k]
    ensures SeekOk(View(Denote(was), |was|), n, r, w)
  {
    SkippedAreBelow(was, k, n);
  }
}
