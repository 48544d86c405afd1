/** The in-place operations of a range set (rangeset/src/set.rs): each leaves the
    canonical list of the set it is asked for, so it leaves the very list that the
    lazy iterator would have given. */
module RangeSets {
  import opened Basics
  import opened Ranges
  import opened RangeSources
  import opened RangeUnion
  import opened RangeIterators
  import R = RangeRelations

  // ----- sorting -----

  predicate Before(r: Range, s: Range) { r.start < s.start || (r.start == s.start && r.end <= s.end) }

  predicate Sorted(rs: seq<Range>) { forall i, j :: 0 <= i < j < |rs| ==> Before(rs[i], rs[j]) }

  predicate AllNonEmpty(rs: seq<Range>) { forall i :: 0 <= i < |rs| ==> NonEmpty(rs[i]) }

  /** Sorting by start, then by end, stands in for the standard library's sort. */
  method Sort(rs: seq<Range>) returns (s: seq<Range>)
    ensures Sorted(s) && multiset(s) == multiset(rs)
  {
    s := [];
    for k := 0 to |rs|
      invariant Sorted(s) && multiset(s) == multiset(rs[..k])
    {
      var i := |s|;
      while i > 0 && !Before(s[i - 1], rs[k])
        invariant 0 <= i <= |s|
        invariant forall j :: i <= j < |s| ==> Before(rs[k], s[j])
      {
        i := i - 1;
      }
      InsertSorted(s, i, rs[k]);
      assert rs[..k + 1] == rs[..k] + [rs[k]];
      s := s[..i] + [rs[k]] + s[i..];
    }
    assert rs[..|rs|] == rs;
  }

  lemma InsertSorted(s: seq<Range>, i: nat, r: Range)
    requires Sorted(s) && i <= |s| && (i > 0 ==> Before(s[i - 1], r)) && (forall j :: i <= j < |s| ==> Before(r, s[j]))
    ensures Sorted(s[..i] + [r] + s[i..]) && multiset(s[..i] + [r] + s[i..]) == multiset(s) + multiset{r}
  {
    assert s[..i] + s[i..] == s;
    forall j | 0 <= j < i ensures Before(s[j], r) {
      if j < i - 1 { assert Before(s[j], s[i - 1]); }
    }
    InsertedSorted(s, i, r);
  }

  lemma InsertedSorted(s: seq<Range>, i: nat, r: Range)
    requires Sorted(s) && i <= |s| && (forall j :: 0 <= j < i ==> Before(s[j], r)) && (forall j :: i <= j < |s| ==> Before(r, s[j]))
    ensures Sorted(s[..i] + [r] + s[i..])
  {
  }

  lemma SameElements(a: seq<Range>, b: seq<Range>)
    requires multiset(a) == multiset(b)
    ensures Denote(a) == Denote(b) && (AllNonEmpty(a) ==> AllNonEmpty(b))
  {
    SomeElements(a, b);
    SomeElements(b, a);
    forall i | 0 <= i < |b| && AllNonEmpty(a) ensures NonEmpty(b[i]) {
      assert b[i] in multiset(a);
    }
  }

  lemma SomeElements(a: seq<Range>, b: seq<Range>)
    requires multiset(a) == multiset(b)
    ensures Denote(a) <= Denote(b)
  {
    forall x | x in Denote(a) ensures x in Denote(b) {
      DenoteIn(a, x);
      var i :| 0 <= i < |a| && a[i].start <= x < a[i].end;
      assert a[i] in multiset(b);
      DenoteIn(b, x);
    }
  }

  // ----- merging -----

  /** The first `i` ranges and `current` are done, those from `j` on are to come. */
  ghost predicate MergedTo(rs: seq<Range>, i: nat, current: Range, j: nat, V: set<int>) {
    && i < j <= |rs| && Canonical(rs[..i]) && NonEmpty(current)
    && (forall k :: 0 <= k < i ==> rs[k].end < current.start)
    && Sorted(rs[j..]) && AllNonEmpty(rs[j..]) && (forall k :: j <= k < |rs| ==> current.start <= rs[k].start)
    && Denote(rs[..i]) + Span(current) + Denote(rs[j..]) == V
  }

  lemma MergeInto(rs: seq<Range>, i: nat, current: Range, j: nat, V: set<int>)
    requires MergedTo(rs, i, current, j, V) && j < |rs| && rs[j].start <= current.end
    ensures MergedTo(rs, i, Range(current.start, Max(current.end, rs[j].end)), j + 1, V)
  {
  }

  lemma MergePast(rs: seq<Range>, i: nat, current: Range, j: nat, V: set<int>)
    requires MergedTo(rs, i, current, j, V) && j < |rs| && rs[j].start > current.end
    ensures MergedTo(rs[i := current], i + 1, rs[j], j + 1, V)
  {
    var q := rs[i := current];
    assert q[..i + 1] == rs[..i] + [current];
    assert q[j + 1..] == rs[j + 1..] == rs[j..][1..];
    DenoteSnoc(rs[..i], current);
    forall k | j + 1 <= k < |q| ensures rs[j].start <= q[k].start { assert Before(rs[j..][0], rs[j..][k - j]); }
  }

  lemma MergeDone(rs: seq<Range>, i: nat, current: Range, V: set<int>)
    requires MergedTo(rs, i, current, |rs|, V)
    ensures Canonical(rs[i := current][..i + 1]) && Denote(rs[i := current][..i + 1]) == V
  {
    assert rs[i := current][..i + 1] == rs[..i] + [current];
    DenoteSnoc(rs[..i], current);
    assert Denote(rs[|rs|..]) == {};
  }

  lemma MergeStart(rs: seq<Range>)
    requires Sorted(rs) && AllNonEmpty(rs) && rs != []
    ensures MergedTo(rs, 0, rs[0], 1, Denote(rs))
  {
  }

  // ----- lists cut in three -----

  lemma CanonicalSlice(rs: seq<Range>, lo: nat, hi: nat)
    requires Canonical(rs) && lo <= hi <= |rs|
    ensures Canonical(rs[lo..hi])
  {
  }

  /** Two canonical lists with a gap between them. */
  lemma CanonicalJoin(a: seq<Range>, b: seq<Range>)
    requires Canonical(a) && Canonical(b) && (a != [] && b != [] ==> a[|a| - 1].end < b[0].start)
    ensures Canonical(a + b)
  {
  }

  function Opt(r: Option<Range>): seq<Range> { if r.Some? then [r.value] else [] }

  /** What is left of the ranges that `cut` touches. */
  function Head(first: Range, cut: Range): Option<Range> {
    if first.start < cut.start then Some(Range(first.start, cut.start)) else None
  }

  function Tail(last: Range, cut: Range): Option<Range> {
    if last.end > cut.end then Some(Range(cut.end, last.end)) else None
  }

  /** `lo..hi` are the ranges of the list that `cut` touches. */
  ghost predicate Window(rs: seq<Range>, cut: Range, lo: nat, hi: nat) {
    && lo <= hi <= |rs| && NonEmpty(cut)
    && (forall i :: 0 <= i < lo ==> rs[i].end <= cut.start)
    && (forall i :: lo <= i < hi ==> rs[i].end > cut.start && rs[i].start < cut.end)
    && (forall i :: hi <= i < |rs| ==> rs[i].start >= cut.end)
  }

  /** The ranges outside the window share no value with `cut`. */
  lemma OutsideWindow(rs: seq<Range>, cut: Range, lo: nat, hi: nat)
    requires Window(rs, cut, lo, hi)
    ensures Denote(rs) == Denote(rs[..lo]) + Denote(rs[lo..hi]) + Denote(rs[hi..])
    ensures Denote(rs[..lo]) !! Span(cut) && Denote(rs[hi..]) !! Span(cut)
  {
    assert rs == rs[..lo] + rs[lo..hi] + rs[hi..];
    DenoteConcat(rs[..lo] + rs[lo..hi], rs[hi..]);
    DenoteConcat(rs[..lo], rs[lo..hi]);
    forall x | x in Denote(rs[..lo]) ensures x !in Span(cut) { DenoteIn(rs[..lo], x); }
    forall x | x in Denote(rs[hi..]) ensures x !in Span(cut) { DenoteIn(rs[hi..], x); }
  }

  /** Cutting a window leaves the front of its first and the back of its last range. */
  lemma InsideWindow(m: seq<Range>, cut: Range)
    requires Canonical(m) && m != [] && NonEmpty(cut)
    requires forall i :: 0 <= i < |m| ==> m[i].end > cut.start && m[i].start < cut.end
    ensures Denote(m) - Span(cut) == Held(Head(m[0], cut)) + Held(Tail(m[|m| - 1], cut))
  {
  }

  function Kept(first: Range, last: Range, cut: Range): seq<Range> { Opt(Head(first, cut)) + Opt(Tail(last, cut)) }

  lemma KeptIsHeld(first: Range, last: Range, cut: Range)
    ensures Denote(Kept(first, last, cut)) == Held(Head(first, cut)) + Held(Tail(last, cut))
  {
    DenoteConcat(Opt(Head(first, cut)), Opt(Tail(last, cut)));
    if Head(first, cut).Some? { DenoteOne(Head(first, cut).value); }
    if Tail(last, cut).Some? { DenoteOne(Tail(last, cut).value); }
  }

  lemma WindowCanonical(rs: seq<Range>, cut: Range, lo: nat, hi: nat)
    requires Canonical(rs) && Window(rs, cut, lo, hi) && lo < hi
    ensures Canonical(rs[..lo] + Kept(rs[lo], rs[hi - 1], cut) + rs[hi..])
  {
  }

  lemma WindowCut(rs: seq<Range>, cut: Range, lo: nat, hi: nat)
    requires Canonical(rs) && Window(rs, cut, lo, hi) && lo < hi
    ensures var after := rs[..lo] + Kept(rs[lo], rs[hi - 1], cut) + rs[hi..];
            Canonical(after) && Denote(after) == Denote(rs) - Span(cut)
  {
    WindowCanonical(rs, cut, lo, hi);
    CanonicalSlice(rs, lo, hi);
    OutsideWindow(rs, cut, lo, hi);
    var m := rs[lo..hi];
    assert m[0] == rs[lo] && m[|m| - 1] == rs[hi - 1];
    InsideWindow(m, cut);
    KeptIsHeld(rs[lo], rs[hi - 1], cut);
    DenoteConcat(rs[..lo] + Kept(rs[lo], rs[hi - 1], cut), rs[hi..]);
    DenoteConcat(rs[..lo], Kept(rs[lo], rs[hi - 1], cut));
    hide Canonical, Kept, Denote, Window;
  }

  lemma WindowUntouched(rs: seq<Range>, cut: Range, lo: nat)
    requires Window(rs, cut, lo, lo)
    ensures Denote(rs) == Denote(rs) - Span(cut)
  {
    OutsideWindow(rs, cut, lo, lo);
    assert Denote(rs[lo..lo]) == {};
  }

  // ----- cutting a list at a value -----

  ghost predicate StartsSplit(rs: seq<Range>, idx: nat, at: int) {
    && idx <= |rs| && (forall i :: 0 <= i < idx ==> rs[i].start < at) && (forall i :: idx <= i < |rs| ==> rs[i].start >= at)
  }

  method StartsBelow(rs: seq<Range>, at: int) returns (idx: nat)
    requires Canonical(rs)
    ensures StartsSplit(rs, idx, at)
  {
    idx := 0;
    var hi := |rs|;
    while idx < hi
      invariant 0 <= idx <= hi <= |rs|
      invariant forall i :: 0 <= i < idx ==> rs[i].start < at
      invariant forall i :: hi <= i < |rs| ==> rs[i].start >= at
    {
      var mid := (idx + hi) / 2;
      if rs[mid].start < at {
        idx := mid + 1;
      } else {
        hi := mid;
      }
    }
  }

  /** Two lists on either side of `at` are the two halves of their union. */
  lemma Halves(below: seq<Range>, above: seq<Range>, V: set<int>, at: int)
    requires Denote(below) + Denote(above) == V
    requires (forall i :: 0 <= i < |below| ==> below[i].end <= at) && (forall i :: 0 <= i < |above| ==> above[i].start >= at)
    ensures Denote(below) == (set x | x in V && x < at) && Denote(above) == (set x | x in V && x >= at)
  {
    forall x | x in Denote(below) ensures x < at { DenoteIn(below, x); }
    forall x | x in Denote(above) ensures x >= at { DenoteIn(above, x); }
  }

  lemma SplitBetween(rs: seq<Range>, idx: nat, at: int)
    requires Canonical(rs) && StartsSplit(rs, idx, at) && (idx > 0 ==> rs[idx - 1].end <= at)
    ensures Canonical(rs[..idx]) && Canonical(rs[idx..])
    ensures Denote(rs[..idx]) == (set x | x in Denote(rs) && x < at) && Denote(rs[idx..]) == (set x | x in Denote(rs) && x >= at)
  {
    var a, b := rs[..idx], rs[idx..];
    assert rs == a + b;
    CanonicalSlice(rs, 0, idx);
    CanonicalSlice(rs, idx, |rs|);
    EndsBelow(rs, idx, at);
    DenoteConcat(a, b);
    hide Canonical, Denote;
    Halves(a, b, Denote(a + b), at);
  }

  lemma EndsBelow(rs: seq<Range>, idx: nat, at: int)
    requires Canonical(rs) && StartsSplit(rs, idx, at) && (idx > 0 ==> rs[idx - 1].end <= at)
    ensures forall i :: 0 <= i < |rs[..idx]| ==> rs[..idx][i].end <= at
    ensures forall i :: 0 <= i < |rs[idx..]| ==> rs[idx..][i].start >= at
  {
    forall i | 0 <= i < idx ensures rs[i].end <= at {
      assert i < idx - 1 ==> rs[i].end < rs[idx - 1].start;
    }
  }

  lemma SplitInside(rs: seq<Range>, idx: nat, at: int)
    requires Canonical(rs) && StartsSplit(rs, idx, at) && idx > 0 && at < rs[idx - 1].end
    ensures var prev := rs[idx - 1];
            var below, above := rs[..idx - 1] + [Range(prev.start, at)], [Range(at, prev.end)] + rs[idx..];
            && Canonical(below) && Canonical(above)
            && Denote(below) == (set x | x in Denote(rs) && x < at) && Denote(above) == (set x | x in Denote(rs) && x >= at)
  {
    hide Canonical, Denote;
    var a, prev, b := rs[..idx - 1], rs[idx - 1], rs[idx..];
    var l, r := Range(prev.start, at), Range(at, prev.end);
    SplitParts(rs, idx, at);
    CanonicalJoin(a, [l]);
    CanonicalJoin([r], b);
    SplitDenotes(a, l, r, b, prev, at);
    Halves(a + [l], [r] + b, Denote(rs), at);
  }

  /** The list around the range that is cut, and how its parts lie. */
  lemma SplitParts(rs: seq<Range>, idx: nat, at: int)
    requires Canonical(rs) && StartsSplit(rs, idx, at) && idx > 0 && at < rs[idx - 1].end
    ensures var a, prev, b := rs[..idx - 1], rs[idx - 1], rs[idx..];
            && rs == a + [prev] + b && Canonical(a) && Canonical(b) && prev.start < at < prev.end
            && Canonical([Range(prev.start, at)]) && Canonical([Range(at, prev.end)])
            && (a != [] ==> a[|a| - 1].end < prev.start) && (b != [] ==> prev.end < b[0].start)
            && (forall i :: 0 <= i < |a| ==> a[i].end <= at) && (forall i :: 0 <= i < |b| ==> b[i].start >= at)
  {
    CanonicalSlice(rs, 0, idx - 1);
    CanonicalSlice(rs, idx, |rs|);
    forall i | 0 <= i < idx - 1 ensures rs[i].end < rs[idx - 1].start {}
  }

  lemma SplitDenotes(a: seq<Range>, l: Range, r: Range, b: seq<Range>, prev: Range, at: int)
    requires l == Range(prev.start, at) && r == Range(at, prev.end) && prev.start <= at <= prev.end
    ensures Denote(a + [l]) + Denote([r] + b) == Denote(a + [prev] + b)
  {
    hide Denote;
    DenoteConcat(a + [prev], b);
    DenoteSnoc(a, prev);
    DenoteSnoc(a, l);
    DenoteConcat([r], b);
    DenoteOne(r);
    assert Span(prev) == Span(l) + Span(r);
  }

  /** The ranges that hold a value. */
  function Filtered(rs: seq<Range>): seq<Range> {
    if rs == [] then [] else (if rs[0].start < rs[0].end then [rs[0]] else []) + Filtered(rs[1..])
  }

  lemma {:induction false} FilteredDenotes(rs: seq<Range>)
    ensures Denote(Filtered(rs)) == Denote(rs) && AllNonEmpty(Filtered(rs))
  {
    if rs != [] {
      FilteredDenotes(rs[1..]);
      DenoteConcat(if rs[0].start < rs[0].end then [rs[0]] else [], Filtered(rs[1..]));
      DenoteOne(rs[0]);
    }
  }

  lemma MergedBounds(rs: seq<Range>, i: nat, current: Range, j: nat, V: set<int>)
    requires MergedTo(rs, i, current, j, V)
    ensures i < j <= |rs|
  {
  }

  /** A range that starts where the last one ends lengthens it. */
  lemma PushJoins(rs: seq<Range>, range: Range)
    requires AllNonEmpty(rs) && rs != [] && NonEmpty(range) && range.start == rs[|rs| - 1].end
    ensures var after := rs[..|rs| - 1] + [Range(rs[|rs| - 1].start, range.end)];
            && AllNonEmpty(after) && Denote(after) == Denote(rs) + Span(range)
            && (Canonical(rs) ==> Canonical(after))
  {
    var front, last := rs[..|rs| - 1], rs[|rs| - 1];
    assert rs == front + [last];
    DenoteSnoc(front, last);
    DenoteSnoc(front, Range(last.start, range.end));
    assert Span(Range(last.start, range.end)) == Span(last) + Span(range);
  }

  lemma PushAppends(rs: seq<Range>, range: Range)
    requires AllNonEmpty(rs) && rs != [] && NonEmpty(range) && range.start != rs[|rs| - 1].end
    ensures AllNonEmpty(rs + [range])
    ensures Canonical(rs) ==> (Canonical(rs + [range]) <==> range.start > rs[|rs| - 1].end)
  {
    var after := rs + [range];
    assert after[|rs| - 1] == rs[|rs| - 1] && after[|rs|] == range;
    if Canonical(rs) && range.start > rs[|rs| - 1].end { CanonicalJoin(rs, [range]); }
  }

  // ----- the set -----

  class RangeSet {
    var ranges: seq<Range>

    predicate Valid() reads this { Canonical(ranges) }

    ghost function Values(): set<int> reads this { Denote(ranges) }

    /** The union of any list of ranges, empty ones included. */
    constructor FromRanges(list: seq<Range>)
      ensures Valid() && Values() == Denote(list)
    {
      ranges := Filtered(list);
      new;
      FilteredDenotes(list);
      SortMerge();
    }

    /** Adopt a list that is already canonical. */
    constructor FromCanonical(list: seq<Range>)
      requires Canonical(list)
      ensures ranges == list
    {
      ranges := list;
    }

    method SortMerge()
      requires AllNonEmpty(ranges)
      modifies this
      ensures Valid() && Values() == old(Values())
    {
      if |ranges| <= 1 { return; }
      var sorted := Sort(ranges);
      SameElements(ranges, sorted);
      ranges := sorted;
      ghost var V := Denote(ranges);
      MergeStart(ranges);
      var i, j := 0, 1;
      var current := ranges[0];
      while j < |ranges|
        invariant j <= |ranges| && MergedTo(ranges, i, current, j, V)
      {
        hide MergedTo;
        MergedBounds(ranges, i, current, j, V);
        var candidate := ranges[j];
        if candidate.start <= current.end {
          MergeInto(ranges, i, current, j, V);
          if candidate.end > current.end { current := Range(current.start, candidate.end); }
        } else {
          MergePast(ranges, i, current, j, V);
          ranges := ranges[i := current];
          i := i + 1;
          current := candidate;
        }
        j := j + 1;
      }
      MergeDone(ranges, i, current, V);
      ranges := ranges[i := current];
      ranges := ranges[..i + 1];
    }

    /** Append a range, joining it to the last one if they touch; `true` means that
        it came out of order, so that the list has to be sorted. */
    method PushRange(range: Range) returns (outOfOrder: bool)
      requires AllNonEmpty(ranges)
      modifies this
      ensures AllNonEmpty(ranges) && Values() == old(Values()) + Span(range)
      ensures old(Valid()) ==> (outOfOrder <==> !Valid())
    {
      if range.start >= range.end {
        assert Span(range) == {};
        return false;
      }
      DenoteSnoc(ranges, range);
      if ranges == [] {
        ranges := [range];
        DenoteOne(range);
        return false;
      }
      hide Canonical, Denote;
      var last := ranges[|ranges| - 1];
      if range.start == last.end {
        PushJoins(ranges, range);
        ranges := ranges[..|ranges| - 1] + [Range(last.start, range.end)];
        return false;
      }
      PushAppends(ranges, range);
      ranges := ranges + [range];
      return range.start < last.end;
    }

    method UnionMut(other: Source)
      requires Valid() && other.Valid() && this !in other.Repr
      modifies this, other.Repr
      ensures Valid() && Values() == old(Values()) + old(other.Shows().vals)
    {
      var needSort := false;
      ghost var v := other.Shows();
      var next := other.Next();
      while next.Some?
        invariant other.Valid() && NextOk(v, next, other.Shows()) && AllNonEmpty(ranges)
        invariant Values() + v.vals == old(Values()) + old(other.Shows().vals)
        invariant !needSort ==> Valid()
        decreases v.left
      {
        hide Denote, Canonical, Span;
        var outOfOrder := PushRange(next.value);
        needSort := outOfOrder || needSort;
        v := other.Shows();
        next := other.Next();
      }
      if needSort { SortMerge(); }
    }

    method RemoveRange(range: Range)
      requires Valid()
      modifies this
      ensures Valid() && Values() == old(Values()) - Span(range)
    {
      if range.start >= range.end {
        assert Span(range) == {};
        return;
      }
      var lo := PartitionPoint(ranges, range.start + 1);
      if lo == |ranges| || ranges[lo].start >= range.end {
        WindowUntouched(ranges, range, lo);
        return;
      }
      var hi := lo;
      while hi < |ranges| && ranges[hi].start < range.end
        invariant lo <= hi <= |ranges|
        invariant forall i :: lo <= i < hi ==> ranges[i].start < range.end
      {
        hi := hi + 1;
      }
      WindowCut(ranges, range, lo, hi);
      ranges := ranges[..lo] + Kept(ranges[lo], ranges[hi - 1], range) + ranges[hi..];
    }

    method DifferenceMut(other: Source)
      requires Valid() && other.Valid() && this !in other.Repr
      modifies this, other.Repr
      ensures Valid() && Values() == old(Values()) - old(other.Shows().vals)
    {
      ghost var v := other.Shows();
      var next := other.Next();
      while next.Some?
        invariant Valid() && other.Valid() && NextOk(v, next, other.Shows())
        invariant Values() - v.vals == old(Values()) - old(other.Shows().vals)
        decreases v.left
      {
        hide Denote, Canonical, Span;
        RemoveRange(next.value);
        v := other.Shows();
        next := other.Next();
      }
    }

    /** Keep the values below `at`; the others go to the result. */
    method SplitOff(at: int) returns (right: seq<Range>)
      requires Valid()
      modifies this
      ensures Valid() && Canonical(right)
      ensures Values() == (set x | x in old(Values()) && x < at)
      ensures Denote(right) == (set x | x in old(Values()) && x >= at)
    {
      if ranges == [] { return []; }
      var idx := StartsBelow(ranges, at);
      if idx == 0 || ranges[idx - 1].end <= at {
        SplitBetween(ranges, idx, at);
      } else {
        SplitInside(ranges, idx, at);
      }
      if idx > 0 {
        var prev := ranges[idx - 1];
        if at < prev.end {
          right := [Range(at, prev.end)] + ranges[idx..];
          ranges := ranges[..idx - 1] + [Range(prev.start, at)];
        } else {
          right := ranges[idx..];
          ranges := ranges[..idx];
        }
      } else {
        assert ranges[0..] == ranges && ranges[..0] == [];
        right := ranges;
        ranges := [];
      }
    }

    method IntersectionMut(other: seq<Range>)
      requires Valid() && Canonical(other)
      modifies this
      ensures Valid() && Values() == old(Values()) * Denote(other)
    {
      ranges := R.Intersection(ranges, other, true, true);
    }

    method SymmetricDifferenceMut(other: seq<Range>)
      requires Valid() && Canonical(other)
      modifies this
      ensures Valid() && Values() == (old(Values()) - Denote(other)) + (Denote(other) - old(Values()))
    {
      ranges := R.SymmetricDifference(ranges, other, true, true);
    }
  }

  // ----- in place and lazily -----

  /** The in-place union leaves the list that the lazy iterator gives. */
  method UnionBothWays(xs: seq<Range>, ys: seq<Range>, sliced: bool) returns (inPlace: seq<Range>, collected: seq<Range>)
    requires Canonical(xs) && Canonical(ys)
    ensures inPlace == collected && Canonical(inPlace) && Denote(inPlace) == Denote(xs) + Denote(ys)
  {
    var set0 := new RangeSet.FromCanonical(xs);
    var source := new Source(ys, sliced);
    set0.UnionMut(source);
    inPlace := set0.ranges;
    collected := R.Union(xs, ys, true, sliced);
    CanonicalIsUnique(inPlace, collected);
  }

  method DifferenceBothWays(xs: seq<Range>, ys: seq<Range>, sliced: bool) returns (inPlace: seq<Range>, collected: seq<Range>)
    requires Canonical(xs) && Canonical(ys)
    ensures inPlace == collected && Canonical(inPlace) && Denote(inPlace) == Denote(xs) - Denote(ys)
  {
    var set0 := new RangeSet.FromCanonical(xs);
    var source := new Source(ys, sliced);
    set0.DifferenceMut(source);
    inPlace := set0.ranges;
    collected := R.Difference(xs, ys, true, sliced);
    CanonicalIsUnique(inPlace, collected);
  }

  /** Splitting loses nothing: the two halves put together are the set again. */
  method SplitAndRejoin(xs: seq<Range>, at: int) returns (below: seq<Range>, above: seq<Range>, whole: seq<Range>)
    requires Canonical(xs)
    ensures Canonical(below) && Canonical(above) && whole == xs
    ensures Denote(below) + Denote(above) == Denote(xs)
    ensures (forall x :: x in Denote(below) ==> x < at) && (forall x :: x in Denote(above) ==> x >= at)
  {
    var set0 := new RangeSet.FromCanonical(xs);
    above := set0.SplitOff(at);
    below := set0.ranges;
    whole := R.Union(below, above, true, true);
    assert Denote(whole) == Denote(xs);
    CanonicalIsUnique(whole, xs);
  }

  /** Whether one set lies within another, with the short cut on the outermost bounds. */
  method IsSubset(xs: seq<Range>, ys: seq<Range>, sliced: bool) returns (r: bool)
    requires Canonical(xs) && Canonical(ys)
    ensures r <==> Denote(xs) <= Denote(ys)
  {
    if xs == [] { return true; }
    OuterBounds(xs);
    if ys == [] { return false; }
    OuterBounds(ys);
    if xs[0].start < ys[0].start || xs[|xs| - 1].end > ys[|ys| - 1].end { return false; }
    var a := new Source(xs, true);
    var b := new Source(ys, sliced);
    r := R.IsSubset(a, b);
  }

  lemma OuterBounds(rs: seq<Range>)
    requires Canonical(rs) && rs != []
    ensures rs[0].start in Denote(rs) && rs[|rs| - 1].end - 1 in Denote(rs)
    ensures forall x :: x in Denote(rs) ==> rs[0].start <= x < rs[|rs| - 1].end
  {
    DenoteIn(rs, rs[0].start);
    DenoteIn(rs, rs[|rs| - 1].end - 1);
    forall x | x in Denote(rs) ensures rs[0].start <= x < rs[|rs| - 1].end { DenoteIn(rs, x); }
  }
}
