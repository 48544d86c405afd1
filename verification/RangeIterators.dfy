/** The lazy set operations: merge iterators over two sources, each meeting the contract
    that it asks of its sources, so that they nest to any depth (rangeset/src/iter.rs). */
module RangeIterators {
  import opened Basics
  import opened Ranges
  import opened RangeSources
  import opened RangeUnion
  import opened RangeDifference
  import opened RangeIntersection
  import opened RangeSymmetricDifference

  // ----- sources -----

  /** Anything that can be one side of a merge iterator: a list, or another iterator. */
  datatype Kind =
    | List(sliced: bool)
    | OfUnion(union: UnionIter)
    | OfDifference(difference: DifferenceIter)
    | OfIntersection(intersection: IntersectionIter)
    | OfSymmetricDifference(symmetric: SymmetricDifferenceIter)

  /** A source stands for one type of iterator. A slice is searched by bisection, any
      other list and the symmetric difference by the default, range after range. */
  class Source {
    const kind: Kind
    var rest: seq<Range>
    ghost const Repr: set<object>
    ghost const height: nat

    ghost predicate Valid()
      reads this, Repr
      ensures Valid() ==> this in Repr
      decreases height, 0
    {
      && this in Repr
      && match kind
         case List(_) => Canonical(rest)
         case OfUnion(u) => u in Repr && u.Repr <= Repr && this !in u.Repr && u.height < height && u.Valid()
         case OfDifference(d) => d in Repr && d.Repr <= Repr && this !in d.Repr && d.height < height && d.Valid()
         case OfIntersection(i) => i in Repr && i.Repr <= Repr && this !in i.Repr && i.height < height && i.Valid()
         case OfSymmetricDifference(s) => s in Repr && s.Repr <= Repr && this !in s.Repr && s.height < height && s.Valid()
    }

    ghost function Shows(): View
      requires Valid()
      reads this, Repr
      decreases height, 1
    {
      match kind
      case List(_) => View(Denote(rest), |rest|)
      case OfUnion(u) => u.Shows()
      case OfDifference(d) => d.Shows()
      case OfIntersection(i) => i.Shows()
      case OfSymmetricDifference(s) => s.Shows()
    }

    constructor (ranges: seq<Range>, sliced: bool)
      requires Canonical(ranges)
      ensures Valid() && Repr == {this} && Shows() == View(Denote(ranges), |ranges|) && kind == List(sliced) && rest == ranges
    {
      kind, rest, Repr, height := List(sliced), ranges, {this}, 0;
    }

    constructor Union(u: UnionIter)
      requires u.Valid()
      ensures Valid() && Repr == {this} + u.Repr && Shows() == u.Shows()
    {
      kind, rest, Repr, height := OfUnion(u), [], {this} + u.Repr, u.height + 1;
    }

    constructor Difference(d: DifferenceIter)
      requires d.Valid()
      ensures Valid() && Repr == {this} + d.Repr && Shows() == d.Shows()
    {
      kind, rest, Repr, height := OfDifference(d), [], {this} + d.Repr, d.height + 1;
    }

    constructor Intersection(i: IntersectionIter)
      requires i.Valid()
      ensures Valid() && Repr == {this} + i.Repr && Shows() == i.Shows()
    {
      kind, rest, Repr, height := OfIntersection(i), [], {this} + i.Repr, i.height + 1;
    }

    constructor SymmetricDifference(s: SymmetricDifferenceIter)
      requires s.Valid()
      ensures Valid() && Repr == {this} + s.Repr && Shows() == s.Shows()
    {
      kind, rest, Repr, height := OfSymmetricDifference(s), [], {this} + s.Repr, s.height + 1;
    }

    method Next() returns (r: Option<Range>)
      requires Valid()
      modifies Repr
      ensures Valid() && NextOk(old(Shows()), r, Shows())
      decreases height, 0
    {
      hide NextOk;
      match kind
      case List(_) => r := ListNext();
      case OfUnion(u) => r := u.Next();
      case OfDifference(d) => r := d.Next();
      case OfIntersection(i) => r := i.Next();
      case OfSymmetricDifference(s) => r := s.Next();
    }

    method ListNext() returns (r: Option<Range>)
      requires Valid() && kind.List?
      modifies this
      ensures Valid() && NextOk(old(Shows()), r, Shows())
      ensures r == (if old(rest) == [] then None else Some(old(rest)[0]))
      ensures rest == if old(rest) == [] then [] else old(rest)[1..]
    {
      if rest == [] { return None; }
      CanonicalFront(rest);
      r := Some(rest[0]);
      rest := rest[1..];
    }

    method SeekEndGe(n: int) returns (r: Option<Range>)
      requires Valid()
      modifies Repr
      ensures Valid() && SeekOk(old(Shows()), n, r, Shows())
      decreases height, 2
    {
      hide SeekOk;
      match kind
      case List(sliced) =>
        if sliced {
          r := SliceSeek(n);
        } else {
          r := SeekByNext(n);
        }
      case OfUnion(u) => r := u.SeekEndGe(n);
      case OfDifference(d) => r := d.SeekEndGe(n);
      case OfIntersection(i) => r := i.SeekEndGe(n);
      case OfSymmetricDifference(s) => r := SeekByNext(n);
    }

    method SliceSeek(n: int) returns (r: Option<Range>)
      requires Valid() && kind.List?
      modifies this
      ensures Valid() && SeekOk(old(Shows()), n, r, Shows())
    {
      ghost var was := rest;
      var pos := PartitionPoint(rest, n);
      SkippedAreBelow(rest, pos, n);
      rest := rest[pos..];
      ghost var v := Shows();
      r := ListNext();
      SkipThenNext(was, pos, n, v, r, Shows());
    }

    /** The default of the iterator trait. */
    method SeekByNext(n: int) returns (r: Option<Range>)
      requires Valid()
      modifies Repr
      ensures Valid() && SeekOk(old(Shows()), n, r, Shows())
      decreases height, 1
    {
      hide NextOk, Skipped;
      ghost var v := Shows();
      r := Next();
      SkipNothing(v, n, r, Shows());
      while r.Some? && r.value.end < n
        invariant Valid() && Skipped(v, n, r, Shows())
        decreases Shows().left, r.Some?
      {
        ghost var c, u := r.value, Shows();
        r := Next();
        SkipOne(v, n, c, u, r, Shows());
        NextIsLess(u, r, Shows());
      }
    }
  }

  method TakeOrNext(buffer: Option<Range>, iter: Source) returns (r: Option<Range>)
    requires iter.Valid() && Ahead(buffer, iter.Shows().vals)
    modifies iter.Repr
    ensures iter.Valid() && NextOk(Behind(buffer, old(iter.Shows())), r, iter.Shows())
    ensures buffer.Some? ==> r == buffer && iter.Shows() == old(iter.Shows())
    decreases iter.height, 1
  {
    hide Source.Valid, Source.Shows;
    if buffer.Some? {
      r := buffer;
    } else {
      ghost var v := iter.Shows();
      r := iter.Next();
      BehindNothing(v);
    }
  }

  method TakeOrSeek(buffer: Option<Range>, iter: Source, n: int) returns (r: Option<Range>)
    requires iter.Valid() && Ahead(buffer, iter.Shows().vals)
    modifies iter.Repr
    ensures iter.Valid() && PullOk(buffer, Behind(buffer, old(iter.Shows())), n, r, iter.Shows())
    ensures buffer.Some? ==> r == buffer && iter.Shows() == old(iter.Shows())
    decreases iter.height, 3
  {
    hide Source.Valid, Source.Shows;
    if buffer.Some? {
      r := buffer;
    } else {
      ghost var v := iter.Shows();
      r := iter.SeekEndGe(n);
      BehindNothing(v);
    }
  }

  /** Keep a buffered range that ends at `n` or later, or else look for one. */
  method KeepOrSeek(buffer: Option<Range>, iter: Source, n: int) returns (r: Option<Range>)
    requires iter.Valid() && Ahead(buffer, iter.Shows().vals)
    modifies iter.Repr
    ensures iter.Valid() && SeekOk(Behind(buffer, old(iter.Shows())), n, r, iter.Shows())
    ensures iter.Shows().left <= old(iter.Shows().left)
    decreases iter.height, 3
  {
    hide Source.Valid, Source.Shows;
    if buffer.Some? && buffer.value.end >= n {
      r := buffer;
    } else {
      ghost var v := iter.Shows();
      r := iter.SeekEndGe(n);
      DroppedBuffer(buffer, v, n, r, iter.Shows());
    }
  }

  /** Absorb the next range of one side into `current`, or keep it if it lies beyond. */
  method Absorb(buffer: Option<Range>, iter: Source, current: Range, ghost V: set<int>, ghost B: set<int>)
    returns (kept: Option<Range>, wider: Range, extended: bool)
    requires iter.Valid() && Ahead(buffer, iter.Shows().vals)
    requires Merging(V, current, Behind(buffer, iter.Shows()).vals, B)
    modifies iter.Repr
    ensures iter.Valid() && Ahead(kept, iter.Shows().vals)
    ensures Merging(V, wider, Behind(kept, iter.Shows()).vals, B)
    ensures Behind(kept, iter.Shows()).left <= old(Behind(buffer, iter.Shows()).left)
    ensures extended ==> Behind(kept, iter.Shows()).left < old(Behind(buffer, iter.Shows()).left)
    ensures !extended ==> wider == current && forall x :: x in Behind(kept, iter.Shows()).vals ==> x > current.end
    decreases iter.height, 4
  {
    hide Source.Valid, Source.Shows;
    kept, wider, extended := None, current, false;
    ghost var v := Behind(buffer, iter.Shows());
    var next := TakeOrSeek(buffer, iter, current.end);
    Pulled(V, current, buffer, v, B, next, iter.Shows());
    if next.Some? {
      if next.value.start <= current.end {
        if current.end < next.value.end { wider := Range(current.start, next.value.end); }
        extended := true;
      } else {
        kept := next;
      }
    }
  }

  class UnionIter {
    const aIter: Source
    const bIter: Source
    ghost const Repr: set<object>
    ghost const height: nat
    var a: Option<Range>
    var b: Option<Range>

    /** Two sources with nothing in common, below this iterator. */
    ghost predicate Layout() {
      && this in Repr && aIter in aIter.Repr && bIter in bIter.Repr && aIter.Repr <= Repr && bIter.Repr <= Repr
      && this !in aIter.Repr && this !in bIter.Repr && aIter.Repr !! bIter.Repr && aIter.height < height && bIter.height < height
    }

    ghost predicate Shape()
      reads this, Repr
      decreases height, 0
    {
      Layout() && aIter.Valid() && bIter.Valid()
    }

    ghost predicate Valid()
      reads this, Repr
      ensures Valid() ==> Shape()
      decreases height, 1
    {
      && Shape()
      && Ahead(a, aIter.Shows().vals) && Ahead(b, bIter.Shows().vals)
    }

    ghost function Left(): View
      requires Shape()
      reads this, Repr
      decreases height, 2
    {
      Behind(a, aIter.Shows())
    }

    ghost function Right(): View
      requires Shape()
      reads this, Repr
      decreases height, 2
    {
      Behind(b, bIter.Shows())
    }

    ghost function Shows(): View
      requires Shape()
      reads this, Repr
      decreases height, 3
    {
      Both(Left(), Right())
    }

    constructor (aIter: Source, bIter: Source)
      requires aIter.Valid() && bIter.Valid() && aIter.Repr !! bIter.Repr
      ensures Valid() && this.aIter == aIter && this.bIter == bIter && Repr == {this} + aIter.Repr + bIter.Repr
      ensures Shows() == Both(aIter.Shows(), bIter.Shows())
    {
      this.aIter, this.bIter, this.a, this.b := aIter, bIter, None, None;
      Repr, height := {this} + aIter.Repr + bIter.Repr, Max(aIter.height, bIter.height) + 1;
    }

    method TakeLeft() returns (x: Option<Range>)
      requires Shape() && Ahead(a, aIter.Shows().vals)
      modifies Repr
      ensures b == old(b)
      ensures Shape() && a.None? && NextOk(old(Left()), x, aIter.Shows()) && bIter.Shows() == old(bIter.Shows())
      decreases height, 3
    {
      hide Source.Valid, Source.Shows, NextOk;
      x := TakeOrNext(a, aIter);
      a := None;
    }

    method TakeRight() returns (y: Option<Range>)
      requires Shape() && Ahead(b, bIter.Shows().vals)
      modifies Repr
      ensures a == old(a)
      ensures Shape() && b.None? && NextOk(old(Right()), y, bIter.Shows()) && aIter.Shows() == old(aIter.Shows())
      decreases height, 3
    {
      hide Source.Valid, Source.Shows, NextOk;
      y := TakeOrNext(b, bIter);
      b := None;
    }

    method PutBack(x: Option<Range>, y: Option<Range>)
      requires Shape()
      modifies Repr
      ensures Shape() && a == x && b == y
      ensures aIter.Shows() == old(aIter.Shows()) && bIter.Shows() == old(bIter.Shows())
    {
      hide Source.Valid, Source.Shows;
      a, b := x, y;
    }

    method Next() returns (r: Option<Range>)
      requires Valid()
      modifies Repr
      ensures Valid() && NextOk(old(Shows()), r, Shows())
      decreases height, 5
    {
      hide NextOk, Denote, Canonical, Span, NonEmpty, Source.Valid, Source.Shows, Layout;
      ghost var v, w := Left(), Right();
      var x := TakeLeft();
      var y := TakeRight();
      ghost var A, B := aIter.Shows(), bIter.Shows();
      NextIsAhead(v, x, A);
      NextIsAhead(w, y, B);
      BehindNothing(A);
      BehindNothing(B);
      if x.None? || (y.Some? && y.value.end < x.value.start) {
        PutBack(x, None);
        FirstOfTwo(w, y, B, v, x, A);
        return y;
      }
      if y.None? || x.value.end < y.value.start {
        PutBack(None, y);
        FirstOfTwo(v, x, A, w, y, B);
        return x;
      }
      r := Merge(x.value, y.value);
      FirstOfMerged(v, x, A, w, y, B, r, Shows());
    }

    method AbsorbLeft(current: Range, ghost V: set<int>) returns (wider: Range, extended: bool)
      requires Valid() && Merging(V, current, Left().vals, Right().vals)
      modifies Repr
      ensures Valid() && Right() == old(Right()) && Merging(V, wider, Left().vals, Right().vals)
      ensures Left().left <= old(Left().left) && (extended ==> Left().left < old(Left().left))
      ensures !extended ==> wider == current && forall x :: x in Left().vals ==> x > current.end
      decreases height, 3
    {
      hide Source.Valid, Source.Shows, Merging;
      a, wider, extended := Absorb(a, aIter, current, V, Right().vals);
    }

    method AbsorbRight(current: Range, ghost V: set<int>) returns (wider: Range, extended: bool)
      requires Valid() && Merging(V, current, Left().vals, Right().vals)
      modifies Repr
      ensures Valid() && Left() == old(Left()) && Merging(V, wider, Left().vals, Right().vals)
      ensures Right().left <= old(Right().left) && (extended ==> Right().left < old(Right().left))
      ensures !extended ==> wider == current && forall x :: x in Right().vals ==> x > current.end
      decreases height, 3
    {
      hide Source.Valid, Source.Shows, Merging;
      MergingSwap(V, current, Left().vals, Right().vals);
      b, wider, extended := Absorb(b, bIter, current, V, Left().vals);
      MergingSwap(V, wider, Right().vals, Left().vals);
    }

    /** Keep merging ranges of both sides until there is a gap. */
    method Merge(x: Range, y: Range) returns (r: Option<Range>)
      requires Valid() && a.None? && b.None?
      requires Ahead(Some(x), aIter.Shows().vals) && Ahead(Some(y), bIter.Shows().vals)
      requires y.start <= x.end && x.start <= y.end
      modifies Repr
      ensures Valid() && NextOk(old(Both(Behind(Some(x), aIter.Shows()), Behind(Some(y), bIter.Shows()))), r, Shows())
      decreases height, 4
    {
      hide Source.Valid, Source.Shows, Layout, Merging, NextOk, Denote, Canonical;
      ghost var before := Both(Behind(Some(x), aIter.Shows()), Behind(Some(y), bIter.Shows()));
      MergingStarts(x, aIter.Shows().vals, y, bIter.Shows().vals);
      BehindNothing(aIter.Shows());
      BehindNothing(bIter.Shows());
      var current := Range(Min(x.start, y.start), Max(x.end, y.end));
      while true
        invariant Valid() && Merging(before.vals, current, Left().vals, Right().vals) && Shows().left < before.left
        decreases Shows().left
      {
        var longer, longest;
        current, longer := AbsorbLeft(current, before.vals);
        current, longest := AbsorbRight(current, before.vals);
        var extended := longer || longest;
        if !extended { break; }
      }
      r := Some(current);
      MergedAll(before, current, Left(), Right());
    }

    method SeekEndGe(n: int) returns (r: Option<Range>)
      requires Valid()
      modifies Repr
      ensures Valid() && SeekOk(old(Shows()), n, r, Shows())
      decreases height, 6
    {
      hide Source.Valid, Source.Shows;
      ghost var v, w := Left(), Right();
      a := KeepOrSeek(a, aIter, n);
      b := KeepOrSeek(b, bIter, n);
      ghost var m := Shows();
      ghost var x, A, y, B := a, aIter.Shows(), b, bIter.Shows();
      r := Next();
      SeekThenNext(v, w, n, x, A, y, B, r, Shows());
    }
  }

  class DifferenceIter {
    const mineIter: Source
    const otherIter: Source
    ghost const Repr: set<object>
    ghost const height: nat
    var mine: Option<Range>
    var other: Option<Range>

    /** Two sources with nothing in common, below this iterator. */
    ghost predicate Layout() {
      && this in Repr && mineIter in mineIter.Repr && otherIter in otherIter.Repr && mineIter.Repr <= Repr && otherIter.Repr <= Repr
      && this !in mineIter.Repr && this !in otherIter.Repr && mineIter.Repr !! otherIter.Repr && mineIter.height < height && otherIter.height < height
    }

    ghost predicate Shape()
      reads this, Repr
      decreases height, 0
    {
      Layout() && mineIter.Valid() && otherIter.Valid()
    }

    ghost predicate Valid()
      reads this, Repr
      ensures Valid() ==> Shape()
      decreases height, 1
    {
      && Shape()
      && Ahead(mine, mineIter.Shows().vals) && Ahead(other, otherIter.Shows().vals)
    }

    ghost function Shows(): View
      requires Shape()
      reads this, Repr
      decreases height, 3
    {
      Remaining(mine, mineIter.Shows(), other, otherIter.Shows())
    }

    constructor (mineIter: Source, otherIter: Source)
      requires mineIter.Valid() && otherIter.Valid() && mineIter.Repr !! otherIter.Repr
      ensures Valid() && this.mineIter == mineIter && this.otherIter == otherIter && Repr == {this} + mineIter.Repr + otherIter.Repr
      ensures Shows().vals == mineIter.Shows().vals - otherIter.Shows().vals
    {
      this.mineIter, this.otherIter, this.mine, this.other := mineIter, otherIter, None, None;
      Repr, height := {this} + mineIter.Repr + otherIter.Repr, Max(mineIter.height, otherIter.height) + 1;
    }

    method TakeMine() returns (x: Option<Range>)
      requires Shape() && Ahead(mine, mineIter.Shows().vals)
      modifies Repr
      ensures other == old(other) && mine.None? && Shape() && otherIter.Shows() == old(otherIter.Shows())
      ensures NextOk(Behind(old(mine), old(mineIter.Shows())), x, mineIter.Shows())
      ensures old(mine).Some? ==> x == old(mine) && mineIter.Shows() == old(mineIter.Shows())
      decreases height, 3
    {
      hide Source.Valid, Source.Shows, NextOk;
      x := TakeOrNext(mine, mineIter);
      mine := None;
    }

    method TakeOther(n: int) returns (y: Option<Range>)
      requires Shape() && Ahead(other, otherIter.Shows().vals)
      modifies Repr
      ensures mine == old(mine) && other.None? && Shape() && mineIter.Shows() == old(mineIter.Shows())
      ensures PullOk(old(other), Behind(old(other), old(otherIter.Shows())), n, y, otherIter.Shows())
      ensures old(other).Some? ==> y == old(other) && otherIter.Shows() == old(otherIter.Shows())
      decreases height, 3
    {
      hide Source.Valid, Source.Shows, PullOk;
      y := TakeOrSeek(other, otherIter, n);
      other := None;
    }

    method SeekOther(n: int)
      requires Shape() && other.None?
      modifies Repr
      ensures mine == old(mine) && Shape() && mineIter.Shows() == old(mineIter.Shows())
      ensures SeekOk(old(otherIter.Shows()), n, other, otherIter.Shows())
      decreases height, 3
    {
      hide Source.Valid, Source.Shows, SeekOk;
      other := otherIter.SeekEndGe(n);
    }

    method PutBack(x: Option<Range>, y: Option<Range>)
      requires Shape()
      modifies Repr
      ensures Shape() && mine == x && other == y
      ensures mineIter.Shows() == old(mineIter.Shows()) && otherIter.Shows() == old(otherIter.Shows())
    {
      hide Source.Valid, Source.Shows;
      mine, other := x, y;
    }

    method Next() returns (r: Option<Range>)
      requires Valid()
      modifies Repr
      ensures Valid() && NextOk(old(Shows()), r, Shows())
      decreases height, 5
    {
      hide *;
      while true
        invariant Valid() && Shows().vals == old(Shows().vals) && Shows().left <= old(Shows().left)
        decreases Shows().left
      {
        ghost var v := Shows();
        var done;
        done, r := Pass();
        if done {
          Onwards(old(Shows()), v, r, Shows());
          return;
        }
      }
    }

    /** One pass of the loop of `next`: a range to yield, or some of ours or of the
        other side's ranges used up. */
    method Pass() returns (done: bool, r: Option<Range>)
      requires Valid()
      modifies Repr
      ensures Valid()
      ensures done ==> NextOk(old(Shows()), r, Shows())
      ensures !done ==> Shows().vals == old(Shows().vals) && Shows().left < old(Shows().left)
      decreases height, 4
    {
      hide NextOk, SeekOk, Canonical, Denote, Span, Remaining, NonEmpty, Weight, PullOk, Source.Valid, Source.Shows, Layout;
      ghost var mine0, T0, other0, O0 := mine, mineIter.Shows(), other, otherIter.Shows();
      var x := TakeMine();
      if x.None? {
        NothingLeft(mine0, T0, mineIter.Shows(), other, O0);
        return true, None;
      }
      var y := TakeOther(x.value.start);
      ghost var T, O := mineIter.Shows(), otherIter.Shows();
      Positioned(mine0, T0, other0, O0, x.value, T, y, O);
      if y.None? || x.value.end <= y.value.start {
        PutBack(None, y);
        WholeRange(x.value, T, y, O);
        Onwards(old(Shows()), Remaining(x, T, y, O), x, Shows());
        return true, x;
      }
      if x.value.start >= y.value.end {
        PutBack(x, None);
        SeekOther(x.value.start);
        SpentRange(x.value, T, y.value, O, other, otherIter.Shows());
        return false, None;
      }
      PutBack(if y.value.end < x.value.end then Some(Range(y.value.end, x.value.end)) else None, y);
      CutRange(x.value, T, y.value, O);
      if x.value.start < y.value.start {
        r := Some(Range(x.value.start, y.value.start));
        Onwards(old(Shows()), Remaining(x, T, y, O), r, Shows());
        return true, r;
      }
      return false, None;
    }

    method SeekEndGe(n: int) returns (r: Option<Range>)
      requires Valid()
      modifies Repr
      ensures Valid() && SeekOk(old(Shows()), n, r, Shows())
      decreases height, 6
    {
      hide NextOk, Skipped, Canonical, Denote, Span, Remaining, NonEmpty, Source.Valid, Source.Shows;
      ghost var v := Shows();
      ghost var mine0, T0 := mine, mineIter.Shows();
      mine := KeepOrSeek(mine, mineIter, n);
      Repositioned(mine0, T0, n, mine, mineIter.Shows(), other, otherIter.Shows());
      if mine.None? { return None; }
      ghost var u := Shows();
      r := Next();
      SkipInto(v, n, u, r, Shows());
      while r.Some? && r.value.end < n
        invariant Valid() && Skipped(v, n, r, Shows())
        decreases Shows().left, r.Some?
      {
        ghost var c, w := r.value, Shows();
        r := Next();
        SkipOne(v, n, c, w, r, Shows());
        NextIsLess(w, r, Shows());
      }
    }
  }

  class IntersectionIter {
    const aIter: Source
    const bIter: Source
    ghost const Repr: set<object>
    ghost const height: nat
    var a: Option<Range>
    var b: Option<Range>

    /** Two sources with nothing in common, below this iterator. */
    ghost predicate Layout() {
      && this in Repr && aIter in aIter.Repr && bIter in bIter.Repr && aIter.Repr <= Repr && bIter.Repr <= Repr
      && this !in aIter.Repr && this !in bIter.Repr && aIter.Repr !! bIter.Repr && aIter.height < height && bIter.height < height
    }

    ghost predicate Shape()
      reads this, Repr
      decreases height, 0
    {
      Layout() && aIter.Valid() && bIter.Valid()
    }

    ghost predicate Valid()
      reads this, Repr
      ensures Valid() ==> Shape()
      decreases height, 1
    {
      && Shape()
      && Ahead(a, aIter.Shows().vals) && Ahead(b, bIter.Shows().vals)
    }

    ghost function Left(): View
      requires Shape()
      reads this, Repr
      decreases height, 2
    {
      Behind(a, aIter.Shows())
    }

    ghost function Right(): View
      requires Shape()
      reads this, Repr
      decreases height, 2
    {
      Behind(b, bIter.Shows())
    }

    ghost function Shows(): View
      requires Shape()
      reads this, Repr
      decreases height, 3
    {
      Common(Left(), Right())
    }

    constructor (aIter: Source, bIter: Source)
      requires aIter.Valid() && bIter.Valid() && aIter.Repr !! bIter.Repr
      ensures Valid() && this.aIter == aIter && this.bIter == bIter && Repr == {this} + aIter.Repr + bIter.Repr
      ensures Shows() == Common(aIter.Shows(), bIter.Shows())
    {
      this.aIter, this.bIter, this.a, this.b := aIter, bIter, None, None;
      Repr, height := {this} + aIter.Repr + bIter.Repr, Max(aIter.height, bIter.height) + 1;
    }

    method TakeLeft() returns (x: Option<Range>)
      requires Shape() && Ahead(a, aIter.Shows().vals)
      modifies Repr
      ensures b == old(b)
      ensures Shape() && a.None? && NextOk(old(Left()), x, aIter.Shows()) && bIter.Shows() == old(bIter.Shows())
      decreases height, 3
    {
      hide Source.Valid, Source.Shows, NextOk;
      x := TakeOrNext(a, aIter);
      a := None;
    }

    method TakeRight() returns (y: Option<Range>)
      requires Shape() && Ahead(b, bIter.Shows().vals)
      modifies Repr
      ensures a == old(a)
      ensures Shape() && b.None? && NextOk(old(Right()), y, bIter.Shows()) && aIter.Shows() == old(aIter.Shows())
      decreases height, 3
    {
      hide Source.Valid, Source.Shows, NextOk;
      y := TakeOrNext(b, bIter);
      b := None;
    }

    method PutBack(x: Option<Range>, y: Option<Range>)
      requires Shape()
      modifies Repr
      ensures Shape() && a == x && b == y
      ensures aIter.Shows() == old(aIter.Shows()) && bIter.Shows() == old(bIter.Shows())
    {
      hide Source.Valid, Source.Shows;
      a, b := x, y;
    }

    method SeekLeft(n: int)
      requires Shape() && a.None?
      modifies Repr
      ensures b == old(b)
      ensures Shape() && SeekOk(old(aIter.Shows()), n, a, aIter.Shows()) && bIter.Shows() == old(bIter.Shows())
      decreases height, 3
    {
      hide Source.Valid, Source.Shows, SeekOk;
      a := aIter.SeekEndGe(n);
    }

    method SeekRight(n: int)
      requires Shape() && b.None?
      modifies Repr
      ensures a == old(a)
      ensures Shape() && SeekOk(old(bIter.Shows()), n, b, bIter.Shows()) && aIter.Shows() == old(aIter.Shows())
      decreases height, 3
    {
      hide Source.Valid, Source.Shows, SeekOk;
      b := bIter.SeekEndGe(n);
    }

    method Next() returns (r: Option<Range>)
      requires Valid()
      modifies Repr
      ensures Valid() && NextOk(old(Shows()), r, Shows())
      decreases height, 5
    {
      hide *;
      while true
        invariant Valid() && Shows().vals == old(Shows().vals) && Shows().left <= old(Shows().left)
        decreases Shows().left
      {
        ghost var v := Shows();
        var done;
        done, r := Pass();
        if done {
          Onwards(old(Shows()), v, r, Shows());
          return;
        }
      }
    }

    /** One pass of the loop of `next`. */
    method Pass() returns (done: bool, r: Option<Range>)
      requires Valid()
      modifies Repr
      ensures Valid()
      ensures done ==> NextOk(old(Shows()), r, Shows())
      ensures !done ==> Shows().vals == old(Shows().vals) && Shows().left < old(Shows().left)
      decreases height, 4
    {
      hide NextOk, SeekOk, Canonical, Denote, Span, NonEmpty, Common, Source.Valid, Source.Shows, Layout;
      ghost var v, w := Left(), Right();
      var x := TakeLeft();
      if x.None? {
        LeftIsEmpty(v, aIter.Shows(), w);
        NextIsAhead(v, x, aIter.Shows());
        return true, None;
      }
      var y := TakeRight();
      ghost var A, B := aIter.Shows(), bIter.Shows();
      TakenInCommon(v, x, A, w, y, B);
      BehindNothing(A);
      BehindNothing(B);
      if y.None? {
        RightIsEmpty(v, x, A, w, B);
        return true, None;
      }
      if x.value.end <= y.value.start {
        PutBack(None, y);
        SeekLeft(y.value.start);
        Behindhand(x.value, A, y.value, B, a, aIter.Shows());
        return false, None;
      }
      if y.value.end <= x.value.start {
        PutBack(x, None);
        SeekRight(x.value.start);
        Behindhand(y.value, B, x.value, A, b, bIter.Shows());
        CommonSwap(Behind(x, A), Behind(y, B));
        CommonSwap(Left(), Right());
        return false, None;
      }
      Overlapping(x.value, A, y.value, B);
      r := Some(Range(Max(x.value.start, y.value.start), Min(x.value.end, y.value.end)));
      ghost var both := Common(Behind(x, A), Behind(y, B));
      if x.value.end <= y.value.end {
        PutBack(None, y);
        assert NextOk(both, r, Shows());
      } else {
        PutBack(x, None);
        assert NextOk(both, r, Shows());
      }
      Onwards(old(Shows()), both, r, Shows());
      done := true;
    }

    method SeekEndGe(n: int) returns (r: Option<Range>)
      requires Valid()
      modifies Repr
      ensures Valid() && SeekOk(old(Shows()), n, r, Shows())
      decreases height, 6
    {
      hide NextOk, SeekOk, Skipped, Canonical, Denote, Span, NonEmpty, Common, Source.Valid, Source.Shows;
      ghost var v, w := Left(), Right();
      a := KeepOrSeek(a, aIter, n);
      ghost var x, A := a, aIter.Shows();
      SeekIsAhead(v, n, a, A);
      b := KeepOrSeek(b, bIter, n);
      ghost var y, B := b, bIter.Shows();
      SeekIsAhead(w, n, b, B);
      r := Next();
      SoughtInCommon(v, w, n, x, A, y, B, r, Shows());
    }
  }

  class SymmetricDifferenceIter {
    const aIter: Source
    const bIter: Source
    ghost const Repr: set<object>
    ghost const height: nat
    var a: Option<Range>
    var b: Option<Range>
    var current: Option<Range>

    /** Two sources with nothing in common, below this iterator. */
    ghost predicate Layout() {
      && this in Repr && aIter in aIter.Repr && bIter in bIter.Repr && aIter.Repr <= Repr && bIter.Repr <= Repr
      && this !in aIter.Repr && this !in bIter.Repr && aIter.Repr !! bIter.Repr && aIter.height < height && bIter.height < height
    }

    ghost predicate Shape()
      reads this, Repr
      decreases height, 0
    {
      Layout() && aIter.Valid() && bIter.Valid()
    }

    ghost predicate Valid()
      reads this, Repr
      ensures Valid() ==> Shape()
      decreases height, 1
    {
      && Shape()
      && Ahead(a, aIter.Shows().vals) && Ahead(b, bIter.Shows().vals)
      && AllBehind(current, Held(a) + aIter.Shows().vals, Held(b) + bIter.Shows().vals)
    }

    ghost function Sides(): View
      requires Shape()
      reads this, Repr
      decreases height, 2
    {
      Rest(a, aIter.Shows(), b, bIter.Shows())
    }

    ghost function Shows(): View
      requires Shape()
      reads this, Repr
      decreases height, 3
    {
      Behind(current, Sides())
    }

    constructor (aIter: Source, bIter: Source)
      requires aIter.Valid() && bIter.Valid() && aIter.Repr !! bIter.Repr
      ensures Valid() && this.aIter == aIter && this.bIter == bIter && Repr == {this} + aIter.Repr + bIter.Repr
      ensures Shows().vals == Apart(aIter.Shows().vals, bIter.Shows().vals)
    {
      this.aIter, this.bIter, this.a, this.b, this.current := aIter, bIter, None, None, None;
      Repr, height := {this} + aIter.Repr + bIter.Repr, Max(aIter.height, bIter.height) + 1;
    }

    method PutBack(x: Option<Range>, y: Option<Range>)
      requires Shape()
      modifies Repr
      ensures Shape() && a == x && b == y && current == old(current)
      ensures aIter.Shows() == old(aIter.Shows()) && bIter.Shows() == old(bIter.Shows())
    {
      hide Source.Valid, Source.Shows;
      a, b := x, y;
    }

    method EmitOrCoalesce(chunk: Range) returns (r: Option<Range>)
      requires Shape()
      modifies Repr
      ensures Shape() && a == old(a) && b == old(b)
      ensures aIter.Shows() == old(aIter.Shows()) && bIter.Shows() == old(bIter.Shows())
      ensures current == Some(Extended(old(current), chunk))
      ensures r == if old(current).None? || old(current).value.end == chunk.start then None else old(current)
    {
      hide Source.Valid, Source.Shows;
      if current.Some? {
        if current.value.end == chunk.start {
          current := Some(Range(current.value.start, chunk.end));
          r := None;
        } else {
          r := current;
          current := Some(chunk);
        }
      } else {
        current := Some(chunk);
        r := None;
      }
    }

    /** Both sides are exhausted: the current block goes out. */
    method TakeCurrent() returns (r: Option<Range>)
      requires Shape()
      modifies Repr
      ensures Shape() && a == old(a) && b == old(b) && current.None? && r == old(current)
      ensures aIter.Shows() == old(aIter.Shows()) && bIter.Shows() == old(bIter.Shows())
    {
      hide Source.Valid, Source.Shows;
      r := current;
      current := None;
    }

    method NextChunks() returns (x: Option<Range>, y: Option<Range>)
      requires Valid()
      modifies Repr
      ensures Shape() && a.None? && b.None? && current == old(current)
      ensures NextOk(old(Behind(a, aIter.Shows())), x, aIter.Shows()) && NextOk(old(Behind(b, bIter.Shows())), y, bIter.Shows())
      ensures old(a).Some? ==> x == old(a) && aIter.Shows() == old(aIter.Shows())
      ensures old(b).Some? ==> y == old(b) && bIter.Shows() == old(bIter.Shows())
      decreases height, 3
    {
      hide Source.Valid, Source.Shows;
      if current.Some? {
        x := TakeOrSeek(a, aIter, current.value.end);
        PulledBehind(current.value, a, old(Behind(a, aIter.Shows())), x, aIter.Shows());
        y := TakeOrSeek(b, bIter, current.value.end);
        PulledBehind(current.value, b, old(Behind(b, bIter.Shows())), y, bIter.Shows());
      } else {
        x := TakeOrNext(a, aIter);
        y := TakeOrNext(b, bIter);
      }
      a, b := None, None;
    }

    method Next() returns (r: Option<Range>)
      requires Valid()
      modifies Repr
      ensures Valid() && NextOk(old(Shows()), r, Shows())
      decreases height, 5
    {
      hide *;
      while true
        invariant Valid() && Shows().vals == old(Shows().vals) && Shows().left <= old(Shows().left)
        decreases Shows().left
      {
        ghost var v := Shows();
        var done;
        done, r := Pass();
        if done {
          Onwards(old(Shows()), v, r, Shows());
          return;
        }
      }
    }

    /** Cut the next chunk off two ranges that start apart, and put the rest back. */
    method NextChunk(x: Range, y: Range) returns (chunk: Range)
      requires Shape() && a.None? && b.None?
      requires Ahead(Some(x), aIter.Shows().vals) && Ahead(Some(y), bIter.Shows().vals) && x.start != y.start
      modifies Repr
      ensures Shape() && current == old(current) && aIter.Shows() == old(aIter.Shows()) && bIter.Shows() == old(bIter.Shows())
      ensures Ahead(a, aIter.Shows().vals) && Ahead(b, bIter.Shows().vals)
      ensures Cut(old(Rest(Some(x), aIter.Shows(), Some(y), bIter.Shows())), chunk, Sides())
      ensures AllBehind(Some(chunk), Held(a) + aIter.Shows().vals, Held(b) + bIter.Shows().vals)
    {
      hide Cut, Rest, Denote, Canonical, Span, Source.Valid, Source.Shows;
      ghost var A, B := aIter.Shows(), bIter.Shows();
      RestSwap(Some(x), A, Some(y), B);
      if x.end <= y.start {
        b := Some(y);
        CutWhole(x, A, b, B);
        BehindNothing(A);
        return x;
      } else if y.end <= x.start {
        a := Some(x);
        CutWhole(y, B, a, A);
        BehindNothing(B);
        RestSwap(a, A, None, B);
        return y;
      } else if x.start < y.start {
        a, b := Some(Range(y.start, x.end)), Some(y);
        CutFront(x, A, y, B);
        return Range(x.start, y.start);
      } else {
        b, a := Some(Range(x.start, y.end)), Some(x);
        CutFront(y, B, x, A);
        RestSwap(a, A, b, B);
        return Range(y.start, x.start);
      }
    }

    /** One pass of the loop of `next`. */
    method Pass() returns (done: bool, r: Option<Range>)
      requires Valid()
      modifies Repr
      ensures Valid()
      ensures done ==> NextOk(old(Shows()), r, Shows())
      ensures !done ==> Shows().vals == old(Shows().vals) && Shows().left < old(Shows().left)
      decreases height, 4
    {
      hide NextOk, Cut, Rest, Denote, Canonical, Span, NonEmpty, AllBehind, Source.Valid, Source.Shows, Layout;
      ghost var a0, A0, b0, B0 := a, aIter.Shows(), b, bIter.Shows();
      var x, y := NextChunks();
      ghost var A, B := aIter.Shows(), bIter.Shows();
      ghost var v := Rest(x, A, y, B);
      BothTaken(current, a0, A0, x, A, b0, B0, y, B);
      if x.None? && y.None? {
        r := TakeCurrent();
        LastChunk(r, A, B, old(Sides()));
        return true, r;
      }
      if x.Some? && y.Some? && x.value.start == y.value.start {
        PutBack(Beyond(x.value, y.value), Beyond(y.value, x.value));
        CutCommon(current, x.value, A, y.value, B);
        return false, None;
      }
      var chunk := CutChunk(x, y);
      RestIsApart(x, A, y, B);
      ChunkIsBehind(current, Held(x) + A.vals, Held(y) + B.vals, v, chunk, Sides());
      done, r := GiveChunk(chunk, v);
      if done { Onwards(old(Shows()), Behind(old(current), v), r, Shows()); }
    }

    /** The next chunk of what the two sides give, where they do not start together. */
    method CutChunk(x: Option<Range>, y: Option<Range>) returns (chunk: Range)
      requires Shape() && a.None? && b.None? && (x.Some? || y.Some?)
      requires Ahead(x, aIter.Shows().vals) && Ahead(y, bIter.Shows().vals)
      requires (x.None? ==> aIter.Shows().vals == {}) && (y.None? ==> bIter.Shows().vals == {})
      requires x.Some? && y.Some? ==> x.value.start != y.value.start
      modifies Repr
      ensures Shape() && current == old(current) && Ahead(a, aIter.Shows().vals) && Ahead(b, bIter.Shows().vals)
      ensures Cut(old(Rest(x, aIter.Shows(), y, bIter.Shows())), chunk, Sides())
      ensures AllBehind(Some(chunk), Held(a) + aIter.Shows().vals, Held(b) + bIter.Shows().vals)
    {
      hide Cut, Rest, Denote, Canonical, Span, Source.Valid, Source.Shows, Layout;
      ghost var A, B := aIter.Shows(), bIter.Shows();
      if x.Some? && y.Some? {
        chunk := NextChunk(x.value, y.value);
      } else if x.Some? {
        chunk := x.value;
        CutWhole(chunk, A, None, B);
        BehindNothing(A);
      } else {
        chunk := y.value;
        CutWhole(chunk, B, None, A);
        BehindNothing(B);
        RestSwap(x, A, y, B);
        RestSwap(None, A, None, B);
      }
    }

    /** The chunk joins the current block, or takes its place. */
    method GiveChunk(chunk: Range, ghost v: View) returns (done: bool, r: Option<Range>)
      requires Shape() && Cut(v, chunk, Sides()) && (current.Some? ==> NonEmpty(current.value) && current.value.end <= chunk.start)
      requires Ahead(a, aIter.Shows().vals) && Ahead(b, bIter.Shows().vals)
      requires AllBehind(Some(chunk), Held(a) + aIter.Shows().vals, Held(b) + bIter.Shows().vals)
      modifies Repr
      ensures Valid()
      ensures done ==> NextOk(Behind(old(current), v), r, Shows())
      ensures !done ==> Shows().vals == Behind(old(current), v).vals && Shows().left < Behind(old(current), v).left
    {
      hide NextOk, Cut, Rest, Denote, Canonical, Span, AllBehind, Source.Valid, Source.Shows, Layout;
      ExtendedIsBefore(current, chunk, Held(a) + aIter.Shows().vals, Held(b) + bIter.Shows().vals);
      Coalesced(current, v, chunk, Sides());
      r := EmitOrCoalesce(chunk);
      done := r.Some?;
    }
  }
}
