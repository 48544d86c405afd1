/** Draining lazy iterators nested to any depth, and the set relations decided over any
    two sources (rangeset/src/iter.rs). */
module RangeRelations {
  import opened Basics
  import opened Ranges
  import opened RangeSources
  import opened RangeUnion
  import opened RangeDifference
  import opened RangeIntersection
  import opened RangeSymmetricDifference
  import opened RangeIterators

  // ----- collecting -----

  /** `r` is the part of the set `V` in front of `rest`, with a gap between them. */
  ghost predicate Collected(r: seq<Range>, rest: set<int>, V: set<int>) {
    && Canonical(r) && Denote(r) + rest == V
    && (forall x, y :: x in Denote(r) && y in rest ==> x + 1 < y)
  }

  lemma CollectOne(r: seq<Range>, v: View, c: Range, w: View, V: set<int>)
    requires Collected(r, v.vals, V) && NextOk(v, Some(c), w)
    ensures Collected(r + [c], w.vals, V)
  {
    DenoteSnoc(r, c);
    assert c.start in v.vals by { assert c.start in Span(c); }
    CanonicalSnoc(r, c);
  }

  lemma CollectAll(r: seq<Range>, v: View, w: View, V: set<int>)
    requires Collected(r, v.vals, V) && NextOk(v, None, w)
    ensures Canonical(r) && Denote(r) == V
  {
  }

  /** Draining any source, however it is nested, ends with the canonical list of what it
      shows. */
  method Collect(it: Source) returns (r: seq<Range>)
    requires it.Valid()
    modifies it.Repr
    ensures Canonical(r) && Denote(r) == old(it.Shows().vals)
  {
    hide Collected, NextOk, Canonical, Denote;
    ghost var V := it.Shows().vals;
    r := [];
    NothingCollected(V);
    while true
      invariant it.Valid() && Collected(r, it.Shows().vals, V)
      decreases it.Shows().left
    {
      ghost var v := it.Shows();
      var next := it.Next();
      if next.None? {
        CollectAll(r, v, it.Shows(), V);
        return;
      }
      CollectOne(r, v, next.value, it.Shows(), V);
      NextIsLess(v, next, it.Shows());
      r := r + [next.value];
    }
  }

  lemma NothingCollected(V: set<int>)
    ensures Collected([], V, V)
  {
  }

  // ----- nesting -----

  /** A nesting of lazy set operations over lists. */
  datatype Expr =
    | Leaf(ranges: seq<Range>, sliced: bool)
    | Or(left: Expr, right: Expr)
    | Minus(left: Expr, right: Expr)
    | And(left: Expr, right: Expr)
    | Xor(left: Expr, right: Expr)

  predicate CanonicalLeaves(e: Expr) {
    if e.Leaf? then Canonical(e.ranges) else CanonicalLeaves(e.left) && CanonicalLeaves(e.right)
  }

  /** The set that it stands for. */
  function Meaning(e: Expr): set<int> {
    match e
    case Leaf(ranges, _) => Denote(ranges)
    case Or(l, r) => Meaning(l) + Meaning(r)
    case Minus(l, r) => Meaning(l) - Meaning(r)
    case And(l, r) => Meaning(l) * Meaning(r)
    case Xor(l, r) => Apart(Meaning(l), Meaning(r))
  }

  method Build(e: Expr) returns (s: Source)
    requires CanonicalLeaves(e)
    ensures s.Valid() && fresh(s.Repr) && s.Shows().vals == Meaning(e)
    decreases e
  {
    hide Canonical, Denote, Apart, Source.Valid, Source.Shows;
    if e.Leaf? {
      s := new Source(e.ranges, e.sliced);
      return;
    }
    var a := Build(e.left);
    var b := Build(e.right);
    if e.Or? {
      s := UnionOf(a, b);
    } else if e.Minus? {
      s := DifferenceOf(a, b);
    } else if e.And? {
      s := IntersectionOf(a, b);
    } else {
      s := SymmetricDifferenceOf(a, b);
    }
  }

  /** The adaptors that the iterator trait provides: each makes one iterator of two. */
  method UnionOf(a: Source, b: Source) returns (s: Source)
    requires a.Valid() && b.Valid() && a.Repr !! b.Repr
    ensures s.Valid() && fresh(s.Repr - a.Repr - b.Repr) && s.Shows().vals == a.Shows().vals + b.Shows().vals
  {
    hide Source.Valid, Source.Shows, UnionIter.Layout;
    var u := new UnionIter(a, b);
    s := new Source.Union(u);
  }

  method DifferenceOf(a: Source, b: Source) returns (s: Source)
    requires a.Valid() && b.Valid() && a.Repr !! b.Repr
    ensures s.Valid() && fresh(s.Repr - a.Repr - b.Repr) && s.Shows().vals == a.Shows().vals - b.Shows().vals
  {
    hide Source.Valid, Source.Shows, DifferenceIter.Layout;
    var d := new DifferenceIter(a, b);
    s := new Source.Difference(d);
  }

  method IntersectionOf(a: Source, b: Source) returns (s: Source)
    requires a.Valid() && b.Valid() && a.Repr !! b.Repr
    ensures s.Valid() && fresh(s.Repr - a.Repr - b.Repr) && s.Shows().vals == a.Shows().vals * b.Shows().vals
  {
    hide Source.Valid, Source.Shows, IntersectionIter.Layout;
    var i := new IntersectionIter(a, b);
    s := new Source.Intersection(i);
  }

  method SymmetricDifferenceOf(a: Source, b: Source) returns (s: Source)
    requires a.Valid() && b.Valid() && a.Repr !! b.Repr
    ensures s.Valid() && fresh(s.Repr - a.Repr - b.Repr) && s.Shows().vals == Apart(a.Shows().vals, b.Shows().vals)
  {
    hide Source.Valid, Source.Shows, SymmetricDifferenceIter.Layout, Apart;
    var x := new SymmetricDifferenceIter(a, b);
    s := new Source.SymmetricDifference(x);
  }

  /** Any nesting of the four operations, over lists of either kind, collects to the
      canonical list of the set that it stands for. */
  method Evaluate(e: Expr) returns (r: seq<Range>)
    requires CanonicalLeaves(e)
    ensures Canonical(r) && Denote(r) == Meaning(e)
  {
    var s := Build(e);
    r := Collect(s);
  }

  /** The lazy union of any two canonical lists. */
  method Union(xs: seq<Range>, ys: seq<Range>, slicedX: bool, slicedY: bool) returns (r: seq<Range>)
    requires Canonical(xs) && Canonical(ys)
    ensures Canonical(r) && Denote(r) == Denote(xs) + Denote(ys)
  {
    r := Evaluate(Or(Leaf(xs, slicedX), Leaf(ys, slicedY)));
  }

  method Difference(xs: seq<Range>, ys: seq<Range>, slicedX: bool, slicedY: bool) returns (r: seq<Range>)
    requires Canonical(xs) && Canonical(ys)
    ensures Canonical(r) && Denote(r) == Denote(xs) - Denote(ys)
  {
    r := Evaluate(Minus(Leaf(xs, slicedX), Leaf(ys, slicedY)));
  }

  method Intersection(xs: seq<Range>, ys: seq<Range>, slicedX: bool, slicedY: bool) returns (r: seq<Range>)
    requires Canonical(xs) && Canonical(ys)
    ensures Canonical(r) && Denote(r) == Denote(xs) * Denote(ys)
  {
    r := Evaluate(And(Leaf(xs, slicedX), Leaf(ys, slicedY)));
  }

  method SymmetricDifference(xs: seq<Range>, ys: seq<Range>, slicedX: bool, slicedY: bool) returns (r: seq<Range>)
    requires Canonical(xs) && Canonical(ys)
    ensures Canonical(r) && Denote(r) == (Denote(xs) - Denote(ys)) + (Denote(ys) - Denote(xs))
  {
    r := Evaluate(Xor(Leaf(xs, slicedX), Leaf(ys, slicedY)));
  }

  /** Seeking in any nesting yields a range that ends at `n` or later, and loses no value
      from `n - 1` on; its start may be cut, so the range need not be one of the list. */
  method SeekIn(e: Expr, n: int) returns (first: Option<Range>, rest: seq<Range>)
    requires CanonicalLeaves(e)
    ensures Canonical(rest) && (first.None? ==> rest == [] && forall x :: x in Meaning(e) ==> x < n - 1)
    ensures first.Some? ==>
              && n <= first.value.end && Canonical([first.value] + rest) && Denote([first.value] + rest) <= Meaning(e)
              && forall x :: x in Meaning(e) && x >= n - 1 ==> x in Denote([first.value] + rest)
  {
    var s := Build(e);
    ghost var v := s.Shows();
    first := s.SeekEndGe(n);
    ghost var w := s.Shows();
    rest := Collect(s);
    SoughtThenRest(v, n, first, w, rest);
  }

  lemma SoughtThenRest(v: View, n: int, r: Option<Range>, w: View, rest: seq<Range>)
    requires SeekOk(v, n, r, w) && Canonical(rest) && Denote(rest) == w.vals
    ensures r.None? ==> rest == [] && forall x :: x in v.vals ==> x < n - 1
    ensures r.Some? ==>
              && n <= r.value.end && Canonical([r.value] + rest) && Denote([r.value] + rest) <= v.vals
              && forall x :: x in v.vals && x >= n - 1 ==> x in Denote([r.value] + rest)
  {
    if r.None? {
      CanonicalIsUnique(rest, []);
    } else {
      DenoteConcat([r.value], rest);
      DenoteOne(r.value);
      forall i | 0 <= i < |rest| ensures r.value.end < rest[i].start {
        DenoteIn(rest, rest[i].start);
        assert rest[i].start in w.vals;
      }
    }
  }

  // ----- relations -----

  /** The other side `B`, where the values below `cut` no longer matter. */
  ghost predicate Known(B: set<int>, cut: int, b: Option<Range>, W: set<int>) {
    Ahead(b, W) && Held(b) + W <= B && forall x :: x in B && x >= cut ==> x in Held(b) + W
  }

  /** Our next range `a` is in the other side exactly if one range holds all of it. */
  lemma InsideOne(B: set<int>, a: Range, b: Range, W: set<int>)
    requires NonEmpty(a) && Known(B, a.start, Some(b), W) && a.start <= b.end
    ensures b.start <= a.start && a.end <= b.end <==> Span(a) <= B
  {
    if b.start > a.start {
      assert a.start in Span(a) && a.start !in B;
    } else if b.end < a.end {
      assert b.end in Span(a) && b.end !in Span(b) + W;
    } else {
      assert Span(a) <= Span(b);
    }
  }

  lemma SoughtIsKnown(B: set<int>, cut: int, b: Option<Range>, W: View, a: Range, r: Option<Range>, Z: View)
    requires Known(B, cut, b, W.vals) && cut <= a.start && SeekOk(W, a.start, r, Z) && (b.Some? ==> b.value.end < a.start)
    ensures Known(B, a.start, r, Z.vals)
  {
  }

  lemma LaterCut(B: set<int>, cut: int, b: Option<Range>, W: set<int>, later: int)
    requires Known(B, cut, b, W) && cut <= later
    ensures Known(B, later, b, W)
  {
  }

  method IsSubset(aIter: Source, bIter: Source) returns (r: bool)
    requires aIter.Valid() && bIter.Valid() && aIter.Repr !! bIter.Repr
    modifies aIter.Repr, bIter.Repr
    ensures r <==> old(aIter.Shows().vals <= bIter.Shows().vals)
  {
    hide NextOk, SeekOk, Known, Denote, Canonical, Span;
    ghost var A, B := aIter.Shows().vals, bIter.Shows().vals;
    var b: Option<Range> := None;
    ghost var v := aIter.Shows();
    var next := aIter.Next();
    ghost var cut := if next.Some? then next.value.start else 0;
    FirstIsLeast(v, next, aIter.Shows());
    StartKnown(B, cut);
    while next.Some?
      invariant aIter.Valid() && bIter.Valid() && NextOk(v, next, aIter.Shows())
      invariant Known(B, cut, b, bIter.Shows().vals) && (forall x :: x in v.vals ==> x >= cut)
      invariant A <= B <==> v.vals <= B
      decreases v.left
    {
      var a := next.value;
      NextFacts(v, a, aIter.Shows(), cut);
      if b.None? || b.value.end < a.start {
        ghost var W := bIter.Shows();
        ghost var spent := b;
        b := bIter.SeekEndGe(a.start);
        SoughtIsKnown(B, cut, spent, W, a, b, bIter.Shows());
        SoughtFacts(W, a.start, b, bIter.Shows());
      } else {
        LaterCut(B, cut, b, bIter.Shows().vals, a.start);
      }
      cut := a.start;
      if b.None? {
        NotInside(B, a, bIter.Shows().vals);
        return false;
      }
      InsideOne(B, a, b.value, bIter.Shows().vals);
      if b.value.start > a.start || b.value.end < a.end { return false; }
      v := aIter.Shows();
      next := aIter.Next();
    }
    NothingNext(v, aIter.Shows());
    r := true;
  }

  method IsSuperset(aIter: Source, bIter: Source) returns (r: bool)
    requires aIter.Valid() && bIter.Valid() && aIter.Repr !! bIter.Repr
    modifies aIter.Repr, bIter.Repr
    ensures r <==> old(bIter.Shows().vals <= aIter.Shows().vals)
  {
    r := IsSubset(bIter, aIter);
  }

  lemma FirstIsLeast(v: View, r: Option<Range>, w: View)
    requires NextOk(v, r, w)
    ensures r.Some? ==> forall x :: x in v.vals ==> x >= r.value.start
    ensures r.None? ==> v.vals == {}
  {
  }

  lemma StartKnown(B: set<int>, cut: int)
    ensures Known(B, cut, None, B)
  {
  }

  lemma NextFacts(v: View, a: Range, w: View, cut: int)
    requires NextOk(v, Some(a), w) && forall x :: x in v.vals ==> x >= cut
    ensures NonEmpty(a) && cut <= a.start && v.vals == Span(a) + w.vals && w.left < v.left
    ensures forall x :: x in w.vals ==> x >= a.start
  {
    assert a.start in Span(a);
  }

  lemma NothingNext(v: View, w: View)
    requires NextOk(v, None, w)
    ensures v.vals == {}
  {
  }

  lemma SoughtFacts(v: View, n: int, r: Option<Range>, w: View)
    requires SeekOk(v, n, r, w)
    ensures (r.Some? ==> n <= r.value.end) && (r.None? ==> w.vals == {})
  {
  }

  lemma NotInside(B: set<int>, a: Range, W: set<int>)
    requires NonEmpty(a) && Known(B, a.start, None, W) && W == {}
    ensures !(Span(a) <= B)
  {
    assert a.start in Span(a) && a.start !in B;
  }

  method IsDisjoint(aIter: Source, bIter: Source) returns (r: bool)
    requires aIter.Valid() && bIter.Valid() && aIter.Repr !! bIter.Repr
    modifies aIter.Repr, bIter.Repr
    ensures r <==> old(aIter.Shows().vals !! bIter.Shows().vals)
  {
    hide NextOk, SeekOk, Denote, Canonical, Span, Common;
    var a: Option<Range> := None;
    var b: Option<Range> := None;
    BehindNothing(aIter.Shows());
    BehindNothing(bIter.Shows());
    while true
      invariant aIter.Valid() && bIter.Valid() && Ahead(a, aIter.Shows().vals) && Ahead(b, bIter.Shows().vals)
      invariant Common(Behind(a, aIter.Shows()), Behind(b, bIter.Shows())).vals == old(Common(aIter.Shows(), bIter.Shows())).vals
      decreases Common(Behind(a, aIter.Shows()), Behind(b, bIter.Shows())).left
    {
      ghost var v, w := Behind(a, aIter.Shows()), Behind(b, bIter.Shows());
      var x := TakeOrNext(a, aIter);
      var y := TakeOrNext(b, bIter);
      ghost var A, B := aIter.Shows(), bIter.Shows();
      TakenInCommon(v, x, A, w, y, B);
      if x.None? || y.None? {
        NoneInCommon(v, x, A, w, y, B);
        CommonMeans(old(aIter.Shows()), old(bIter.Shows()));
        return true;
      }
      if x.value.end <= y.value.start {
        a := aIter.SeekEndGe(y.value.start);
        b := y;
        Behindhand(x.value, A, y.value, B, a, aIter.Shows());
      } else if y.value.end <= x.value.start {
        b := bIter.SeekEndGe(x.value.start);
        a := x;
        Behindhand(y.value, B, x.value, A, b, bIter.Shows());
        CommonSwap(Behind(x, A), Behind(y, B));
        CommonSwap(Behind(a, aIter.Shows()), Behind(b, bIter.Shows()));
      } else {
        OneInCommon(x.value, A, y.value, B);
        CommonMeans(old(aIter.Shows()), old(bIter.Shows()));
        return false;
      }
    }
  }

  lemma CommonMeans(v: View, w: View)
    ensures Common(v, w).vals == {} <==> v.vals !! w.vals
  {
    assert v.vals !! w.vals ==> forall x :: x !in v.vals * w.vals;
    assert forall x :: x in v.vals && x in w.vals ==> x in Common(v, w).vals;
  }

  lemma NoneInCommon(v: View, x: Option<Range>, A: View, w: View, y: Option<Range>, B: View)
    requires NextOk(v, x, A) && NextOk(w, y, B) && (x.None? || y.None?)
    ensures Common(v, w).vals == {}
  {
  }

  lemma OneInCommon(a: Range, A: View, b: Range, B: View)
    requires Ahead(Some(a), A.vals) && Ahead(Some(b), B.vals) && b.start < a.end && a.start < b.end
    ensures Common(Behind(Some(a), A), Behind(Some(b), B)).vals != {}
  {
    var x := Max(a.start, b.start);
    assert x in Span(a) && x in Span(b);
    assert x in Common(Behind(Some(a), A), Behind(Some(b), B)).vals;
  }
}
