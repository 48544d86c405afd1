/** Views into a byte store: the positions of a range set, read as one piece
    (spansy/src/lib.rs). */
module SpanView {
  import opened Basics
  import opened Ranges
  import opened RangeSets

  // ----- positions in reading order -----

  function Positions(r: Range): seq<int>
    requires r.start <= r.end
  {
    seq(r.end - r.start, i => r.start + i)
  }

  /** All the positions of a list of ranges, one range after the other. */
  function Flat(rs: seq<Range>): seq<int>
    requires AllNonEmpty(rs)
  {
    if rs == [] then [] else Positions(rs[0]) + Flat(rs[1..])
  }

  lemma {:induction false} FlatConcat(a: seq<Range>, b: seq<Range>)
    requires AllNonEmpty(a) && AllNonEmpty(b)
    ensures AllNonEmpty(a + b) && Flat(a + b) == Flat(a) + Flat(b)
  {
    if a == [] {
      assert a + b == b;
    } else {
      assert (a + b)[1..] == a[1..] + b;
      FlatConcat(a[1..], b);
    }
  }

  lemma FlatSnoc(a: seq<Range>, r: Range)
    requires AllNonEmpty(a) && NonEmpty(r)
    ensures AllNonEmpty(a + [r]) && Flat(a + [r]) == Flat(a) + Positions(r)
  {
    FlatConcat(a, [r]);
    assert [r][1..] == [];
  }

  /** A list of ranges has the values that it reads. */
  lemma {:induction false} FlatDenotes(rs: seq<Range>)
    requires AllNonEmpty(rs)
    ensures forall x :: x in Denote(rs) <==> x in Flat(rs)
    ensures |Flat(rs)| == TotalLen(rs)
  {
    if rs != [] {
      FlatDenotes(rs[1..]);
      forall x ensures x in Span(rs[0]) <==> x in Positions(rs[0]) {
        if x in Span(rs[0]) { assert Positions(rs[0])[x - rs[0].start] == x; }
      }
    }
  }

  /** Two canonical lists that read the same positions are the same list. */
  lemma SameReading(a: seq<Range>, b: seq<Range>)
    requires Canonical(a) && Canonical(b) && Flat(a) == Flat(b)
    ensures a == b
  {
    FlatDenotes(a);
    FlatDenotes(b);
    CanonicalIsUnique(a, b);
  }

  // ----- selecting -----

  /** The first `k` ranges of the indices have been looked at, `at` positions in all. */
  ghost predicate SelectedTo(indices: seq<Range>, s: nat, e: nat, k: nat, at: nat, result: seq<Range>) {
    && k <= |indices| && Canonical(indices) && Canonical(result) && s <= e
    && at == |Flat(indices[..k])|
    && Flat(result) == Flat(indices[..k])[Cap(s, at)..Cap(e, at)]
    && (forall x :: x in Denote(result) ==> x in Denote(indices[..k]))
  }

  function Cap(a: nat, b: nat): nat { if a <= b then a else b }

  lemma SelectStart(indices: seq<Range>, s: nat, e: nat)
    requires Canonical(indices) && s <= e
    ensures SelectedTo(indices, s, e, 0, 0, [])
  {
    assert indices[..0] == [];
  }

  /** The part of a range that is selected, where `at` positions come before it. */
  function Piece(r: Range, at: nat, s: nat, e: nat): Range {
    var concatEnd := at + (r.end - r.start);
    var overlapStart, overlapEnd := Later(s, at), CapInt(e, concatEnd);
    var absStart := r.start + (overlapStart - at);
    Range(absStart, absStart + (overlapEnd - overlapStart))
  }

  lemma EmptyPiece(r: Range, at: nat, s: nat, e: nat)
    requires s <= e && Overlaps(r, at, s, e)
    ensures s == e ==> !NonEmpty(Piece(r, at, s, e))
  {
  }

  function CapInt(a: int, b: int): int { if a <= b then a else b }

  predicate Overlaps(r: Range, at: nat, s: nat, e: nat) { s < at + (r.end - r.start) && e > at }

  lemma TakeFlat(indices: seq<Range>, s: nat, e: nat, k: nat, at: nat, result: seq<Range>)
    requires SelectedTo(indices, s, e, k, at, result) && k < |indices| && Overlaps(indices[k], at, s, e) && s < e
    ensures var r := indices[k];
            var end := at + (r.end - r.start);
            var piece := Piece(r, at, s, e);
            && NonEmpty(piece) && r.start <= piece.start && piece.end <= r.end
            && end == |Flat(indices[..k + 1])|
            && Flat(result) + Positions(piece) == Flat(indices[..k + 1])[Cap(s, end)..Cap(e, end)]
  {
    hide Flat, Canonical, Denote, Positions;
    var r := indices[k];
    var end := at + (r.end - r.start);
    var piece := Piece(r, at, s, e);
    NextFlat(indices, k);
    PiecePositions(r, at, s, e);
    SliceOfConcat(Flat(indices[..k]), Positions(r), s, e);
  }

  lemma NextFlat(indices: seq<Range>, k: nat)
    requires Canonical(indices) && k < |indices|
    ensures NonEmpty(indices[k]) && AllNonEmpty(indices[..k]) && AllNonEmpty(indices[..k + 1])
    ensures |Positions(indices[k])| == indices[k].end - indices[k].start
    ensures Flat(indices[..k + 1]) == Flat(indices[..k]) + Positions(indices[k])
  {
    assert indices[..k + 1] == indices[..k] + [indices[k]];
    FlatSnoc(indices[..k], indices[k]);
  }

  lemma PiecePositions(r: Range, at: nat, s: nat, e: nat)
    requires NonEmpty(r) && Overlaps(r, at, s, e) && s < e
    ensures var piece, end := Piece(r, at, s, e), at + (r.end - r.start);
            && NonEmpty(piece) && r.start <= piece.start && piece.end <= r.end && |Positions(r)| == r.end - r.start
            && Positions(r)[Later(s, at) - at..Cap(e, end) - at] == Positions(piece)
  {
  }

  lemma SkipFlat(indices: seq<Range>, s: nat, e: nat, k: nat, at: nat, result: seq<Range>)
    requires SelectedTo(indices, s, e, k, at, result) && k < |indices| && !(Overlaps(indices[k], at, s, e) && s < e)
    ensures var r := indices[k];
            var end := at + (r.end - r.start);
            && NonEmpty(r) && end == |Flat(indices[..k + 1])|
            && Flat(result) == Flat(indices[..k + 1])[Cap(s, end)..Cap(e, end)]
  {
    hide Flat, Canonical, Denote, Positions;
    var r := indices[k];
    NextFlat(indices, k);
    SliceOfConcat(Flat(indices[..k]), Positions(r), s, e);
  }

  lemma SelectStep(indices: seq<Range>, s: nat, e: nat, k: nat, at: nat, result: seq<Range>)
    requires SelectedTo(indices, s, e, k, at, result) && k < |indices|
    ensures var r := indices[k];
            var end := at + (r.end - r.start);
            && NonEmpty(r)
            && (if Overlaps(r, at, s, e) && s < e
                then NonEmpty(Piece(r, at, s, e)) && SelectedTo(indices, s, e, k + 1, end, result + [Piece(r, at, s, e)])
                else SelectedTo(indices, s, e, k + 1, end, result))
  {
    var r := indices[k];
    assert indices[..k + 1] == indices[..k] + [r];
    DenoteSnoc(indices[..k], r);
    AllNonEmptyOf(result);
    if Overlaps(r, at, s, e) && s < e {
      var piece := Piece(r, at, s, e);
      TakeFlat(indices, s, e, k, at, result);
      BeyondPrefix(indices, k, result, piece);
      FlatSnoc(result, piece);
      DenoteSnoc(result, piece);
      assert Span(piece) <= Span(r);
      hide Flat, Denote, Canonical;
    } else {
      SkipFlat(indices, s, e, k, at, result);
      hide Flat, Denote, Canonical;
    }
  }

  function Later(a: nat, b: nat): nat { if a <= b then b else a }

  /** Slicing a concatenation slices its two parts. */
  lemma SliceOfConcat(a: seq<int>, b: seq<int>, s: nat, e: nat)
    requires s <= e
    ensures var n, m := |a|, |a| + |b|;
            (a + b)[Cap(s, m)..Cap(e, m)]
            == a[Cap(s, n)..Cap(e, n)] + b[Cap(Later(s, n), m) - n..Cap(Later(e, n), m) - n]
  {
    var n, m := |a|, |a| + |b|;
    SliceConcat(a, b, Cap(s, m), Cap(e, m));
    assert Cap(Cap(s, m), n) == Cap(s, n) && Cap(Cap(e, m), n) == Cap(e, n);
    assert Later(Cap(s, m), n) == Cap(Later(s, n), m) && Later(Cap(e, m), n) == Cap(Later(e, n), m);
  }

  lemma SliceConcat(a: seq<int>, b: seq<int>, i: nat, j: nat)
    requires i <= j <= |a| + |b|
    ensures (a + b)[i..j] == a[Cap(i, |a|)..Cap(j, |a|)] + b[Later(i, |a|) - |a|..Later(j, |a|) - |a|]
  {
    var n := |a|;
    if j <= n {
      assert (a + b)[i..j] == a[i..j] && b[0..0] == [];
    } else if i >= n {
      assert (a + b)[i..j] == b[i - n..j - n] && a[n..n] == [];
    } else {
      assert (a + b)[i..j] == (a + b)[i..n] + (a + b)[n..j];
      assert (a + b)[i..n] == a[i..n];
      assert (a + b)[n..j] == b[0..j - n];
    }
  }

  /** A piece of the next range lies beyond what was taken of the ranges before it. */
  lemma BeyondPrefix(indices: seq<Range>, k: nat, result: seq<Range>, piece: Range)
    requires Canonical(indices) && k < |indices| && Canonical(result) && NonEmpty(piece) && indices[k].start <= piece.start
    requires forall x :: x in Denote(result) ==> x in Denote(indices[..k])
    ensures Canonical(result + [piece])
  {
    forall x | x in Denote(result) ensures x + 1 < piece.start {
      DenoteIn(indices[..k], x);
      var i :| 0 <= i < |indices[..k]| && indices[..k][i].start <= x < indices[..k][i].end;
      assert indices[i].end < indices[k].start;
    }
    CanonicalSnoc(result, piece);
  }

  /** A selection of the concatenated positions `s..e`. */
  ghost predicate Selects(indices: seq<Range>, s: nat, e: nat, result: seq<Range>) {
    && Canonical(indices) && Canonical(result) && s <= e <= |Flat(indices)|
    && Flat(result) == Flat(indices)[s..e] && Denote(result) <= Denote(indices)
  }

  lemma SelectDone(indices: seq<Range>, s: nat, e: nat, k: nat, at: nat, result: seq<Range>)
    requires SelectedTo(indices, s, e, k, at, result) && (at >= e || k == |indices|) && e <= |Flat(indices)|
    ensures Selects(indices, s, e, result)
  {
    assert indices == indices[..k] + indices[k..];
    FlatConcat(indices[..k], indices[k..]);
    DenoteConcat(indices[..k], indices[k..]);
    assert k == |indices| ==> Flat(indices[k..]) == [];
    assert Flat(indices)[s..e] == Flat(indices[..k])[s..e];
  }

  /** Walk the indices and note what of each range is selected, even if it is empty. */
  method Overlapping(indices: seq<Range>, start: nat, end: nat) returns (result: seq<Range>)
    requires Canonical(indices) && start <= end <= TotalLen(indices)
    ensures Selects(indices, start, end, Filtered(result))
  {
    result := [];
    var concatPos: nat := 0;
    var k: nat := 0;
    ghost var kept: seq<Range> := [];
    FlatDenotes(indices);
    SelectStart(indices, start, end);
    while k < |indices|
      invariant k <= |indices| && SelectedTo(indices, start, end, k, concatPos, kept) && Filtered(result) == kept
    {
      SelectStep(indices, start, end, k, concatPos, kept);
      hide SelectedTo, Flat, Denote, Canonical, Filtered, Piece, Overlaps;
      var range := indices[k];
      var concatEnd := concatPos + (range.end - range.start);
      if Overlaps(range, concatPos, start, end) {
        var piece := Piece(range, concatPos, start, end);
        EmptyPiece(range, concatPos, start, end);
        FilteredSnoc(result, piece);
        result := result + [piece];
        kept := if start < end then kept + [piece] else kept;
      }
      concatPos := concatEnd;
      k := k + 1;
      if concatPos >= end { break; }
    }
    hide SelectedTo, Flat, Denote, Canonical, Filtered, Selects;
    SelectDone(indices, start, end, k, concatPos, kept);
  }

  /** The positions that a range of concatenated positions stands for, or nothing if
      it goes beyond the end. */
  method SelectIndices(indices: seq<Range>, start: nat, end: nat) returns (r: Option<seq<Range>>)
    requires Canonical(indices) && start <= end
    ensures r.Some? <==> end <= |Flat(indices)|
    ensures r.Some? ==> Selects(indices, start, end, r.value)
  {
    FlatDenotes(indices);
    var total := TotalLen(indices);
    if start > total || end > total { return None; }
    var result := Overlapping(indices, start, end);
    FilteredDenotes(result);
    var set0 := new RangeSet.FromRanges(result);
    CanonicalIsUnique(set0.ranges, Filtered(result));
    r := Some(set0.ranges);
  }

  lemma {:induction false} FilteredSnoc(rs: seq<Range>, r: Range)
    ensures Filtered(rs + [r]) == Filtered(rs) + if NonEmpty(r) then [r] else []
  {
    if rs == [] {
      assert [r][1..] == [];
    } else {
      assert (rs + [r])[1..] == rs[1..] + [r];
      FilteredSnoc(rs[1..], r);
      var x, y, z := if rs[0].start < rs[0].end then [rs[0]] else [], Filtered(rs[1..]), if NonEmpty(r) then [r] else [];
      hide Filtered;
      assert (x + y) + z == x + (y + z);
    }
  }

  lemma AllNonEmptyOf(rs: seq<Range>)
    requires Canonical(rs)
    ensures AllNonEmpty(rs)
  {
  }

  // ----- views -----

  /** A byte store and the positions of it that the view shows. */
  datatype View = View(store: seq<byte>, indices: seq<Range>)

  predicate ValidView(v: View) {
    Canonical(v.indices) && forall i :: 0 <= i < |v.indices| ==> 0 <= v.indices[i].start && v.indices[i].end <= |v.store|
  }

  lemma {:induction false} FlatInBounds(rs: seq<Range>, n: int)
    requires AllNonEmpty(rs) && forall i :: 0 <= i < |rs| ==> 0 <= rs[i].start && rs[i].end <= n
    ensures forall x :: x in Flat(rs) ==> 0 <= x < n
  {
    if rs != [] { FlatInBounds(rs[1..], n); }
  }

  function At(store: seq<byte>, x: int): byte { if 0 <= x < |store| then store[x] else 0 }

  /** The bytes that a list of positions reads. */
  function Bytes(store: seq<byte>, positions: seq<int>): seq<byte> {
    seq(|positions|, i requires 0 <= i < |positions| => At(store, positions[i]))
  }

  function Shown(v: View): seq<byte>
    requires ValidView(v)
  {
    AllNonEmptyOf(v.indices);
    Bytes(v.store, Flat(v.indices))
  }

  lemma BytesConcat(store: seq<byte>, a: seq<int>, b: seq<int>)
    ensures Bytes(store, a + b) == Bytes(store, a) + Bytes(store, b)
  {
  }

  lemma RangeBytes(store: seq<byte>, r: Range)
    requires 0 <= r.start <= r.end <= |store|
    ensures store[r.start..r.end] == Bytes(store, Positions(r))
  {
  }

  /** The data of a view: one slice, or the slices of its ranges put together. */
  method AsBytes(v: View) returns (data: seq<byte>)
    requires ValidView(v)
    ensures data == Shown(v)
  {
    AllNonEmptyOf(v.indices);
    if |v.indices| == 1 {
      RangeBytes(v.store, v.indices[0]);
      assert v.indices[1..] == [] && Flat(v.indices) == Positions(v.indices[0]);
      return v.store[v.indices[0].start..v.indices[0].end];
    }
    data := [];
    for k := 0 to |v.indices|
      invariant AllNonEmpty(v.indices[..k]) && data == Bytes(v.store, Flat(v.indices[..k]))
    {
      var range := v.indices[k];
      RangeBytes(v.store, range);
      assert v.indices[..k + 1] == v.indices[..k] + [range];
      FlatSnoc(v.indices[..k], range);
      BytesConcat(v.store, Flat(v.indices[..k]), Positions(range));
      data := data + v.store[range.start..range.end];
    }
    assert v.indices[..|v.indices|] == v.indices;
  }

  lemma SelectionIsValid(v: View, s: nat, e: nat, result: seq<Range>)
    requires ValidView(v) && Selects(v.indices, s, e, result)
    ensures ValidView(v.(indices := result))
    ensures s <= e <= |Shown(v)| && Shown(v.(indices := result)) == Shown(v)[s..e]
  {
    AllNonEmptyOf(result);
    AllNonEmptyOf(v.indices);
    forall i | 0 <= i < |result| ensures 0 <= result[i].start && result[i].end <= |v.store| {
      InBounds(v, result[i].start);
      InBounds(v, result[i].end - 1);
      DenoteIn(result, result[i].start);
      DenoteIn(result, result[i].end - 1);
    }
    assert Bytes(v.store, Flat(v.indices)[s..e]) == Bytes(v.store, Flat(v.indices))[s..e];
  }

  lemma InBounds(v: View, x: int)
    requires ValidView(v)
    ensures x in Denote(v.indices) ==> 0 <= x < |v.store|
  {
    DenoteIn(v.indices, x);
  }

  /** A view of a part of a view, given by positions in what the view shows. The
      positions found always lie within the view, so `subview` does not panic. */
  method Select(v: View, start: nat, end: nat) returns (r: Option<View>, panics: bool)
    requires ValidView(v) && start <= end
    ensures !panics && (r.Some? <==> end <= |Shown(v)|)
    ensures r.Some? ==> ValidView(r.value) && r.value.store == v.store && Shown(r.value) == Shown(v)[start..end]
    ensures r.Some? ==> Selects(v.indices, start, end, r.value.indices)
  {
    var indices := SelectIndices(v.indices, start, end);
    panics := false;
    if indices.None? { return None, false; }
    SelectionIsValid(v, start, end, indices.value);
    var inside := IsSubset(indices.value, v.indices, true);
    if !inside { return None, true; }
    r := Some(v.(indices := indices.value));
  }

  /** Selecting from a selection is one selection. */
  lemma SelectOfSelect(indices: seq<Range>, a: nat, b: nat, first: seq<Range>, c: nat, d: nat, second: seq<Range>, direct: seq<Range>)
    requires Selects(indices, a, b, first) && Selects(first, c, d, second) && Selects(indices, a + c, a + d, direct)
    ensures second == direct
  {
    AllNonEmptyOf(first);
    assert Flat(indices)[a..b][c..d] == Flat(indices)[a + c..a + d];
    SameReading(second, direct);
  }

  /** The whole of what a view shows selects the view itself, and order is kept. */
  lemma SelectWhole(indices: seq<Range>, result: seq<Range>)
    requires Canonical(indices) && AllNonEmpty(indices) && Selects(indices, 0, |Flat(indices)|, result)
    ensures result == indices
  {
    SameReading(result, indices);
  }
}
