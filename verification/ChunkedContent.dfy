/** The data of a chunked body: one view made of the views of all the chunks
    (spansy/src/http/span.rs). */
module ChunkedContent {
  import opened Basics
  import opened Ranges
  import opened RangeSets
  import opened SpanView
  import opened ChunkSize
  import opened ChunkedBody
  import opened ChunkedParser

  // ----- chunks lie apart -----

  /** The ranges of a list are non-empty and leave at least one position between them. */
  ghost predicate Spaced(rs: seq<Range>, at: int) {
    rs != [] ==> at <= rs[0].start < rs[0].end && Spaced(rs[1..], rs[0].end + 2)
  }

  /** The data of two chunks is at least a line end apart. */
  lemma {:induction false} ChunksAreSpaced(src: seq<byte>, pos: nat)
    requires pos <= |src| && ChunksFrom(src, pos).Parsed?
    ensures Spaced(ChunksFrom(src, pos).value, pos)
    decreases |src| - pos
  {
    hide ParseSize, IsCrlf;
    var i := FindCrlf(src, pos).value;
    var n := ParseSize(src[pos..i]).value;
    if n > 0 {
      ChunksAreSpaced(src, i + 2 + n + 2);
      var rest := ChunksFrom(src, i + 2 + n + 2).value;
      assert ([Range(i + 2, i + 2 + n)] + rest)[1..] == rest;
    }
  }

  /** Positions are read in increasing order. */
  lemma {:induction false} FlatIncreases(rs: seq<Range>, i: nat, j: nat)
    requires Canonical(rs) && AllNonEmpty(rs) && i < j < |Flat(rs)|
    ensures Flat(rs)[i] < Flat(rs)[j]
  {
    CanonicalFront(rs);
    var n := |Positions(rs[0])|;
    if i >= n {
      FlatIncreases(rs[1..], i - n, j - n);
    } else if j >= n {
      FlatDenotes(rs[1..]);
      assert Flat(rs[1..])[j - n] in Flat(rs[1..]);
    }
  }

  lemma {:induction false} EndsOfFlat(rs: seq<Range>)
    requires AllNonEmpty(rs) && rs != []
    ensures |Flat(rs)| > 0 && Flat(rs)[0] == rs[0].start && Flat(rs)[|Flat(rs)| - 1] == rs[|rs| - 1].end - 1
  {
    if |rs| > 1 { EndsOfFlat(rs[1..]); }
  }

  /** Two selections with a position between them are apart. */
  lemma SelectionsApart(indices: seq<Range>, s: nat, e: nat, A: seq<Range>, t: nat, u: nat, B: seq<Range>)
    requires Selects(indices, s, e, A) && Selects(indices, t, u, B) && s < e < t < u
    ensures A != [] && B != [] && A[|A| - 1].end < B[0].start
  {
    AllNonEmptyOf(indices);
    AllNonEmptyOf(A);
    AllNonEmptyOf(B);
    EndsOfFlat(A);
    EndsOfFlat(B);
    FlatIncreases(indices, e - 1, e);
    FlatIncreases(indices, e, t);
    assert Flat(A)[|Flat(A)| - 1] == Flat(indices)[e - 1] && Flat(B)[0] == Flat(indices)[t];
  }

  // ----- all chunks as one view -----

  function AllIndices(vs: seq<View>): seq<Range> { if vs == [] then [] else vs[0].indices + AllIndices(vs[1..]) }

  ghost function AllShown(vs: seq<View>): seq<byte>
    requires forall k :: 0 <= k < |vs| ==> ValidView(vs[k])
  {
    if vs == [] then [] else Shown(vs[0]) + AllShown(vs[1..])
  }

  lemma {:induction false} ChunksMerge(view: View, start: nat, ranges: seq<Range>, vs: seq<View>, at: nat)
    requires ValidView(view) && AllViews(view, start, ranges, vs) && Spaced(ranges, at)
    ensures Canonical(AllIndices(vs)) && AllNonEmpty(AllIndices(vs)) && Denote(AllIndices(vs)) <= Denote(view.indices)
    ensures forall k :: 0 <= k < |vs| ==> ValidView(vs[k])
    ensures Bytes(view.store, Flat(AllIndices(vs))) == AllShown(vs)
    decreases |vs|
  {
    if vs == [] {
    } else {
      var v, more := vs[0], AllIndices(vs[1..]);
      hide Shown, Flat, Denote, Canonical, Selects;
      assert Views(view, start, ranges[0], v);
      ChunksMerge(view, start, ranges[1..], vs[1..], ranges[0].end + 2);
      FirstBeforeRest(view, start, ranges, vs, at);
      SelectedIndices(view, start, ranges[0], v);
      CanonicalJoin(v.indices, more);
      DenoteConcat(v.indices, more);
      FlatConcat(v.indices, more);
      BytesConcat(view.store, Flat(v.indices), Flat(more));
    }
  }

  lemma SelectedIndices(view: View, start: nat, range: Range, v: View)
    requires ValidView(view) && Views(view, start, range, v)
    ensures Canonical(v.indices) && AllNonEmpty(v.indices) && Denote(v.indices) <= Denote(view.indices)
    ensures Shown(v) == Bytes(view.store, Flat(v.indices))
  {
  }

  lemma FirstBeforeRest(view: View, start: nat, ranges: seq<Range>, vs: seq<View>, at: nat)
    requires ValidView(view) && AllViews(view, start, ranges, vs) && Spaced(ranges, at) && vs != []
    ensures var more := AllIndices(vs[1..]);
            vs[0].indices != [] && (more != [] ==> vs[0].indices[|vs[0].indices| - 1].end < more[0].start)
  {
    hide Shown, ValidView, Flat, Denote, Canonical;
    assert Views(view, start, ranges[0], vs[0]);
    NotEmptySelection(view.indices, start + ranges[0].start, start + ranges[0].end, vs[0].indices);
    if |vs| > 1 {
      assert Views(view, start, ranges[1], vs[1]) && ranges[1..][0] == ranges[1] && vs[1..][0] == vs[1];
      SelectionsApart(view.indices, start + ranges[0].start, start + ranges[0].end, vs[0].indices,
                      start + ranges[1].start, start + ranges[1].end, vs[1].indices);
    }
  }

  lemma NotEmptySelection(indices: seq<Range>, s: nat, e: nat, A: seq<Range>)
    requires Selects(indices, s, e, A) && s < e
    ensures A != []
  {
  }

  /** The view of all the data of the chunks. Collecting their positions into one set
      does not panic, and reads the same bytes as the chunks one after the other. */
  method ContentView(view: View, start: nat, ghost ranges: seq<Range>, chunks: seq<View>) returns (v: View, panics: bool)
    requires ValidView(view) && AllViews(view, start, ranges, chunks) && Spaced(ranges, 0)
    ensures forall k :: 0 <= k < |chunks| ==> ValidView(chunks[k])
    ensures !panics && ValidView(v) && v.store == view.store && Shown(v) == AllShown(chunks)
  {
    ChunksMerge(view, start, ranges, chunks, 0);
    hide Shown, Flat, Denote, Canonical, Selects, AllViews, Spaced;
    var set0 := new RangeSet.FromRanges(AllIndices(chunks));
    CanonicalIsUnique(set0.ranges, AllIndices(chunks));
    var inside := IsSubset(set0.ranges, view.indices, true);
    panics := !inside;
    v := view.(indices := set0.ranges);
    SubsetIsValid(view, v);
  }

  lemma SubsetIsValid(view: View, v: View)
    requires ValidView(view) && v.store == view.store && Canonical(v.indices) && Denote(v.indices) <= Denote(view.indices)
    ensures ValidView(v) && AllNonEmpty(v.indices) && Shown(v) == Bytes(view.store, Flat(v.indices))
  {
    AllNonEmptyOf(v.indices);
    forall i | 0 <= i < |v.indices| ensures 0 <= v.indices[i].start && v.indices[i].end <= |v.store| {
      DenoteIn(v.indices, v.indices[i].start);
      DenoteIn(v.indices, v.indices[i].end - 1);
      InBounds(view, v.indices[i].start);
      InBounds(view, v.indices[i].end - 1);
    }
  }

  /** Parse and put together: the content of a body that was sent is its data. */
  method ChunkedData(store: seq<byte>, ghost ps: seq<Piece>, ghost lastExt: seq<byte>, ghost ts: seq<TrailerText>, ghost rest: seq<byte>)
    returns (data: seq<byte>, used: nat)
    requires (forall i :: 0 <= i < |ps| ==> PieceOk(ps[i])) && ExtensionsOk(lastExt)
    requires (forall i :: 0 <= i < |ts| ==> TrailerOk(ts[i])) && store == SendBody(ps, lastExt, ts) + rest
    ensures data == AllData(ps) && used == |SendBody(ps, lastExt, ts)|
  {
    hide PieceOk, ExtensionsOk, TrailerOk, SendBody, ChunksFrom, DataRanges, TrailerSpans, Shown, Flat, Selects, Canonical, Spaced, Views, ValidView;
    BodyRoundTrip(ps, lastExt, ts, rest);
    var view := WholeStore(store);
    var r := ParseChunkedBody(view, 0);
    assert store[0..] == store;
    ghost var ranges := ParseBody(store).value.0;
    ParsedIsSpaced(store);
    var v, panics := ContentView(view, 0, ranges, r.chunks);
    ShownIsData(store, view, ps, ranges, r.chunks);
    data := AsBytes(v);
    used := r.used;
  }

  function AllData(ps: seq<Piece>): seq<byte> { if ps == [] then [] else ps[0].data + AllData(ps[1..]) }

  lemma ParsedIsSpaced(src: seq<byte>)
    requires ParseBody(src).Parsed?
    ensures Spaced(ParseBody(src).value.0, 0)
  {
    hide ChunksFrom, TrailersFrom;
    ChunksAreSpaced(src, 0);
  }

  /** The view of a whole store. */
  method WholeStore(store: seq<byte>) returns (view: View)
    ensures ValidView(view) && view.store == store && Shown(view) == store
  {
    view := View(store, if store == [] then [] else [Range(0, |store|)]);
    if store != [] {
      assert view.indices[1..] == [];
      assert Flat(view.indices) == Positions(view.indices[0]);
      RangeBytes(store, view.indices[0]);
      assert store[0..|store|] == store;
    }
  }

  lemma {:induction false} ShownIsData(store: seq<byte>, view: View, ps: seq<Piece>, ranges: seq<Range>, vs: seq<View>)
    requires ValidView(view) && Shown(view) == store && AllViews(view, 0, ranges, vs) && |ranges| == |ps|
    requires forall k :: 0 <= k < |ps| ==>
               0 <= ranges[k].start <= ranges[k].end <= |store| && store[ranges[k].start..ranges[k].end] == ps[k].data
    requires forall k :: 0 <= k < |vs| ==> ValidView(vs[k])
    ensures AllShown(vs) == AllData(ps)
    decreases |vs|
  {
    hide Shown, Selects, ValidView;
    if vs != [] {
      assert Views(view, 0, ranges[0], vs[0]);
      ShownIsData(store, view, ps[1..], ranges[1..], vs[1..]);
    }
  }
}
