/** Parsing a chunked body out of a view: the loops of the parser, and the views of
    the chunks and trailers that it gives (spansy/src/http/span.rs). */
module ChunkedParser {
  import opened Basics
  import opened Ranges
  import opened RangeSets
  import opened SpanView
  import opened ChunkSize
  import opened ChunkedBody

  // ----- the loops -----

  function PrependAll<T>(xs: seq<T>, r: Parse<seq<T>>): Parse<seq<T>> {
    match r
    case Parsed(rest, next) => Parsed(xs + rest, next)
    case Bad(e) => Bad(e)
    case Panics => Panics
  }

  lemma PrependNone<T>(r: Parse<seq<T>>)
    ensures PrependAll([], r) == r
  {
    if r.Parsed? { assert [] + r.value == r.value; }
  }

  lemma PrependMore<T>(xs: seq<T>, x: T, r: Parse<seq<T>>)
    ensures PrependAll(xs, Prepend(x, r)) == PrependAll(xs + [x], r)
  {
    if r.Parsed? { assert xs + ([x] + r.value) == (xs + [x]) + r.value; }
  }

  /** A view of the bytes `range` of the input, which starts at `start` in `view`. */
  ghost predicate Views(view: View, start: nat, range: Range, v: View)
    requires ValidView(view)
  {
    && 0 <= range.start <= range.end && ValidView(v) && v.store == view.store
    && Selects(view.indices, start + range.start, start + range.end, v.indices)
    && start + range.end <= |Shown(view)| && Shown(v) == Shown(view)[start + range.start..start + range.end]
  }

  ghost predicate AllViews(view: View, start: nat, ranges: seq<Range>, vs: seq<View>)
    requires ValidView(view)
  {
    |vs| == |ranges| && forall k :: 0 <= k < |vs| ==> Views(view, start, ranges[k], vs[k])
  }

  method SelectRange(view: View, start: nat, range: Range) returns (v: View)
    requires ValidView(view) && 0 <= range.start <= range.end && start + range.end <= |Shown(view)|
    ensures Views(view, start, range, v)
  {
    var r, panics := Select(view, start + range.start, start + range.end);
    v := r.value;
  }

  /** Where the loop over the chunks stops, and with what. */
  lemma ChunksStop(src: seq<byte>, pos: nat)
    requires pos <= |src|
    ensures FindCrlf(src, pos).None? ==> ChunksFrom(src, pos) == Bad(MissingCrlfAfterSize)
    ensures FindCrlf(src, pos).Some? ==>
              var at := FindCrlf(src, pos).value + 2;
              var size := ParseSize(src[pos..at - 2]);
              && (size.None? ==> ChunksFrom(src, pos) == Bad(InvalidSize))
              && (size == Some(0) ==> ChunksFrom(src, pos) == Parsed([], at))
              && (size.Some? && size.value > 0 && at + size.value > |src| ==> ChunksFrom(src, pos) == Panics)
              && (size.Some? && size.value > 0 && at + size.value <= |src| && !IsCrlf(src, at + size.value) ==>
                    ChunksFrom(src, pos) == Bad(MissingCrlfAfterData))
  {
    hide ParseSize, FindCrlf;
  }

  lemma ChunksGoOn(src: seq<byte>, pos: nat, lineEnd: nat, size: nat)
    requires pos <= lineEnd <= |src| && FindCrlf(src, pos) == Some(lineEnd) && ParseSize(src[pos..lineEnd]) == Some(size)
    requires size > 0 && IsCrlf(src, lineEnd + 2 + size)
    ensures ChunksFrom(src, pos) == Prepend(Range(lineEnd + 2, lineEnd + 2 + size), ChunksFrom(src, lineEnd + 2 + size + 2))
  {
    hide ParseSize, FindCrlf;
  }

  /** The chunks: where each lies in the input, and a view of it. */
  method ParseChunks(view: View, start: nat, src: seq<byte>) returns (r: Parse<seq<Range>>, chunks: seq<View>)
    requires ValidView(view) && start <= |Shown(view)| && src == Shown(view)[start..]
    ensures r == ChunksFrom(src, 0)
    ensures r.Parsed? ==> AllViews(view, start, r.value, chunks)
  {
    hide ParseSize, FindCrlf, Shown, ValidView, Selects, Views, ChunksFrom, PrependAll, Prepend;
    var pos: nat := 0;
    var ranges: seq<Range> := [];
    chunks := [];
    PrependNone(ChunksFrom(src, 0));
    while true
      invariant pos <= |src| && AllViews(view, start, ranges, chunks)
      invariant ChunksFrom(src, 0) == PrependAll(ranges, ChunksFrom(src, pos))
      decreases |src| - pos
    {
      PrependEnd(ranges, pos);
      ChunksStop(src, pos);
      var sizeEnd := FindCrlf(src, pos);
      if sizeEnd.None? { return Bad(MissingCrlfAfterSize), []; }
      var size := ParseSize(src[pos..sizeEnd.value]);
      if size.None? { return Bad(InvalidSize), []; }
      var at := sizeEnd.value + 2;
      if size.value == 0 {
        PrependEnd(ranges, at);
        return Parsed(ranges, at), chunks;
      }
      var end := at + size.value;
      if end > |src| { return Panics, []; }
      var chunk := SelectRange(view, start, Range(at, end));
      if !IsCrlf(src, end) { return Bad(MissingCrlfAfterData), []; }
      ChunksGoOn(src, pos, sizeEnd.value, size.value);
      PrependMore(ranges, Range(at, end), ChunksFrom(src, end + 2));
      ranges := ranges + [Range(at, end)];
      chunks := chunks + [chunk];
      pos := end + 2;
    }
  }

  datatype TrailerView = TrailerView(name: View, value: View, line: View)

  ghost predicate TrailerViews(view: View, start: nat, spans: seq<TrailerSpan>, ts: seq<TrailerView>)
    requires ValidView(view)
  {
    && |ts| == |spans|
    && forall k :: 0 <= k < |ts| ==>
         && Views(view, start, spans[k].name, ts[k].name) && Views(view, start, spans[k].value, ts[k].value)
         && Views(view, start, spans[k].line, ts[k].line)
  }

  method ParseTrailers(view: View, start: nat, src: seq<byte>, from: nat) returns (r: Parse<seq<TrailerSpan>>, trailers: seq<TrailerView>)
    requires ValidView(view) && start <= |Shown(view)| && src == Shown(view)[start..] && from <= |src|
    ensures r == TrailersFrom(src, from)
    ensures r.Parsed? ==> TrailerViews(view, start, r.value, trailers)
  {
    hide FindCrlf, FindByte, ValidUtf8, Shown, ValidView, Selects, SkipSpace, Views, TrailersFrom, PrependAll, Prepend;
    PrependNone(TrailersFrom(src, from));
    var pos: nat := from;
    var spans: seq<TrailerSpan> := [];
    trailers := [];
    while true
      invariant pos <= |src| && TrailerViews(view, start, spans, trailers)
      invariant TrailersFrom(src, from) == PrependAll(spans, TrailersFrom(src, pos))
      decreases |src| - pos
    {
      PrependEnd(spans, pos + 2);
      if IsCrlf(src, pos) {
        TrailersEnd(src, pos);
        return Parsed(spans, pos + 2), trailers;
      }
      var lineEnd := FindCrlf(src, pos);
      TrailersStop(src, pos);
      if lineEnd.None? { return Bad(MissingCrlfInTrailer), []; }
      var line := src[pos..lineEnd.value];
      var colon := FindByte(line, COLON);
      if colon.None? { return Bad(MissingColon), []; }
      if !ValidUtf8(line[..colon.value]) { return Panics, []; }
      TrailersGoOn(src, pos, lineEnd.value, colon.value);
      var span, trailer := ReadTrailer(view, start, src, pos, lineEnd.value, colon.value);
      PrependMore(spans, span, TrailersFrom(src, lineEnd.value + 2));
      spans := spans + [span];
      trailers := trailers + [trailer];
      pos := lineEnd.value + 2;
    }
  }

  lemma PrependEnd<T>(xs: seq<T>, next: nat)
    ensures PrependAll(xs, Parsed([], next)) == Parsed(xs, next)
    ensures PrependAll(xs, Panics) == Panics && forall e :: PrependAll(xs, Bad(e)) == Bad(e)
  {
    assert xs + [] == xs;
  }

  lemma TrailersEnd(src: seq<byte>, pos: nat)
    requires IsCrlf(src, pos)
    ensures TrailersFrom(src, pos) == Parsed([], pos + 2)
  {
  }

  lemma TrailersStop(src: seq<byte>, pos: nat)
    requires pos <= |src| && !IsCrlf(src, pos)
    ensures FindCrlf(src, pos).None? ==> TrailersFrom(src, pos) == Bad(MissingCrlfInTrailer)
    ensures FindCrlf(src, pos).Some? ==>
              var line := src[pos..FindCrlf(src, pos).value];
              && (FindByte(line, COLON).None? ==> TrailersFrom(src, pos) == Bad(MissingColon))
              && (FindByte(line, COLON).Some? && !ValidUtf8(line[..FindByte(line, COLON).value]) ==> TrailersFrom(src, pos) == Panics)
  {
    hide FindCrlf, FindByte, ValidUtf8;
  }

  lemma TrailersGoOn(src: seq<byte>, pos: nat, lineEnd: nat, colon: nat)
    requires pos <= |src| && !IsCrlf(src, pos) && FindCrlf(src, pos) == Some(lineEnd)
    requires FindByte(src[pos..lineEnd], COLON) == Some(colon) && ValidUtf8(src[pos..lineEnd][..colon])
    ensures colon < lineEnd - pos
    ensures var span := TrailerSpan(Range(pos, pos + colon), Range(pos + SkipSpace(src[pos..lineEnd], colon + 1), lineEnd), Range(pos, lineEnd + 2));
            TrailersFrom(src, pos) == Prepend(span, TrailersFrom(src, lineEnd + 2))
  {
    hide FindCrlf, FindByte, ValidUtf8, SkipSpace;
  }

  /** The parts of the trailer line from `pos` to `lineEnd`, whose colon is known. */
  method ReadTrailer(view: View, start: nat, src: seq<byte>, pos: nat, lineEnd: nat, colon: nat)
    returns (span: TrailerSpan, trailer: TrailerView)
    requires ValidView(view) && start <= |Shown(view)| && src == Shown(view)[start..]
    requires pos <= lineEnd && lineEnd + 2 <= |src| && colon < lineEnd - pos
    ensures span == TrailerSpan(Range(pos, pos + colon), Range(pos + SkipSpace(src[pos..lineEnd], colon + 1), lineEnd), Range(pos, lineEnd + 2))
    ensures Views(view, start, span.name, trailer.name) && Views(view, start, span.value, trailer.value)
    ensures Views(view, start, span.line, trailer.line)
  {
    hide Shown, ValidView, Selects, SkipSpace, Views;
    var line := src[pos..lineEnd];
    var valueStart: nat := colon + 1;
    while valueStart < |line| && Space(line[valueStart])
      invariant colon + 1 <= valueStart <= |line| && SkipSpace(line, colon + 1) == SkipSpace(line, valueStart)
    {
      SkipOne(line, valueStart);
      valueStart := valueStart + 1;
    }
    SkipNone(line, valueStart);
    span := TrailerSpan(Range(pos, pos + colon), Range(pos + valueStart, lineEnd), Range(pos, lineEnd + 2));
    var name := SelectRange(view, start, span.name);
    var value := SelectRange(view, start, span.value);
    var whole := SelectRange(view, start, span.line);
    trailer := TrailerView(name, value, whole);
  }

  lemma SkipOne(s: seq<byte>, i: nat)
    requires i < |s| && Space(s[i])
    ensures SkipSpace(s, i) == SkipSpace(s, i + 1)
  {
  }

  lemma SkipNone(s: seq<byte>, i: nat)
    requires i <= |s| && (i < |s| ==> !Space(s[i]))
    ensures SkipSpace(s, i) == i
  {
  }

  datatype BodyResult = Body(view: View, chunks: seq<View>, trailers: seq<TrailerView>, used: nat) | Failed(error: Error) | Panicked

  /** What the parser makes of its input. */
  function ParseBody(src: seq<byte>): Parse<(seq<Range>, seq<TrailerSpan>)> {
    match ChunksFrom(src, 0)
    case Bad(e) => Bad(e)
    case Panics => Panics
    case Parsed(ranges, at) =>
      match TrailersFrom(src, at)
      case Bad(e) => Bad(e)
      case Panics => Panics
      case Parsed(spans, next) => Parsed((ranges, spans), next)
  }

  method ParseChunkedBody(view: View, start: nat) returns (r: BodyResult)
    requires ValidView(view) && start <= |Shown(view)|
    ensures match ParseBody(Shown(view)[start..])
            case Bad(e) => r == Failed(e)
            case Panics => r == Panicked
            case Parsed((ranges, spans), next) =>
              && r.Body? && r.used == next && Views(view, start, Range(0, next), r.view)
              && AllViews(view, start, ranges, r.chunks) && TrailerViews(view, start, spans, r.trailers)
  {
    hide ChunksFrom, TrailersFrom, Shown, ValidView, Selects, Views, AllViews, TrailerViews;
    var full := AsBytes(view);
    var src := full[start..];
    var cs, chunks := ParseChunks(view, start, src);
    match cs
    case Bad(e) => return Failed(e);
    case Panics => return Panicked;
    case Parsed(_, at) =>
      var ts, trailers := ParseTrailers(view, start, src, at);
      match ts
      case Bad(e) => return Failed(e);
      case Panics => return Panicked;
      case Parsed(_, next) =>
        var whole := SelectRange(view, start, Range(0, next));
        return Body(whole, chunks, trailers, next);
  }

  // ----- round trip -----

  function EncodeBody(cs: seq<ChunkText>, last: seq<byte>, ts: seq<TrailerText>): seq<byte> {
    EncodeChunks(cs) + last + CRLF + EncodeTrailers(ts)
  }

  /** Nothing but an encoding is accepted: what is used up is one, and the ranges and spans
      are those of its chunks and trailers. */
  lemma AcceptedIsEncoded(src: seq<byte>) returns (cs: seq<ChunkText>, last: seq<byte>, ts: seq<TrailerText>)
    requires ParseBody(src).Parsed?
    ensures (forall i :: 0 <= i < |cs| ==> ChunkOk(cs[i])) && NoCrlf(last) && ParseSize(last) == Some(0)
    ensures forall i :: 0 <= i < |ts| ==> TrailerOk(ts[i])
    ensures src[..ParseBody(src).next] == EncodeBody(cs, last, ts)
    ensures ParseBody(src).value == (DataRanges(cs, 0), TrailerSpans(ts, |EncodeChunks(cs)| + |last| + 2))
  {
    hide ParseSize, ChunkOk, TrailerOk, NoCrlf, ChunksFrom, TrailersFrom, EncodeChunks, EncodeTrailers, DataRanges, TrailerSpans;
    cs, last := ChunksAreEncoded(src, 0);
    var at := ChunksFrom(src, 0).next;
    ts := TrailersAreEncoded(src, at);
    var next := TrailersFrom(src, at).next;
    assert src[..next] == src[0..at] + src[at..next];
  }

  /** A body whose size lines say the right sizes, with anything behind it, is parsed
      back: the ranges hold the chunks, the spans are those of the trailers, and exactly
      the encoding is used up. */
  lemma BodyParses(cs: seq<ChunkText>, last: seq<byte>, ts: seq<TrailerText>, rest: seq<byte>)
    requires (forall i :: 0 <= i < |cs| ==> ChunkOk(cs[i])) && NoCrlf(last) && ParseSize(last) == Some(0)
    requires forall i :: 0 <= i < |ts| ==> TrailerOk(ts[i])
    ensures var src := EncodeBody(cs, last, ts) + rest;
            var ranges, at := DataRanges(cs, 0), |EncodeChunks(cs)| + |last| + 2;
            && ParseBody(src) == Parsed((ranges, TrailerSpans(ts, at)), |EncodeBody(cs, last, ts)|)
            && |ranges| == |cs|
            && (forall k :: 0 <= k < |cs| ==>
                  0 <= ranges[k].start <= ranges[k].end <= |src| && src[ranges[k].start..ranges[k].end] == cs[k].data)
  {
    hide ParseSize, ChunkOk, TrailerOk, NoCrlf, ChunksFrom, TrailersFrom, EncodeChunks, EncodeTrailers, DataRanges, TrailerSpans;
    var src := EncodeBody(cs, last, ts) + rest;
    BodyStands(cs, last, ts, rest);
    ChunksRoundTrip(src, 0, cs, last);
    TrailersRoundTrip(src, |EncodeChunks(cs)| + |last| + 2, ts);
    DataRangesCount(cs, 0);
    forall k | 0 <= k < |cs|
      ensures 0 <= DataRanges(cs, 0)[k].start <= DataRanges(cs, 0)[k].end <= |src|
              && src[DataRanges(cs, 0)[k].start..DataRanges(cs, 0)[k].end] == cs[k].data
    {
      DataIsThere(src, 0, cs, k);
    }
  }

  // ----- what a sender writes -----

  /** A chunk to send: its data, the case of the digits of its size, its extensions. */
  datatype Piece = Piece(data: seq<byte>, upper: bool, ext: seq<byte>)

  predicate ExtensionsOk(ext: seq<byte>) { ValidUtf8(ext) && NoCrlf(ext) && (ext == [] || ext[0] == SEMICOLON) }

  predicate PieceOk(p: Piece) { p.data != [] && |p.data| <= USIZE_MAX && ExtensionsOk(p.ext) }

  function SizeLine(n: nat, upper: bool, ext: seq<byte>): seq<byte> { Hex(n, upper) + ext }

  function ChunkOf(p: Piece): ChunkText { ChunkText(SizeLine(|p.data|, p.upper, p.ext), p.data) }

  function ChunksOf(ps: seq<Piece>): seq<ChunkText> { seq(|ps|, i requires 0 <= i < |ps| => ChunkOf(ps[i])) }

  /** The body of section 7.1: the chunks, the last chunk, the trailers, an empty line. */
  function SendBody(ps: seq<Piece>, lastExt: seq<byte>, ts: seq<TrailerText>): seq<byte> {
    EncodeBody(ChunksOf(ps), SizeLine(0, false, lastExt), ts)
  }

  lemma SizeLineOk(n: nat, upper: bool, ext: seq<byte>)
    requires n <= USIZE_MAX && ExtensionsOk(ext)
    ensures NoCrlf(SizeLine(n, upper, ext)) && ParseSize(SizeLine(n, upper, ext)) == Some(n)
  {
    hide ParseSize, ValidUtf8, Hex;
    SizeRoundTrip(n, upper, ext);
    HexMeans(n, upper);
    var line, k := SizeLine(n, upper, ext), |Hex(n, upper)|;
    forall i | 0 <= i < |line| ensures !IsCrlf(line, i) {
      if i < k {
        assert HexDigit(Hex(n, upper)[i]).Some?;
      } else {
        assert !IsCrlf(ext, i - k);
      }
    }
  }

  lemma PiecesAreChunks(ps: seq<Piece>)
    requires forall i :: 0 <= i < |ps| ==> PieceOk(ps[i])
    ensures forall i :: 0 <= i < |ChunksOf(ps)| ==> ChunkOk(ChunksOf(ps)[i])
  {
    hide ParseSize, NoCrlf, ExtensionsOk, SizeLine;
    forall i | 0 <= i < |ps| ensures ChunkOk(ChunksOf(ps)[i]) {
      assert PieceOk(ps[i]);
      SizeLineOk(|ps[i].data|, ps[i].upper, ps[i].ext);
    }
  }

  /** What a sender writes of any data and trailers, with any extensions and with
      anything behind it, is parsed back: the ranges hold the data, the spans are those of
      the trailers, and exactly the body is used up. */
  lemma BodyRoundTrip(ps: seq<Piece>, lastExt: seq<byte>, ts: seq<TrailerText>, rest: seq<byte>)
    requires (forall i :: 0 <= i < |ps| ==> PieceOk(ps[i])) && ExtensionsOk(lastExt)
    requires forall i :: 0 <= i < |ts| ==> TrailerOk(ts[i])
    ensures var src := SendBody(ps, lastExt, ts) + rest;
            var ranges, at := DataRanges(ChunksOf(ps), 0), |EncodeChunks(ChunksOf(ps))| + |SizeLine(0, false, lastExt)| + 2;
            && ParseBody(src) == Parsed((ranges, TrailerSpans(ts, at)), |SendBody(ps, lastExt, ts)|)
            && |ranges| == |ps|
            && (forall k :: 0 <= k < |ps| ==>
                  0 <= ranges[k].start <= ranges[k].end <= |src| && src[ranges[k].start..ranges[k].end] == ps[k].data)
  {
    hide ParseSize, ChunkOk, TrailerOk, NoCrlf, ParseBody, EncodeChunks, EncodeBody, DataRanges, TrailerSpans, SizeLine, ExtensionsOk, PieceOk;
    PiecesAreChunks(ps);
    SizeLineOk(0, false, lastExt);
    BodyParses(ChunksOf(ps), SizeLine(0, false, lastExt), ts, rest);
  }

  lemma BodyStands(cs: seq<ChunkText>, last: seq<byte>, ts: seq<TrailerText>, rest: seq<byte>)
    ensures var src := EncodeBody(cs, last, ts) + rest;
            var n := |EncodeChunks(cs)|;
            && Stands(src, 0, EncodeChunks(cs)) && Stands(src, n, last) && Stands(src, n + |last|, CRLF)
            && Stands(src, n + |last| + 2, EncodeTrailers(ts))
  {
    hide EncodeChunks, EncodeTrailers;
  }
}
