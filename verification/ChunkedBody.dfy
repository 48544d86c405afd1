/** The hand-written parser of chunked message bodies and their trailers
    (spansy/src/http/span.rs; section 7.1 of RFC 9112). */
module ChunkedBody {
  import opened Basics
  import opened Ranges
  import opened ChunkSize

  const CR: byte := 13
  const LF: byte := 10
  const COLON: byte := 58
  const CRLF: seq<byte> := [CR, LF]

  // ----- scanning -----

  predicate IsCrlf(s: seq<byte>, i: nat) { i + 2 <= |s| && s[i] == CR && s[i + 1] == LF }

  /** The first line end at `pos` or behind. */
  function FindCrlf(s: seq<byte>, pos: nat): (r: Option<nat>)
    requires pos <= |s|
    ensures r.Some? ==> pos <= r.value && IsCrlf(s, r.value)
    decreases |s| - pos
  {
    if IsCrlf(s, pos) then Some(pos) else if pos == |s| then None else FindCrlf(s, pos + 1)
  }

  function FindByte(s: seq<byte>, b: byte): (r: Option<nat>)
    ensures r.Some? ==> r.value < |s|
  {
    if s == [] then None
    else if s[0] == b then Some(0)
    else
      match FindByte(s[1..], b)
      case Some(i) => Some(i + 1)
      case None => None
  }

  predicate Space(b: byte) { b == 32 || b == 9 }

  /** Optional white space after the colon is skipped. */
  function SkipSpace(s: seq<byte>, i: nat): (r: nat)
    requires i <= |s|
    ensures i <= r <= |s|
    decreases |s| - i
  {
    if i < |s| && Space(s[i]) then SkipSpace(s, i + 1) else i
  }

  // ----- the parsers as functions -----

  datatype Error =
    | MissingCrlfAfterSize
    | InvalidSize
    | MissingCrlfAfterData
    | MissingCrlfInTrailer
    | MissingColon

  /** A parse fails with an error, or panics: a chunk that extends past the input, or
      a trailer name that is not UTF-8. */
  datatype Parse<+T> = Parsed(value: T, next: nat) | Bad(error: Error) | Panics

  /** Where the data of the chunks lies, from `pos` on. */
  function ChunksFrom(src: seq<byte>, pos: nat): (r: Parse<seq<Range>>)
    requires pos <= |src|
    ensures r.Parsed? ==> pos <= r.next <= |src|
    decreases |src| - pos
  {
    match FindCrlf(src, pos)
    case None => Bad(MissingCrlfAfterSize)
    case Some(i) =>
      match ParseSize(src[pos..i])
      case None => Bad(InvalidSize)
      case Some(n) =>
        if n == 0 then Parsed([], i + 2)
        else if i + 2 + n > |src| then Panics
        else if !IsCrlf(src, i + 2 + n) then Bad(MissingCrlfAfterData)
        else
          match ChunksFrom(src, i + 2 + n + 2)
          case Parsed(rest, next) => Parsed([Range(i + 2, i + 2 + n)] + rest, next)
          case Bad(e) => Bad(e)
          case Panics => Panics
  }

  /** A trailer: its name, its value, and the whole line. */
  datatype TrailerSpan = TrailerSpan(name: Range, value: Range, line: Range)

  function TrailersFrom(src: seq<byte>, pos: nat): (r: Parse<seq<TrailerSpan>>)
    requires pos <= |src|
    ensures r.Parsed? ==> pos <= r.next <= |src|
    decreases |src| - pos
  {
    if IsCrlf(src, pos) then Parsed([], pos + 2)
    else
      match FindCrlf(src, pos)
      case None => Bad(MissingCrlfInTrailer)
      case Some(i) =>
        var line := src[pos..i];
        match FindByte(line, COLON)
        case None => Bad(MissingColon)
        case Some(c) =>
          if !ValidUtf8(line[..c]) then Panics
          else
            var span := TrailerSpan(Range(pos, pos + c), Range(pos + SkipSpace(line, c + 1), i), Range(pos, i + 2));
            match TrailersFrom(src, i + 2)
            case Parsed(rest, next) => Parsed([span] + rest, next)
            case Bad(e) => Bad(e)
            case Panics => Panics
  }

  // ----- the encodings that they read -----

  predicate NoCrlf(s: seq<byte>) { forall i :: 0 <= i < |s| ==> !IsCrlf(s, i) }

  /** A chunk: its size line as it is written, and its data. */
  datatype ChunkText = ChunkText(line: seq<byte>, data: seq<byte>)

  predicate ChunkOk(c: ChunkText) { NoCrlf(c.line) && c.data != [] && ParseSize(c.line) == Some(|c.data|) }

  function EncodeChunk(c: ChunkText): seq<byte> { c.line + CRLF + c.data + CRLF }

  function EncodeChunks(cs: seq<ChunkText>): seq<byte> {
    if cs == [] then [] else EncodeChunk(cs[0]) + EncodeChunks(cs[1..])
  }

  datatype TrailerText = TrailerText(name: seq<byte>, blank: seq<byte>, value: seq<byte>)

  function TrailerLine(t: TrailerText): seq<byte> { t.name + [COLON] + t.blank + t.value }

  predicate TrailerOk(t: TrailerText) {
    && NoCrlf(TrailerLine(t)) && COLON !in t.name && ValidUtf8(t.name)
    && (forall i :: 0 <= i < |t.blank| ==> Space(t.blank[i])) && (t.value != [] ==> !Space(t.value[0]))
  }

  function EncodeTrailers(ts: seq<TrailerText>): seq<byte> {
    if ts == [] then CRLF else TrailerLine(ts[0]) + CRLF + EncodeTrailers(ts[1..])
  }

  /** Where the data of the chunks comes to lie in their encoding. */
  function DataRanges(cs: seq<ChunkText>, at: nat): seq<Range> {
    if cs == [] then []
    else
      var start := at + |cs[0].line| + 2;
      [Range(start, start + |cs[0].data|)] + DataRanges(cs[1..], start + |cs[0].data| + 2)
  }

  function TrailerSpans(ts: seq<TrailerText>, at: nat): seq<TrailerSpan> {
    if ts == [] then []
    else
      var line := TrailerLine(ts[0]);
      var value := at + |ts[0].name| + 1 + |ts[0].blank|;
      [TrailerSpan(Range(at, at + |ts[0].name|), Range(value, at + |line|), Range(at, at + |line| + 2))]
      + TrailerSpans(ts[1..], at + |line| + 2)
  }

  // ----- round trips -----

  /** `piece` stands in `s` at `pos`. */
  predicate Stands(s: seq<byte>, pos: nat, piece: seq<byte>) { pos + |piece| <= |s| && s[pos..pos + |piece|] == piece }

  lemma StandsApart(s: seq<byte>, pos: nat, a: seq<byte>, b: seq<byte>)
    requires Stands(s, pos, a + b)
    ensures Stands(s, pos, a) && Stands(s, pos + |a|, b)
  {
    assert s[pos..pos + |a + b|][..|a|] == a && s[pos..pos + |a + b|][|a|..] == b;
  }

  lemma {:induction false} FirstCrlf(s: seq<byte>, pos: nat, k: nat)
    requires pos <= k && IsCrlf(s, k) && forall i :: pos <= i < k ==> !IsCrlf(s, i)
    ensures FindCrlf(s, pos) == Some(k)
    decreases k - pos
  {
    if pos < k { FirstCrlf(s, pos + 1, k); }
  }

  /** A line without a line end in it is read up to the line end behind it. */
  lemma FindsLineEnd(s: seq<byte>, pos: nat, line: seq<byte>)
    requires Stands(s, pos, line) && Stands(s, pos + |line|, CRLF) && NoCrlf(line)
    ensures FindCrlf(s, pos) == Some(pos + |line|)
  {
    var end := pos + |line|;
    assert s[end] == s[end..end + 2][0] == CR && s[end + 1] == s[end..end + 2][1] == LF;
    forall i | pos <= i < end ensures !IsCrlf(s, i) {
      assert s[i] == line[i - pos];
      if i + 1 < end {
        assert s[i + 1] == line[i + 1 - pos];
        assert !IsCrlf(line, i - pos);
      }
    }
    FirstCrlf(s, pos, end);
  }

  lemma CrlfStands(s: seq<byte>, pos: nat)
    requires Stands(s, pos, CRLF)
    ensures IsCrlf(s, pos)
  {
  }

  lemma ChunkStands(s: seq<byte>, pos: nat, c: ChunkText)
    requires Stands(s, pos, EncodeChunk(c))
    ensures Stands(s, pos, c.line) && Stands(s, pos + |c.line|, CRLF)
    ensures Stands(s, pos + |c.line| + 2, c.data) && Stands(s, pos + |c.line| + 2 + |c.data|, CRLF)
  {
    StandsApart(s, pos, c.line + CRLF + c.data, CRLF);
    StandsApart(s, pos, c.line + CRLF, c.data);
    StandsApart(s, pos, c.line, CRLF);
  }

  function Prepend<T>(x: T, r: Parse<seq<T>>): Parse<seq<T>> {
    match r
    case Parsed(rest, next) => Parsed([x] + rest, next)
    case Bad(e) => Bad(e)
    case Panics => Panics
  }

  /** One chunk is read, and the rest behind it. */
  lemma OneChunk(s: seq<byte>, pos: nat, line: seq<byte>, n: nat)
    requires Stands(s, pos, line) && FindCrlf(s, pos) == Some(pos + |line|) && ParseSize(line) == Some(n)
    requires n > 0 ==> IsCrlf(s, pos + |line| + 2 + n)
    ensures n == 0 ==> ChunksFrom(s, pos) == Parsed([], pos + |line| + 2)
    ensures n > 0 ==> ChunksFrom(s, pos) == Prepend(Range(pos + |line| + 2, pos + |line| + 2 + n), ChunksFrom(s, pos + |line| + 2 + n + 2))
  {
    hide ParseSize, FindCrlf;
  }

  lemma ChunksUnfold(cs: seq<ChunkText>, pos: nat)
    requires cs != []
    ensures EncodeChunks(cs) == EncodeChunk(cs[0]) + EncodeChunks(cs[1..])
    ensures |EncodeChunk(cs[0])| == |cs[0].line| + 2 + |cs[0].data| + 2
    ensures var start := pos + |cs[0].line| + 2;
            DataRanges(cs, pos) == [Range(start, start + |cs[0].data|)] + DataRanges(cs[1..], start + |cs[0].data| + 2)
  {
  }

  /** The chunks come back from where they stand, whatever is around them: the last
      chunk's line says zero. */
  lemma {:induction false} ChunksRoundTrip(s: seq<byte>, pos: nat, cs: seq<ChunkText>, last: seq<byte>)
    requires (forall i :: 0 <= i < |cs| ==> ChunkOk(cs[i])) && NoCrlf(last) && ParseSize(last) == Some(0)
    requires Stands(s, pos, EncodeChunks(cs)) && Stands(s, pos + |EncodeChunks(cs)|, last)
    requires Stands(s, pos + |EncodeChunks(cs)| + |last|, CRLF)
    ensures pos <= |s| && ChunksFrom(s, pos) == Parsed(DataRanges(cs, pos), pos + |EncodeChunks(cs)| + |last| + 2)
    decreases |cs|
  {
    hide ParseSize, Stands, NoCrlf, FindCrlf, ChunksFrom, EncodeChunks, EncodeChunk, DataRanges, IsCrlf, ChunkOk;
    LineRead(s, pos, EncodeChunks(cs));
    if cs == [] {
      NoChunks(pos);
      FindsLineEnd(s, pos, last);
      OneChunk(s, pos, last, 0);
    } else {
      var c := cs[0];
      var end := pos + |c.line| + 2 + |c.data|;
      ChunkFacts(c);
      ChunksUnfold(cs, pos);
      StandsApart(s, pos, EncodeChunk(c), EncodeChunks(cs[1..]));
      ChunkStands(s, pos, c);
      FindsLineEnd(s, pos, c.line);
      CrlfStands(s, end);
      LineRead(s, pos, c.line);
      OneChunk(s, pos, c.line, |c.data|);
      ChunksRoundTrip(s, end + 2, cs[1..], last);
    }
  }

  lemma NoChunks(pos: nat)
    ensures EncodeChunks([]) == [] && DataRanges([], pos) == []
  {
  }

  lemma ChunkFacts(c: ChunkText)
    requires ChunkOk(c)
    ensures NoCrlf(c.line) && ParseSize(c.line) == Some(|c.data|) && |c.data| > 0
  {
  }

  lemma LineRead(s: seq<byte>, pos: nat, line: seq<byte>)
    requires Stands(s, pos, line)
    ensures pos + |line| <= |s| && s[pos..pos + |line|] == line
  {
  }

  /** Each range holds the bytes of its chunk. */
  lemma {:induction false} DataIsThere(s: seq<byte>, pos: nat, cs: seq<ChunkText>, k: nat)
    requires k < |cs| && Stands(s, pos, EncodeChunks(cs))
    ensures |DataRanges(cs, pos)| == |cs|
    ensures var r := DataRanges(cs, pos)[k]; pos <= r.start <= r.end <= |s| && s[r.start..r.end] == cs[k].data
    decreases |cs|
  {
    var c := cs[0];
    StandsApart(s, pos, EncodeChunk(c), EncodeChunks(cs[1..]));
    ChunkStands(s, pos, c);
    DataRangesCount(cs[1..], pos + |EncodeChunk(c)|);
    if k > 0 { DataIsThere(s, pos + |EncodeChunk(c)|, cs[1..], k - 1); }
  }

  lemma {:induction false} DataRangesCount(cs: seq<ChunkText>, at: nat)
    ensures |DataRanges(cs, at)| == |cs|
    decreases |cs|
  {
    if cs != [] { DataRangesCount(cs[1..], at + |cs[0].line| + 2 + |cs[0].data| + 2); }
  }

  lemma {:induction false} FindsColon(name: seq<byte>, rest: seq<byte>)
    requires COLON !in name
    ensures FindByte(name + [COLON] + rest, COLON) == Some(|name|)
  {
    if name != [] {
      assert (name + [COLON] + rest)[1..] == name[1..] + [COLON] + rest;
      FindsColon(name[1..], rest);
    }
  }

  lemma {:induction false} SkipsBlank(s: seq<byte>, i: nat, j: nat)
    requires i <= j <= |s| && (forall k :: i <= k < j ==> Space(s[k])) && (j < |s| ==> !Space(s[j]))
    ensures SkipSpace(s, i) == j
    decreases j - i
  {
    if i < j { SkipsBlank(s, i + 1, j); }
  }

  lemma TrailerParts(t: TrailerText)
    requires TrailerOk(t)
    ensures var line := TrailerLine(t);
            && FindByte(line, COLON) == Some(|t.name|) && line[..|t.name|] == t.name && line[|t.name|] == COLON
            && SkipSpace(line, |t.name| + 1) == |t.name| + 1 + |t.blank|
  {
    var line := TrailerLine(t);
    assert line == t.name + [COLON] + (t.blank + t.value);
    FindsColon(t.name, t.blank + t.value);
    forall k | |t.name| + 1 <= k < |t.name| + 1 + |t.blank| ensures Space(line[k]) {
      assert line[k] == t.blank[k - |t.name| - 1];
    }
    SkipsBlank(line, |t.name| + 1, |t.name| + 1 + |t.blank|);
  }

  lemma NotAtLineEnd(s: seq<byte>, pos: nat, line: seq<byte>)
    requires Stands(s, pos, line) && NoCrlf(line) && COLON in line
    ensures !IsCrlf(s, pos)
  {
    assert s[pos] == line[0];
    if |line| > 1 {
      assert s[pos + 1] == line[1];
      assert !IsCrlf(line, 0);
    }
  }

  /** One trailer is read, and the rest behind it. */
  lemma OneTrailer(s: seq<byte>, pos: nat, line: seq<byte>, c: nat)
    requires Stands(s, pos, line) && FindCrlf(s, pos) == Some(pos + |line|) && !IsCrlf(s, pos)
    requires FindByte(line, COLON) == Some(c) && ValidUtf8(line[..c])
    ensures var span := TrailerSpan(Range(pos, pos + c), Range(pos + SkipSpace(line, c + 1), pos + |line|), Range(pos, pos + |line| + 2));
            TrailersFrom(s, pos) == Prepend(span, TrailersFrom(s, pos + |line| + 2))
  {
    hide ValidUtf8, FindCrlf, FindByte, SkipSpace;
  }

  lemma TrailersUnfold(ts: seq<TrailerText>, pos: nat)
    requires ts != []
    ensures EncodeTrailers(ts) == (TrailerLine(ts[0]) + CRLF) + EncodeTrailers(ts[1..])
    ensures var line := TrailerLine(ts[0]);
            var value := pos + |ts[0].name| + 1 + |ts[0].blank|;
            TrailerSpans(ts, pos)
            == [TrailerSpan(Range(pos, pos + |ts[0].name|), Range(value, pos + |line|), Range(pos, pos + |line| + 2))]
               + TrailerSpans(ts[1..], pos + |line| + 2)
  {
  }

  /** The trailers come back from where they stand. */
  lemma {:induction false} TrailersRoundTrip(s: seq<byte>, pos: nat, ts: seq<TrailerText>)
    requires (forall i :: 0 <= i < |ts| ==> TrailerOk(ts[i])) && Stands(s, pos, EncodeTrailers(ts))
    ensures pos <= |s| && TrailersFrom(s, pos) == Parsed(TrailerSpans(ts, pos), pos + |EncodeTrailers(ts)|)
    decreases |ts|
  {
    hide ValidUtf8, Stands, NoCrlf, FindCrlf, FindByte, SkipSpace, TrailersFrom, EncodeTrailers, TrailerSpans, TrailerOk,
         TrailerLine, IsCrlf;
    LineRead(s, pos, EncodeTrailers(ts));
    if ts == [] {
      NoTrailers(s, pos);
    } else {
      var t := ts[0];
      var line := TrailerLine(t);
      TrailersUnfold(ts, pos);
      TrailerParts(t);
      TrailerFacts(t);
      StandsApart(s, pos, line + CRLF, EncodeTrailers(ts[1..]));
      StandsApart(s, pos, line, CRLF);
      LineRead(s, pos + |line|, CRLF);
      NotAtLineEnd(s, pos, line);
      FindsLineEnd(s, pos, line);
      OneTrailer(s, pos, line, |t.name|);
      TrailersRoundTrip(s, pos + |line| + 2, ts[1..]);
    }
  }

  lemma NoTrailers(s: seq<byte>, pos: nat)
    requires Stands(s, pos, EncodeTrailers([]))
    ensures TrailersFrom(s, pos) == Parsed(TrailerSpans([], pos), pos + |EncodeTrailers([])|)
  {
  }

  lemma TrailerFacts(t: TrailerText)
    requires TrailerOk(t)
    ensures NoCrlf(TrailerLine(t)) && ValidUtf8(t.name) && COLON in TrailerLine(t)
  {
  }

  // ----- nothing else is accepted -----

  lemma {:induction false} NoCrlfBefore(s: seq<byte>, pos: nat, i: nat)
    requires pos <= |s| && FindCrlf(s, pos) == Some(i)
    ensures forall k :: pos <= k < i ==> !IsCrlf(s, k)
    decreases |s| - pos
  {
    if !IsCrlf(s, pos) { NoCrlfBefore(s, pos + 1, i); }
  }

  /** The line before a line end has none in it. */
  lemma LineHasNone(s: seq<byte>, pos: nat, i: nat)
    requires pos <= |s| && FindCrlf(s, pos) == Some(i)
    ensures pos <= i <= |s| - 2 && NoCrlf(s[pos..i]) && s[i..i + 2] == CRLF
  {
    NoCrlfBefore(s, pos, i);
    var line := s[pos..i];
    forall k | 0 <= k < |line| ensures !IsCrlf(line, k) {
      assert !IsCrlf(s, pos + k);
    }
  }

  /** Whatever is parsed as chunks is an encoding of chunks. */
  lemma {:induction false} ChunksAreEncoded(s: seq<byte>, pos: nat) returns (cs: seq<ChunkText>, last: seq<byte>)
    requires pos <= |s| && ChunksFrom(s, pos).Parsed?
    ensures (forall i :: 0 <= i < |cs| ==> ChunkOk(cs[i])) && NoCrlf(last) && ParseSize(last) == Some(0)
    ensures ChunksFrom(s, pos).value == DataRanges(cs, pos) && s[pos..ChunksFrom(s, pos).next] == EncodeChunks(cs) + last + CRLF
    decreases |s| - pos
  {
    hide ParseSize, NoCrlf, FindCrlf;
    var i := FindCrlf(s, pos).value;
    var line := s[pos..i];
    LineHasNone(s, pos, i);
    var n := ParseSize(line).value;
    if n == 0 {
      cs, last := [], line;
      assert s[pos..i + 2] == line + s[i..i + 2];
      assert EncodeChunks(cs) + last == last;
    } else {
      var c := ChunkText(line, s[i + 2..i + 2 + n]);
      var later;
      later, last := ChunksAreEncoded(s, i + 2 + n + 2);
      cs := [c] + later;
      OneMoreChunk(s, pos, i, n, ChunksFrom(s, i + 2 + n + 2).next, c, later, last);
    }
  }

  lemma OneMoreChunk(s: seq<byte>, pos: nat, i: nat, n: nat, next: nat, c: ChunkText, later: seq<ChunkText>, last: seq<byte>)
    requires pos <= i && n > 0 && i + 2 + n + 2 <= next <= |s| && s[i..i + 2] == CRLF && IsCrlf(s, i + 2 + n)
    requires c == ChunkText(s[pos..i], s[i + 2..i + 2 + n]) && s[i + 2 + n + 2..next] == EncodeChunks(later) + last + CRLF
    ensures s[pos..next] == EncodeChunks([c] + later) + last + CRLF
    ensures DataRanges([c] + later, pos) == [Range(i + 2, i + 2 + n)] + DataRanges(later, i + 2 + n + 2)
  {
    var end := i + 2 + n;
    assert ([c] + later)[1..] == later;
    assert s[end..end + 2] == CRLF;
    assert s[pos..next] == s[pos..i] + s[i..i + 2] + s[i + 2..end] + s[end..end + 2] + s[end + 2..next];
    assert EncodeChunk(c) == s[pos..i] + s[i..i + 2] + s[i + 2..end] + s[end..end + 2];
    hide EncodeChunks, EncodeChunk, DataRanges;
    ChunksUnfold([c] + later, pos);
  }

  lemma {:induction false} ColonIsFirst(line: seq<byte>, c: nat)
    requires FindByte(line, COLON) == Some(c)
    ensures line[c] == COLON && COLON !in line[..c]
  {
    if line[0] != COLON {
      ColonIsFirst(line[1..], c - 1);
      assert line[..c] == [line[0]] + line[1..][..c - 1];
    }
  }

  lemma {:induction false} SkippedIsBlank(s: seq<byte>, i: nat)
    requires i <= |s|
    ensures var j := SkipSpace(s, i); (forall k :: i <= k < j ==> Space(s[k])) && (j < |s| ==> !Space(s[j]))
    decreases |s| - i
  {
    if i < |s| && Space(s[i]) { SkippedIsBlank(s, i + 1); }
  }

  lemma TrailerOf(line: seq<byte>, c: nat) returns (t: TrailerText)
    requires NoCrlf(line) && FindByte(line, COLON) == Some(c) && ValidUtf8(line[..c])
    ensures TrailerOk(t) && TrailerLine(t) == line && |t.name| == c && c + 1 + |t.blank| == SkipSpace(line, c + 1)
  {
    ColonIsFirst(line, c);
    SkippedIsBlank(line, c + 1);
    var j := SkipSpace(line, c + 1);
    t := TrailerText(line[..c], line[c + 1..j], line[j..]);
    assert line == line[..c] + [line[c]] + line[c + 1..j] + line[j..];
  }

  /** Whatever is parsed as trailers is an encoding of trailers. */
  lemma {:induction false} TrailersAreEncoded(s: seq<byte>, pos: nat) returns (ts: seq<TrailerText>)
    requires pos <= |s| && TrailersFrom(s, pos).Parsed?
    ensures forall i :: 0 <= i < |ts| ==> TrailerOk(ts[i])
    ensures TrailersFrom(s, pos).value == TrailerSpans(ts, pos) && s[pos..TrailersFrom(s, pos).next] == EncodeTrailers(ts)
    decreases |s| - pos
  {
    hide ValidUtf8, NoCrlf, FindCrlf, FindByte, SkipSpace, TrailerOk, TrailerLine;
    if IsCrlf(s, pos) {
      ts := [];
      assert s[pos..pos + 2] == CRLF;
    } else {
      var i := FindCrlf(s, pos).value;
      var line := s[pos..i];
      LineHasNone(s, pos, i);
      var t := TrailerOf(line, FindByte(line, COLON).value);
      var later := TrailersAreEncoded(s, i + 2);
      ts := [t] + later;
      OneMoreTrailer(s, pos, i, TrailersFrom(s, i + 2).next, t, later);
    }
  }

  lemma OneMoreTrailer(s: seq<byte>, pos: nat, i: nat, next: nat, t: TrailerText, later: seq<TrailerText>)
    requires pos <= i && i + 2 <= next <= |s| && s[i..i + 2] == CRLF && TrailerLine(t) == s[pos..i]
    requires s[i + 2..next] == EncodeTrailers(later)
    ensures s[pos..next] == EncodeTrailers([t] + later)
    ensures TrailerSpans([t] + later, pos)
            == [TrailerSpan(Range(pos, pos + |t.name|), Range(pos + |t.name| + 1 + |t.blank|, i), Range(pos, i + 2))] + TrailerSpans(later, i + 2)
  {
    hide EncodeTrailers, TrailerSpans, TrailerLine;
    assert ([t] + later)[1..] == later;
    TrailersUnfold([t] + later, pos);
    assert s[pos..next] == (s[pos..i] + s[i..i + 2]) + s[i + 2..next];
  }

  // ----- why a parse fails -----

  lemma {:induction false} NoCrlfAtAll(s: seq<byte>, pos: nat)
    requires pos <= |s| && FindCrlf(s, pos).None?
    ensures NoCrlf(s[pos..])
    decreases |s| - pos
  {
    if pos < |s| {
      NoCrlfAtAll(s, pos + 1);
      forall k | 0 <= k < |s[pos..]| ensures !IsCrlf(s[pos..], k) {
        if k > 0 { assert !IsCrlf(s[pos + 1..], k - 1); }
      }
    }
  }

  /** Behind the chunks that were read, `line` is the next size line and `i` its end. */
  ghost predicate ChunkFails(s: seq<byte>, at: nat, i: nat, r: Parse<seq<Range>>) {
    if r == Bad(MissingCrlfAfterSize) then at <= |s| && NoCrlf(s[at..])
    else
      && at <= i <= |s| - 2 && NoCrlf(s[at..i]) && s[i..i + 2] == CRLF
      && var size := ParseSize(s[at..i]);
         match r
         case Bad(InvalidSize) => size.None?
         case Bad(MissingCrlfAfterData) => size.Some? && size.value > 0 && i + 2 + size.value <= |s| && !IsCrlf(s, i + 2 + size.value)
         case Panics => size.Some? && i + 2 + size.value > |s|
         case _ => false
  }

  lemma ChunkInFront(s: seq<byte>, pos: nat, line: nat, end: nat, at: nat, later: seq<ChunkText>) returns (cs: seq<ChunkText>)
    requires pos <= line && line + 2 < end && end + 2 <= at <= |s| && NoCrlf(s[pos..line]) && s[line..line + 2] == CRLF && IsCrlf(s, end)
    requires ParseSize(s[pos..line]) == Some(end - line - 2) && s[end + 2..at] == EncodeChunks(later)
    requires forall k :: 0 <= k < |later| ==> ChunkOk(later[k])
    ensures s[pos..at] == EncodeChunks(cs) && forall k :: 0 <= k < |cs| ==> ChunkOk(cs[k])
  {
    hide ParseSize, NoCrlf;
    var c := ChunkText(s[pos..line], s[line + 2..end]);
    assert s[end..end + 2] == CRLF;
    assert s[pos..end + 2] == s[pos..line] + s[line..line + 2] + s[line + 2..end] + s[end..end + 2];
    assert s[pos..at] == s[pos..end + 2] + s[end + 2..at];
    assert ([c] + later)[1..] == later;
    cs := [c] + later;
  }

  /** A parse of chunks that fails has read some, and met a size line without an end, or
      without a size, or data without a line end behind it; it panics on data that would end
      beyond the input. */
  lemma {:induction false} ChunksFailAt(s: seq<byte>, pos: nat) returns (cs: seq<ChunkText>, at: nat, i: nat)
    requires pos <= |s| && !ChunksFrom(s, pos).Parsed?
    ensures (forall k :: 0 <= k < |cs| ==> ChunkOk(cs[k])) && pos <= at <= |s| && s[pos..at] == EncodeChunks(cs)
    ensures ChunkFails(s, at, i, ChunksFrom(s, pos))
    decreases |s| - pos
  {
    hide ParseSize, NoCrlf, FindCrlf, ChunkOk, EncodeChunk;
    cs, at, i := [], pos, pos;
    if FindCrlf(s, pos).None? {
      NoCrlfAtAll(s, pos);
    } else {
      i := FindCrlf(s, pos).value;
      LineHasNone(s, pos, i);
      var size := ParseSize(s[pos..i]);
      if size.Some? && i + 2 + size.value <= |s| && IsCrlf(s, i + 2 + size.value) {
        var end, line := i + 2 + size.value, i;
        cs, at, i := ChunksFailAt(s, end + 2);
        cs := ChunkInFront(s, pos, line, end, at, cs);
      }
    }
  }

  /** Behind the trailers that were read, `i` is the end of the next line. */
  ghost predicate TrailerFails(s: seq<byte>, at: nat, i: nat, r: Parse<seq<TrailerSpan>>) {
    if r == Bad(MissingCrlfInTrailer) then at <= |s| && NoCrlf(s[at..])
    else
      && at < i <= |s| - 2 && NoCrlf(s[at..i]) && s[i..i + 2] == CRLF
      && var line := s[at..i];
         match r
         case Bad(MissingColon) => COLON !in line
         case Panics => exists c :: 0 <= c < |line| && line[c] == COLON && COLON !in line[..c] && !ValidUtf8(line[..c])
         case _ => false
  }

  lemma {:induction false} NoColon(line: seq<byte>)
    requires FindByte(line, COLON).None?
    ensures COLON !in line
  {
    if line != [] { NoColon(line[1..]); }
  }

  lemma TrailerInFront(s: seq<byte>, pos: nat, end: nat, at: nat, t: TrailerText, later: seq<TrailerText>)
    requires pos <= end && end + 2 <= at <= |s| && TrailerLine(t) == s[pos..end] && s[end..end + 2] == CRLF
    requires s[end + 2..at] + CRLF == EncodeTrailers(later)
    ensures s[pos..at] + CRLF == EncodeTrailers([t] + later)
  {
    hide TrailerLine;
    assert s[pos..at] == s[pos..end] + s[end..end + 2] + s[end + 2..at];
    assert (TrailerLine(t) + CRLF + s[end + 2..at]) + CRLF == TrailerLine(t) + CRLF + (s[end + 2..at] + CRLF);
    assert ([t] + later)[1..] == later;
  }

  /** A parse of trailers that fails has read some, and met a line without an end, or without
      a colon; it panics on a name that is not UTF-8. */
  lemma {:induction false} TrailersFailAt(s: seq<byte>, pos: nat) returns (ts: seq<TrailerText>, at: nat, i: nat)
    requires pos <= |s| && !TrailersFrom(s, pos).Parsed?
    ensures (forall k :: 0 <= k < |ts| ==> TrailerOk(ts[k])) && pos <= at <= |s| && s[pos..at] + CRLF == EncodeTrailers(ts)
    ensures TrailerFails(s, at, i, TrailersFrom(s, pos))
    decreases |s| - pos
  {
    hide ValidUtf8, NoCrlf, FindCrlf, FindByte, SkipSpace, TrailerOk, TrailerLine;
    ts, at, i := [], pos, pos;
    if FindCrlf(s, pos).None? {
      NoCrlfAtAll(s, pos);
    } else {
      i := FindCrlf(s, pos).value;
      LineHasNone(s, pos, i);
      var line := s[pos..i];
      var c := FindByte(line, COLON);
      if c.None? {
        NoColon(line);
      } else {
        ColonIsFirst(line, c.value);
        if ValidUtf8(line[..c.value]) {
          var end := i;
          var t := TrailerOf(line, c.value);
          ts, at, i := TrailersFailAt(s, end + 2);
          TrailerInFront(s, pos, end, at, t, ts);
          ts := [t] + ts;
        }
      }
    }
  }
}
