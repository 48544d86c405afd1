/** The byte form of frames (mux/mux/src/frame/header.rs), and the stream of frames
    that a stream of bytes stands for. */
module Codec {
  import opened Basics
  import opened Frames

  // ----- numbers as bytes, most significant first -----

  function Pow256(k: nat): nat { if k == 0 then 1 else 256 * Pow256(k - 1) }

  function ToBytes(n: nat, k: nat): (s: seq<byte>)
    ensures |s| == k
  {
    if k == 0 then [] else ToBytes(n / 256, k - 1) + [n % 256]
  }

  function FromBytes(s: seq<byte>): nat {
    if s == [] then 0 else FromBytes(s[..|s| - 1]) * 256 + s[|s| - 1]
  }

  lemma {:induction false} FromToBytes(n: nat, k: nat)
    requires n < Pow256(k)
    ensures FromBytes(ToBytes(n, k)) == n
  {
    if k > 0 {
      FromToBytes(n / 256, k - 1);
      assert ToBytes(n, k)[..k - 1] == ToBytes(n / 256, k - 1);
    }
  }

  lemma {:induction false} ToFromBytes(s: seq<byte>)
    ensures ToBytes(FromBytes(s), |s|) == s && FromBytes(s) < Pow256(|s|)
  {
    if s != [] {
      ToFromBytes(s[..|s| - 1]);
      assert s == s[..|s| - 1] + [s[|s| - 1]];
    }
  }

  lemma Sizes()
    ensures Pow256(4) == U32_MAX + 1 && Pow256(8) == 0x1_0000_0000_0000_0000
  {
  }

  // ----- headers -----

  function TagByte(t: Tag): byte {
    match t
    case Data => 0
    case WindowUpdate => 1
    case Ping => 2
    case GoAway => 3
  }

  function Bit(b: bool): byte { if b then 1 else 0 }

  function FlagByte(f: Flags): byte
    requires 0 <= f.high < 16
  {
    Bit(f.fin) + 2 * Bit(f.rst) + 4 * Bit(f.syn) + 8 * Bit(f.ack) + 16 * f.high
  }

  function FlagsOf(b: byte): Flags {
    Flags(b % 2 == 1, b / 2 % 2 == 1, b / 4 % 2 == 1, b / 8 % 2 == 1, b / 16)
  }

  function HeaderBytes(h: Header): (s: seq<byte>)
    requires WellFormedHeader(h)
    ensures |s| == HEADER_SIZE
  {
    [TagByte(h.tag), FlagByte(h.flags)] + ToBytes(h.length, 4) + ToBytes(h.id, 8)
  }

  datatype Decoded = Ok(header: Header) | UnknownType(t: byte)

  function DecodeHeader(s: seq<byte>): Decoded
    requires |s| == HEADER_SIZE
  {
    var flags, length := FlagsOf(s[1]), FromBytes(s[2..6]);
    ToFromBytes(s[6..14]);
    Sizes();
    var id: StreamId := FromBytes(s[6..14]);
    if s[0] == 0 then Ok(Header(Data, flags, length, id))
    else if s[0] == 1 then Ok(Header(WindowUpdate, flags, length, id))
    else if s[0] == 2 then Ok(Header(Ping, flags, length, id))
    else if s[0] == 3 then Ok(Header(GoAway, flags, length, id))
    else UnknownType(s[0])
  }

  lemma FlagsRoundTrip(f: Flags)
    requires 0 <= f.high < 16
    ensures FlagsOf(FlagByte(f)) == f
  {
    var n := FlagByte(f);
    assert n / 2 == Bit(f.rst) + 2 * Bit(f.syn) + 4 * Bit(f.ack) + 8 * f.high;
    assert n / 4 == Bit(f.syn) + 2 * Bit(f.ack) + 4 * f.high;
    assert n / 8 == Bit(f.ack) + 2 * f.high;
    assert n / 16 == f.high;
  }

  lemma FlagByteRoundTrip(b: byte)
    ensures FlagByte(FlagsOf(b)) == b
  {
    assert b == 2 * (b / 2) + b % 2;
    assert b / 2 == 2 * (b / 4) + b / 2 % 2;
    assert b / 4 == 2 * (b / 8) + b / 4 % 2;
    assert b / 8 == 2 * (b / 16) + b / 8 % 2;
  }

  lemma DecodeAfterEncode(h: Header)
    requires WellFormedHeader(h)
    ensures DecodeHeader(HeaderBytes(h)) == Ok(h)
  {
    var s := HeaderBytes(h);
    assert s[2..6] == ToBytes(h.length, 4) && s[6..14] == ToBytes(h.id, 8);
    Sizes();
    FromToBytes(h.length, 4);
    FromToBytes(h.id, 8);
    FlagsRoundTrip(h.flags);
  }

  /** Every 14 bytes with a known type byte are the encoding of one header. */
  lemma EncodeAfterDecode(s: seq<byte>)
    requires |s| == HEADER_SIZE
    ensures DecodeHeader(s).Ok? <==> s[0] < 4
    ensures DecodeHeader(s).Ok? ==> WellFormedHeader(DecodeHeader(s).header) && HeaderBytes(DecodeHeader(s).header) == s
  {
    Sizes();
    ToFromBytes(s[2..6]);
    ToFromBytes(s[6..14]);
    FlagByteRoundTrip(s[1]);
    assert s == [s[0], s[1]] + s[2..6] + s[6..14];
  }

  /** Fill a buffer, field by field. */
  method Encode(h: Header) returns (buf: array<byte>)
    requires WellFormedHeader(h)
    ensures fresh(buf) && buf[..] == HeaderBytes(h)
  {
    buf := new byte[HEADER_SIZE](_ => 0);
    buf[0] := TagByte(h.tag);
    buf[1] := FlagByte(h.flags);
    ghost var s := HeaderBytes(h);
    var length, id := ToBytes(h.length, 4), ToBytes(h.id, 8);
    for i := 0 to 4
      invariant buf[..2 + i] == s[..2 + i]
    {
      buf[2 + i] := length[i];
    }
    for i := 0 to 8
      invariant buf[..6 + i] == s[..6 + i]
    {
      buf[6 + i] := id[i];
    }
    assert buf[..14] == buf[..];
  }

  // ----- frames -----

  function FrameBytes(f: Frame): seq<byte>
    requires WellFormed(f)
  {
    HeaderBytes(f.header) + f.body
  }

  /** The bytes on the wire: type, flags, and the length with its highest byte first; then
      the id and the body. */
  lemma WireLayout(f: Frame)
    requires WellFormed(f)
    ensures var s := FrameBytes(f);
            && |s| == 14 + |f.body| && s[14..] == f.body && FromBytes(s[6..14]) == f.header.id
            && f.header.length == HighestFirst(s[2], s[3], s[4], s[5])
            && (f.header.tag.Data? <==> s[0] == 0) && (f.header.tag.WindowUpdate? <==> s[0] == 1)
            && (f.header.tag.Ping? <==> s[0] == 2) && (f.header.tag.GoAway? <==> s[0] == 3)
            && (f.header.flags == NO_FLAGS <==> s[1] == 0) && (f.header.flags == NO_FLAGS.(fin := true) <==> s[1] == 1)
            && (f.header.flags == NO_FLAGS.(rst := true) <==> s[1] == 2) && (f.header.flags == NO_FLAGS.(syn := true) <==> s[1] == 4)
            && (f.header.flags == NO_FLAGS.(ack := true) <==> s[1] == 8)
  {
    var h := f.header;
    Sizes();
    assert Pow256(4) == 0x1_0000_0000 && Pow256(8) == 0x1_0000_0000_0000_0000;
    FromToBytes(h.length, 4);
    FromToBytes(h.id, 8);
    var s := FrameBytes(f);
    assert s[6..14] == ToBytes(h.id, 8) && s[2..6] == ToBytes(h.length, 4);
    FourBytes(s[2..6]);
  }

  /** The frames that a peer sends, by type and flags. */
  lemma KindsOnTheWire(id: StreamId, body: seq<byte>, n: int)
    requires |body| <= MAX_BODY && 0 <= n <= U32_MAX
    ensures FrameBytes(DataFrame(id, body, false))[..2] == [0, 0] && FrameBytes(DataFrame(id, body, true))[..2] == [0, 4]
    ensures FrameBytes(FinFrame(id))[..2] == [0, 1] && FrameBytes(RstFrame(id))[..2] == [0, 2]
    ensures FrameBytes(CreditFrame(id, n))[..2] == [1, 0] && CreditFrame(id, n).header.length == n
    ensures FrameBytes(PingFrame(n))[..2] == [2, 4] && FrameBytes(PongFrame(n))[..2] == [2, 8]
    ensures FrameBytes(TERM)[..6] == [3, 0, 0, 0, 0, 0] && FrameBytes(PROTOCOL_ERROR)[..6] == [3, 0, 0, 0, 0, 1]
  {
    hide ToBytes;
    WireLayout(TERM);
    WireLayout(PROTOCOL_ERROR);
    SmallCode(FrameBytes(TERM), 0);
    SmallCode(FrameBytes(PROTOCOL_ERROR), 1);
  }

  lemma SmallCode(s: seq<byte>, n: byte)
    requires |s| >= 6 && HighestFirst(s[2], s[3], s[4], s[5]) == n && n < 2 && s[0] == 3 && s[1] == 0
    ensures s[..6] == [3, 0, 0, 0, 0, n]
  {
  }

  function HighestFirst(a: int, b: int, c: int, d: int): int { a * 0x100_0000 + b * 0x1_0000 + c * 0x100 + d }

  lemma FourBytes(s: seq<byte>)
    requires |s| == 4
    ensures FromBytes(s) == HighestFirst(s[0], s[1], s[2], s[3])
  {
    var a: int, b: int, c: int := s[0], s[1], s[2];
    assert s[..3][..2] == s[..2] && s[..2][..1] == s[..1] && s[..1][..0] == [];
    assert FromBytes(s[..1]) == a && FromBytes(s[..2]) == a * 256 + b;
    assert FromBytes(s[..3]) == (a * 256 + b) * 256 + c;
  }

  function EncodeAll(fs: seq<Frame>): seq<byte>
    requires forall i :: 0 <= i < |fs| ==> WellFormed(fs[i])
  {
    if fs == [] then [] else FrameBytes(fs[0]) + EncodeAll(fs[1..])
  }

  lemma {:induction false} EncodeAllSnoc(fs: seq<Frame>, f: Frame)
    requires (forall i :: 0 <= i < |fs| ==> WellFormed(fs[i])) && WellFormed(f)
    ensures EncodeAll(fs + [f]) == EncodeAll(fs) + FrameBytes(f)
  {
    if fs == [] {
      assert [f][1..] == [];
    } else {
      assert (fs + [f])[1..] == fs[1..] + [f];
      EncodeAllSnoc(fs[1..], f);
    }
  }

  // ----- what a reader makes of bytes -----

  datatype Parsed = Whole(frame: Frame, used: nat) | Short | BadType(t: byte) | TooLarge(length: int)

  /** The first frame of a stream of bytes. */
  function ParseFrame(s: seq<byte>): (p: Parsed)
    ensures p.Whole? ==> HEADER_SIZE <= p.used <= |s|
  {
    if |s| < HEADER_SIZE then Short
    else
      match DecodeHeader(s[..HEADER_SIZE])
      case UnknownType(t) => BadType(t)
      case Ok(h) =>
        if !h.tag.Data? then Whole(Frame(h, []), HEADER_SIZE)
        else if h.length > MAX_BODY then TooLarge(h.length)
        else if |s| < HEADER_SIZE + h.length then Short
        else Whole(Frame(h, s[HEADER_SIZE..HEADER_SIZE + h.length]), HEADER_SIZE + h.length)
  }

  /** How a stream of bytes ends: cleanly between frames, or in the middle of one. */
  datatype Ending = Clean | UnexpectedEof | Refused(why: Parsed)

  datatype Reading = Stream(frames: seq<Frame>, ending: Ending)

  function DecodeStream(s: seq<byte>): Reading
    decreases |s|
  {
    if s == [] then Stream([], Clean)
    else
      match ParseFrame(s)
      case Short => Stream([], UnexpectedEof)
      case Whole(f, n) =>
        var rest := DecodeStream(s[n..]);
        Stream([f] + rest.frames, rest.ending)
      case BadType(t) => Stream([], Refused(BadType(t)))
      case TooLarge(n) => Stream([], Refused(TooLarge(n)))
  }

  lemma ParseWhole(f: Frame, rest: seq<byte>)
    requires WellFormed(f)
    ensures ParseFrame(FrameBytes(f) + rest) == Whole(f, |FrameBytes(f)|)
  {
    var s := FrameBytes(f) + rest;
    assert s[..HEADER_SIZE] == HeaderBytes(f.header);
    DecodeAfterEncode(f.header);
    assert s[HEADER_SIZE..HEADER_SIZE + |f.body|] == f.body;
  }

  lemma ParseCut(f: Frame, k: nat)
    requires WellFormed(f) && k < |FrameBytes(f)|
    ensures ParseFrame(FrameBytes(f)[..k]) == Short
  {
    if k >= HEADER_SIZE {
      assert FrameBytes(f)[..k][..HEADER_SIZE] == HeaderBytes(f.header);
      DecodeAfterEncode(f.header);
    }
  }

  /** Every list of frames comes back from its encoding; a stream that is cut inside
      a frame gives the frames before the cut and an error. */
  lemma {:induction false} StreamRoundTrip(fs: seq<Frame>, last: Frame, k: nat)
    requires (forall i :: 0 <= i < |fs| ==> WellFormed(fs[i])) && WellFormed(last) && k < |FrameBytes(last)|
    ensures DecodeStream(EncodeAll(fs) + FrameBytes(last)[..k]) == Stream(fs, if k == 0 then Clean else UnexpectedEof)
  {
    var s := EncodeAll(fs) + FrameBytes(last)[..k];
    if fs == [] {
      assert s == FrameBytes(last)[..k];
      ParseCut(last, k);
    } else {
      var rest := EncodeAll(fs[1..]) + FrameBytes(last)[..k];
      assert s == FrameBytes(fs[0]) + rest;
      ParseWhole(fs[0], rest);
      StreamRoundTrip(fs[1..], last, k);
      assert s[|FrameBytes(fs[0])|..] == rest;
    }
  }
}
