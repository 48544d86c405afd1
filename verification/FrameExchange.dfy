/** From a list of frames to a list of frames, over any split of the bytes. */
module FrameExchange {
  import opened Basics
  import opened Frames
  import opened Codec
  import opened FrameIo

  ghost predicate AllWellFormed(fs: seq<Frame>) { forall i :: 0 <= i < |fs| ==> WellFormed(fs[i]) }

  /** Hand over frame after frame, each once the one before it is out. */
  method WriteAll(io: Io, frames: seq<Frame>) returns (r: Reply)
    requires io.Valid() && io.intact && io.sent == [] && AllWellFormed(frames)
    modifies io, io.socket
    ensures io.Valid() && io.intact && io.sent <= frames
    ensures r.Done? ==> io.sent == frames && io.socket.written == EncodeAll(frames)
  {
    hide EncodeAll, WriteOut, Unsent, WriteStateOk, ReadStateOk;
    var k := 0;
    while true
      invariant io.Valid() && io.intact && k <= |frames| && io.sent == frames[..k]
      decreases |frames| - k, |io.socket.script|
    {
      r := io.PollReady();
      io.IntactMeans();
      if r.Done? {
        if k == |frames| {
          assert frames[..k] == frames;
          return;
        }
        io.StartSend(frames[k]);
        k := k + 1;
      } else if !r.NotYet? || io.socket.script == [] {
        return;
      }
    }
  }

  /** Read frames until the input ends, an error, or the socket has no more answers. */
  method ReadAll(io: Io) returns (got: seq<Frame>, how: Item)
    requires io.Valid()
    modifies io, io.socket
    ensures io.Valid() && !how.Got?
    ensures got <= DecodeStream(old(io.Input())).frames
    ensures match how
            case End => DecodeStream(old(io.Input())) == Stream(got, Clean)
            case CutShort => DecodeStream(old(io.Input())) == Stream(got, UnexpectedEof)
            case Unknown(t) => DecodeStream(old(io.Input())) == Stream(got, Refused(BadType(t)))
            case Oversized(n) => DecodeStream(old(io.Input())) == Stream(got, Refused(TooLarge(n)))
            case _ => true
  {
    got := [];
    while true
      invariant io.Valid() && Continues(old(io.Input()), got, io.Input())
      decreases |io.Input()|, |io.socket.script|
    {
      hide Continues, DecodeStream;
      ghost var input := io.Input();
      how := io.PollNext();
      match how
      case Got(f) =>
        FrameRead(old(io.Input()), got, input, f, io.Input());
        got := got + [f];
      case Waiting =>
        if io.socket.script == [] {
          ReadSoFar(old(io.Input()), got, input);
          return;
        }
      case _ =>
        ReadSoFar(old(io.Input()), got, input);
        ReadEnds(old(io.Input()), got, input, how);
        return;
    }
  }

  /** `got` are the first frames of `all`, and `rest` is what follows them. */
  ghost predicate Continues(all: seq<byte>, got: seq<Frame>, rest: seq<byte>) {
    DecodeStream(all) == Stream(got + DecodeStream(rest).frames, DecodeStream(rest).ending)
  }

  lemma FrameRead(all: seq<byte>, got: seq<Frame>, input: seq<byte>, f: Frame, rest: seq<byte>)
    requires Continues(all, got, input)
    requires ParseFrame(input).Whole? && ParseFrame(input).frame == f && rest == input[ParseFrame(input).used..]
    ensures Continues(all, got + [f], rest) && |rest| < |input|
  {
    assert got + ([f] + DecodeStream(rest).frames) == (got + [f]) + DecodeStream(rest).frames;
  }

  lemma ReadSoFar(all: seq<byte>, got: seq<Frame>, input: seq<byte>)
    requires Continues(all, got, input)
    ensures got <= DecodeStream(all).frames
  {
  }

  lemma ReadEnds(all: seq<byte>, got: seq<Frame>, input: seq<byte>, how: Item)
    requires Continues(all, got, input)
    ensures how.End? && input == [] ==> DecodeStream(all) == Stream(got, Clean)
    ensures how.CutShort? && input != [] && ParseFrame(input) == Short ==> DecodeStream(all) == Stream(got, UnexpectedEof)
    ensures how.Unknown? && ParseFrame(input) == BadType(how.t) ==> DecodeStream(all) == Stream(got, Refused(BadType(how.t)))
    ensures how.Oversized? && ParseFrame(input) == TooLarge(how.length) ==> DecodeStream(all) == Stream(got, Refused(TooLarge(how.length)))
  {
  }

  /** However writes and reads split the bytes, the frames that come out are the
      first of those that went in, and at a clean end they are all of them. */
  method Exchange(frames: seq<Frame>, writeScript: seq<Answer>, readScript: seq<Answer>) returns (w: Reply, got: seq<Frame>, how: Item)
    requires AllWellFormed(frames)
    ensures w.Done? ==> got <= frames && (how.End? ==> got == frames)
    ensures w.Done? ==> how.End? || how.Waiting? || how.ReadFailed?
  {
    var out := new Socket(writeScript, [], false);
    var sender := new Io(out);
    w := WriteAll(sender, frames);
    var back := new Socket(readScript, out.written, true);
    var receiver := new Io(back);
    got, how := ReadAll(receiver);
    if w.Done? {
      NothingCut(frames);
      assert receiver.socket == back;
    }
  }

  lemma NothingCut(fs: seq<Frame>)
    requires AllWellFormed(fs)
    ensures DecodeStream([] + EncodeAll(fs)) == Stream(fs, Clean)
  {
    StreamRoundTrip(fs, CreditFrame(1, 0), 0);
    assert EncodeAll(fs) + FrameBytes(CreditFrame(1, 0))[..0] == [] + EncodeAll(fs);
  }

  /** A frame stands at the front of the input with its own bytes. */
  lemma FirstIsItself(s: seq<byte>)
    requires ParseFrame(s).Whole?
    ensures var p := ParseFrame(s); WellFormed(p.frame) && FrameBytes(p.frame) == s[..p.used]
  {
    EncodeAfterDecode(s[..HEADER_SIZE]);
  }

  /** A stream that ends cleanly is the encoding of the frames read. */
  lemma {:induction false} CleanIsWhole(s: seq<byte>)
    ensures AllWellFormed(DecodeStream(s).frames)
    ensures DecodeStream(s).ending == Clean ==> s == EncodeAll(DecodeStream(s).frames)
    decreases |s|
  {
    if s != [] && ParseFrame(s).Whole? {
      var p := ParseFrame(s);
      FirstIsItself(s);
      CleanIsWhole(s[p.used..]);
      assert DecodeStream(s).frames[1..] == DecodeStream(s[p.used..]).frames;
      assert s == s[..p.used] + s[p.used..];
    }
  }

  /** The input is the encoding of the frames `got`, and then `rest`. */
  ghost predicate Splits(input: seq<byte>, got: seq<Frame>, rest: seq<byte>) {
    AllWellFormed(got) && input == EncodeAll(got) + rest
  }

  lemma SplitsNothing(input: seq<byte>)
    ensures Splits(input, [], input)
  {
    assert EncodeAll([]) + input == input;
  }

  /** The last answer used in reading is the last one used in all. */
  lemma ReadsSuffix(all: seq<Answer>, before: seq<Answer>, after: seq<Answer>, came: seq<byte>, left: seq<byte>, ended: bool, item: Item)
    requires |before| <= |all| && before == all[|all| - |before|..] && Reads(before, after, came, left, ended, item)
    ensures |after| <= |all| && after == all[|all| - |after|..]
    ensures |after| < |before| ==> LastUsed(all, after) == LastUsed(before, after)
  {
  }

  lemma SplitsOn(input: seq<byte>, got: seq<Frame>, rest: seq<byte>, more: seq<Frame>, left: seq<byte>)
    requires Splits(input, got, rest) && Splits(rest, more, left)
    ensures Splits(input, got + more, left)
  {
    hide WellFormed;
    EncodeAllConcat(got, more);
    assert EncodeAll(got) + (EncodeAll(more) + left) == (EncodeAll(got) + EncodeAll(more)) + left;
  }

  lemma {:induction false} EncodeAllConcat(a: seq<Frame>, b: seq<Frame>)
    requires AllWellFormed(a) && AllWellFormed(b)
    ensures EncodeAll(a + b) == EncodeAll(a) + EncodeAll(b)
  {
    hide WellFormed;
    if a == [] {
      assert a + b == b;
    } else {
      assert (a + b)[1..] == a[1..] + b;
      EncodeAllConcat(a[1..], b);
    }
  }

  /** A frame that the reader gives is well formed and stands first in the input. */
  lemma GotIsFirst(input: seq<byte>, item: Item, left: seq<byte>, arriving: seq<byte>, ended: bool, state: ReadState)
    requires item.Got? && ItemOk(input, item, left, arriving, ended, state)
    ensures Splits(input, [item.frame], left) && |left| < |input|
  {
    var f := item.frame;
    var p := ParseFrame(input);
    FirstIsItself(input);
    assert EncodeAll([f]) == FrameBytes(f) by { assert [f][1..] == []; assert FrameBytes(f) + [] == FrameBytes(f); }
    assert input == input[..p.used] + input[p.used..];
  }

  lemma FirstIsWellFormed(input: seq<byte>, f: Frame, left: seq<byte>)
    requires Splits(input, [f], left)
    ensures WellFormed(f)
  {
    assert [f][0] == f;
  }

  /** Nothing but an error can come of reading on: the frame that is next is cut off by the
      end of the input, or cannot be one. */
  ghost predicate CannotGoOn(input: seq<byte>, ended: bool) {
    var r := DecodeStream(input);
    r.frames == [] && (r.ending.Refused? || (r.ending.UnexpectedEof? && ended))
  }

  /** Why there is no frame: the clean end, an error of the socket or of the input, or the
      socket has no more for now. */
  lemma NoFrameMeans(input: seq<byte>, item: Item, left: seq<byte>, arriving: seq<byte>, ended: bool, state: ReadState,
                     before: seq<Answer>, after: seq<Answer>, came: seq<byte>)
    requires |came| <= |input|
    requires ItemOk(input, item, left, arriving, ended, state) && Reads(before, after, came, arriving, ended, item) && !item.Got?
    ensures Uses(before, after)
    ensures item.End? <==> input == [] && ended && Took(LastUsed(before, after))
    ensures LastUsed(before, after) == Some(Later) ==> item.Waiting?
    ensures LastUsed(before, after) == Some(Fault) <==> item.ReadFailed?
    ensures item.Waiting? ==> left == input && NoMoreNow(before, after, arriving, ended)
    ensures !item.End? && !item.Waiting? ==> LastUsed(before, after) == Some(Fault) || CannotGoOn(input, ended)
  {
    AnswersMean(before, after, came, arriving, ended, item);
    hide Reads, Uses, LastUsed, NoMoreNow, CannotGoOn;
    EndMeans(input, item, left, arriving, ended, state, before, after, came);
    if item.CutShort? || item.Unknown? || item.Oversized? { BadInput(input, item, left, arriving, ended, state); }
  }

  lemma AnswersMean(before: seq<Answer>, after: seq<Answer>, came: seq<byte>, left: seq<byte>, ended: bool, item: Item)
    requires Reads(before, after, came, left, ended, item)
    ensures Uses(before, after)
    ensures LastUsed(before, after) == Some(Later) ==> item.Waiting?
    ensures LastUsed(before, after) == Some(Fault) <==> item.ReadFailed?
    ensures item.Waiting? ==> NoMoreNow(before, after, left, ended)
    ensures item.Waiting? && came == [] && ended ==> !Took(LastUsed(before, after))
    ensures item.End? && after != before ==> Took(LastUsed(before, after))
  {
  }

  lemma EndMeans(input: seq<byte>, item: Item, left: seq<byte>, arriving: seq<byte>, ended: bool, state: ReadState,
                 before: seq<Answer>, after: seq<Answer>, came: seq<byte>)
    requires |came| <= |input|
    requires ItemOk(input, item, left, arriving, ended, state) && Reads(before, after, came, arriving, ended, item) && !item.Got?
    ensures item.End? <==> input == [] && ended && Took(LastUsed(before, after))
  {
    AnswersMean(before, after, came, arriving, ended, item);
    hide Reads, Uses, LastUsed, NoMoreNow;
  }

  lemma BadInput(input: seq<byte>, item: Item, left: seq<byte>, arriving: seq<byte>, ended: bool, state: ReadState)
    requires ItemOk(input, item, left, arriving, ended, state) && (item.CutShort? || item.Unknown? || item.Oversized?)
    ensures CannotGoOn(input, ended)
  {
  }

  /** The socket has no more for now: it says so, its answers are used up, or nothing more has
      arrived. */
  predicate NoMoreNow(before: seq<Answer>, after: seq<Answer>, arriving: seq<byte>, ended: bool) {
    LastUsed(before, after) == Some(Later) || after == [] || (Took(LastUsed(before, after)) && arriving == [] && !ended)
  }

  predicate Took(a: Option<Answer>) { a.Some? && a.value.Take? }

  /** When a frame is started over one of which a byte is out, the reader is lost: of two
      close frames it gets neither. */
  lemma TornFrame(id: StreamId)
    ensures DecodeStream(FrameBytes(FinFrame(id))[..1] + FrameBytes(FinFrame(id))) == Stream([], Refused(TooLarge(0x100_0000)))
  {
    var f := FrameBytes(FinFrame(id));
    var s := f[..1] + f;
    ZeroBytes();
    assert f[0] == 0 && f[1] == 1 && f[2..6] == [0, 0, 0, 0];
    assert f[2] == f[2..6][0] && f[3] == f[2..6][1] && f[4] == f[2..6][2];
    var h := s[..HEADER_SIZE];
    assert h[0] == f[0] && h[1] == f[0] && h[2] == f[1] && h[3] == f[2] && h[4] == f[3] && h[5] == f[4];
    assert h[2..6] == [h[2], h[3], h[4], h[5]];
    ShiftedLength();
  }

  /** So the writer and its socket do: one byte, an error, and the next frame started. */
  method TearFrame(id: StreamId) returns (io: Io, first: Reply, second: Reply)
    ensures io.Valid() && !io.intact && !io.overReported && io.sent == [FinFrame(id), FinFrame(id)]
    ensures first.WriteFailed? && second.Done?
    ensures io.socket.written == FrameBytes(FinFrame(id))[..1] + FrameBytes(FinFrame(id))
    ensures DecodeStream(io.socket.written) == Stream([], Refused(TooLarge(0x100_0000)))
  {
    hide DecodeStream, EncodeAll, WriteOut, Starting;
    var f := FinFrame(id);
    var socket := new Socket([Take(1), Fault, Take(HEADER_SIZE)], [], false);
    io := new Io(socket);
    io.StartSend(f);
    OneByteThenFault(f, [Take(HEADER_SIZE)]);
    assert [Take(1), Fault] + [Take(HEADER_SIZE)] == [Take(1), Fault, Take(HEADER_SIZE)];
    first := io.PollReady();
    io.StartSend(f);
    TakenWhole(f, []);
    assert [Take(HEADER_SIZE)] + [] + [] == [Take(HEADER_SIZE)];
    second := io.PollReady();
    assert [] + FrameBytes(f)[..1] == FrameBytes(f)[..1];
    TornFrame(id);
  }

  lemma ZeroBytes()
    ensures ToBytes(0, 4) == [0, 0, 0, 0]
  {
    assert ToBytes(0, 1) == [0] && ToBytes(0, 2) == [0, 0] && ToBytes(0, 3) == [0, 0, 0];
  }

  lemma ShiftedLength()
    ensures FromBytes([1, 0, 0, 0]) == 0x100_0000
  {
    assert [1, 0, 0, 0][..3] == [1, 0, 0] && [1, 0, 0][..2] == [1, 0] && [1, 0][..1] == [1] && [1][..0] == [];
    assert FromBytes([1]) == 1 && FromBytes([1, 0]) == 256 && FromBytes([1, 0, 0]) == 65536;
  }

  /** Whatever part of an encoding arrives before the input ends, the reader gives
      only frames that were sent, and ends cleanly only between two of them. */
  lemma {:induction false} PartOfEncoding(fs: seq<Frame>, s: seq<byte>)
    requires AllWellFormed(fs) && s <= EncodeAll(fs)
    ensures DecodeStream(s).frames <= fs
    ensures DecodeStream(s).ending == if s == EncodeAll(DecodeStream(s).frames) then Clean else UnexpectedEof
  {
    if s == [] {
    } else {
      var first, rest := FrameBytes(fs[0]), EncodeAll(fs[1..]);
      if |s| < |first| {
        assert s == first[..|s|];
        ParseCut(fs[0], |s|);
      } else {
        var tail := s[|first|..];
        assert s == first + tail;
        assert tail <= rest by { assert EncodeAll(fs)[|first|..] == rest; assert EncodeAll(fs)[..|s|][|first|..] == rest[..|tail|]; }
        ParseWhole(fs[0], tail);
        PartOfEncoding(fs[1..], tail);
        var more := DecodeStream(tail).frames;
        assert ([fs[0]] + more)[1..] == more;
      }
    }
  }
}
