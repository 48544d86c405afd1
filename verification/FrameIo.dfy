/** Reading and writing frames over a socket that takes and gives any number of
    bytes at a time (mux/mux/src/frame/io.rs). */
module FrameIo {
  import opened Basics
  import opened Frames
  import opened Codec

  // ----- the socket -----

  /** One answer of the socket: not now, an error, or a byte count. A writer may
      claim any count, even one that is too large; a reader gives at least one byte
      if it has any. */
  datatype Answer = Later | Fault | Take(n: nat)

  datatype Outcome<+T> = Ready(value: T) | Pending | Failed

  /** The answers after the next one. */
  function Rest(script: seq<Answer>): seq<Answer> { if script == [] then [] else script[1..] }

  /** A socket that has run out of answers has nothing to say for now. */
  predicate NothingNow(script: seq<Answer>) { script == [] || script[0].Later? }

  function Least(a: nat, b: nat): nat { if a <= b then a else b }

  class Socket {
    var script: seq<Answer>
    var written: seq<byte>
    var arriving: seq<byte>
    var ended: bool

    constructor (script: seq<Answer>, arriving: seq<byte>, ended: bool)
      ensures this.script == script && written == [] && this.arriving == arriving && this.ended == ended
    {
      this.script, this.written, this.arriving, this.ended := script, [], arriving, ended;
    }

    method PollWrite(buf: seq<byte>) returns (r: Outcome<nat>)
      modifies this`script, this`written
      ensures r.Ready? ==> written == old(written) + buf[..Least(r.value, |buf|)]
      ensures !r.Ready? ==> written == old(written)
      ensures script == Rest(old(script)) && (r.Pending? <==> NothingNow(old(script)))
      ensures r.Failed? <==> old(script) != [] && old(script)[0].Fault?
      ensures r.Ready? ==> old(script)[0] == Take(r.value)
    {
      if script == [] { return Pending; }
      var a := script[0];
      script := script[1..];
      match a
      case Later => r := Pending;
      case Fault => r := Failed;
      case Take(n) =>
        written := written + buf[..Least(n, |buf|)];
        r := Ready(n);
    }

    /** Nothing is read at the end of the input only. */
    method PollRead(limit: nat) returns (r: Outcome<seq<byte>>)
      requires limit > 0
      modifies this`script, this`arriving
      ensures r.Ready? ==> |r.value| <= limit && r.value + arriving == old(arriving)
      ensures r.Ready? && r.value == [] <==> !NothingNow(old(script)) && old(script)[0].Take? && old(arriving) == [] && ended
      ensures !r.Ready? ==> arriving == old(arriving)
      ensures script == Rest(old(script)) && (r.Failed? <==> old(script) != [] && old(script)[0].Fault?)
      ensures r.Pending? <==> NothingNow(old(script)) || (old(script)[0].Take? && old(arriving) == [] && !ended)
    {
      if script == [] { return Pending; }
      var a := script[0];
      script := script[1..];
      match a
      case Later => r := Pending;
      case Fault => r := Failed;
      case Take(n) =>
        if arriving == [] {
          r := if ended then Ready([]) else Pending;
        } else {
          var k := Least(if n == 0 then 1 else n, Least(limit, |arriving|));
          r := Ready(arriving[..k]);
          arriving := arriving[k..];
        }
    }
  }

  // ----- the states -----

  datatype WriteState =
    | WInit
    | WHeader(header: seq<byte>, buffer: seq<byte>, offset: nat)
    | WBody(buffer: seq<byte>, offset: nat)
    | Poisoned

  predicate WriteStateOk(w: WriteState) {
    match w
    case WInit => true
    case WHeader(header, _, offset) => |header| == HEADER_SIZE && offset < HEADER_SIZE
    case WBody(buffer, offset) => offset < |buffer|
    case Poisoned => true
  }

  /** The bytes of the current frame that are still to be written. */
  function Unsent(w: WriteState): seq<byte>
    requires WriteStateOk(w)
  {
    match w
    case WInit => []
    case WHeader(header, buffer, offset) => header[offset..] + buffer
    case WBody(buffer, offset) => buffer[offset..]
    case Poisoned => []
  }

  /** The state after `n` more bytes were taken. */
  function Moved(w: WriteState, n: nat): WriteState
    requires w.WHeader? || w.WBody?
  {
    match w
    case WHeader(header, buffer, offset) =>
      if offset + n == |header| then (if buffer != [] then WBody(buffer, 0) else WInit)
      else WHeader(header, buffer, offset + n)
    case WBody(buffer, offset) =>
      if offset + n == |buffer| then WInit else WBody(buffer, offset + n)
  }

  lemma WroteSome(written: seq<byte>, w: WriteState, n: nat)
    requires WriteStateOk(w) && (w.WHeader? || w.WBody?)
    requires var now := if w.WHeader? then w.header else w.buffer; 0 < n && w.offset + n <= |now|
    ensures WriteStateOk(Moved(w, n))
    ensures var now := if w.WHeader? then w.header else w.buffer;
            (written + now[w.offset..][..n]) + Unsent(Moved(w, n)) == written + Unsent(w)
  {
  }

  /** The rest of the current header or body, and then what comes behind it. */
  lemma PieceThenLeft(written: seq<byte>, w: WriteState)
    requires WriteStateOk(w) && (w.WHeader? || w.WBody?)
    ensures (written + Piece(w)) + (if w.WHeader? then w.buffer else []) == written + Unsent(w)
  {
  }

  /** The state in which a frame is begun. */
  function Starting(f: Frame): (w: WriteState)
    requires WellFormed(f)
    ensures WriteStateOk(w) && Unsent(w) == FrameBytes(f)
  {
    assert HeaderBytes(f.header)[0..] == HeaderBytes(f.header);
    WHeader(HeaderBytes(f.header), f.body, 0)
  }

  /** What is still to be written of the current header or body. */
  function Piece(w: WriteState): seq<byte>
    requires WriteStateOk(w) && (w.WHeader? || w.WBody?)
  {
    if w.WHeader? then w.header[w.offset..] else w.buffer[w.offset..]
  }

  /** A reply of the writer, its state then, the answers it left, and the bytes written. */
  datatype Written = Written(reply: Reply, state: WriteState, script: seq<Answer>, bytes: seq<byte>)

  /** What a writer makes of the answers of its socket until it is ready, has to wait, or
      fails. */
  function WriteOut(w: WriteState, script: seq<Answer>): (o: Written)
    requires WriteStateOk(w)
    ensures WriteStateOk(o.state)
    decreases |script|
  {
    if w.WInit? then Written(Done, w, script, [])
    else if w.Poisoned? then Written(WasPoisoned, w, script, [])
    else if NothingNow(script) then Written(NotYet, w, Rest(script), [])
    else if script[0].Fault? then Written(WriteFailed, w, script[1..], [])
    else
      var n, piece := script[0].n, Piece(w);
      if n == 0 then Written(WriteZero, w, script[1..], [])
      else if n > |piece| then Written(InvalidCount, Poisoned, script[1..], piece)
      else
        WroteSome([], w, n);
        var next := WriteOut(Moved(w, n), script[1..]);
        next.(bytes := piece[..n] + next.bytes)
  }

  /** The same, with these bytes written before. */
  function Preceded(bytes: seq<byte>, o: Written): Written { o.(bytes := bytes + o.bytes) }

  lemma PrecededByNothing(o: Written)
    ensures Preceded([], o) == o
  {
  }

  lemma PrecededTwice(a: seq<byte>, b: seq<byte>, o: Written)
    ensures Preceded(a, Preceded(b, o)) == Preceded(a + b, o)
  {
    assert a + (b + o.bytes) == (a + b) + o.bytes;
  }

  /** A writer that stops has written just that. */
  lemma PrecededStop(a: seq<byte>, b: seq<byte>, r: Reply, w: WriteState, script: seq<Answer>)
    ensures Preceded(a, Written(r, w, script, b)) == Written(r, w, script, a + b)
  {
  }

  lemma NothingToWrite(w: WriteState, script: seq<Answer>)
    requires w.WInit? || w.Poisoned?
    ensures WriteOut(w, script) == Written(if w.WInit? then Done else WasPoisoned, w, script, [])
  {
  }

  /** One byte of a frame, and then an error. */
  lemma OneByteThenFault(f: Frame, rest: seq<Answer>)
    requires WellFormed(f)
    ensures WriteOut(Starting(f), [Take(1), Fault] + rest)
            == Written(WriteFailed, WHeader(HeaderBytes(f.header), f.body, 1), rest, FrameBytes(f)[..1])
  {
    var w := Starting(f);
    var script := [Take(1), Fault] + rest;
    assert Moved(w, 1) == WHeader(HeaderBytes(f.header), f.body, 1);
    assert script[1..] == [Fault] + rest && ([Fault] + rest)[1..] == rest;
    assert WriteOut(Moved(w, 1), [Fault] + rest) == Written(WriteFailed, Moved(w, 1), rest, []);
    assert Piece(w)[..1] + [] == FrameBytes(f)[..1];
  }

  /** A frame that is taken whole, its header first. */
  lemma TakenWhole(f: Frame, rest: seq<Answer>)
    requires WellFormed(f)
    ensures WriteOut(Starting(f), [Take(HEADER_SIZE)] + (if f.body == [] then [] else [Take(|f.body|)]) + rest)
            == Written(Done, WInit, rest, FrameBytes(f))
  {
    var w := Starting(f);
    var later := (if f.body == [] then [] else [Take(|f.body|)]) + rest;
    var script := [Take(HEADER_SIZE)] + (if f.body == [] then [] else [Take(|f.body|)]) + rest;
    assert script[1..] == later && Piece(w)[..HEADER_SIZE] == HeaderBytes(f.header);
    if f.body == [] {
      assert later == rest && WriteOut(WInit, rest) == Written(Done, WInit, rest, []);
    } else {
      var b := WBody(f.body, 0);
      assert later[1..] == rest && Piece(b)[..|f.body|] == f.body && Moved(b, |f.body|) == WInit;
      assert WriteOut(WInit, rest) == Written(Done, WInit, rest, []);
      assert WriteOut(b, later) == Written(Done, WInit, rest, f.body + []);
      assert f.body + [] == f.body;
    }
    assert HeaderBytes(f.header) + f.body == FrameBytes(f);
  }

  lemma Cut(s: seq<byte>, offset: nat, n: nat, later: seq<byte>)
    requires offset + n <= |s|
    ensures s[offset..][..n] + (s[offset + n..] + later) == s[offset..] + later
  {
  }

  datatype ReadState =
    | RInit
    | RHeader(offset: nat, buffer: seq<byte>)
    | RBody(header: Header, offset: nat, buffer: seq<byte>)

  predicate ReadStateOk(r: ReadState) {
    match r
    case RInit => true
    case RHeader(offset, buffer) => offset <= HEADER_SIZE == |buffer|
    case RBody(header, offset, buffer) =>
      WellFormedHeader(header) && header.tag.Data? && header.length <= MAX_BODY && offset <= |buffer| == header.length
  }

  /** Nothing of the next frame has been read. */
  predicate Between(r: ReadState) { r.RInit? || (r.RHeader? && r.offset == 0) }

  /** The bytes of the current frame that have been read. */
  function Partial(r: ReadState): seq<byte>
    requires ReadStateOk(r)
  {
    match r
    case RInit => []
    case RHeader(offset, buffer) => buffer[..offset]
    case RBody(header, offset, buffer) => HeaderBytes(header) + buffer[..offset]
  }

  function Fill(buffer: seq<byte>, offset: nat, got: seq<byte>): seq<byte>
    requires offset + |got| <= |buffer|
  {
    buffer[..offset] + got + buffer[offset + |got|..]
  }

  lemma FillExtends(buffer: seq<byte>, offset: nat, got: seq<byte>)
    requires offset + |got| <= |buffer|
    ensures |Fill(buffer, offset, got)| == |buffer| && Fill(buffer, offset, got)[..offset + |got|] == buffer[..offset] + got
  {
  }

  // ----- what a read state knows of the stream -----

  lemma HeaderComplete(buffer: seq<byte>, rest: seq<byte>)
    requires |buffer| == HEADER_SIZE
    ensures var s := buffer + rest;
            s[..HEADER_SIZE] == buffer && (DecodeHeader(buffer).UnknownType? ==> ParseFrame(s) == BadType(DecodeHeader(buffer).t))
            && (DecodeHeader(buffer).Ok? ==>
                  var h := DecodeHeader(buffer).header;
                  && WellFormedHeader(h) && HeaderBytes(h) == buffer
                  && (!h.tag.Data? ==> ParseFrame(s) == Whole(Frame(h, []), HEADER_SIZE) && s[HEADER_SIZE..] == rest)
                  && (h.tag.Data? && h.length > MAX_BODY ==> ParseFrame(s) == TooLarge(h.length)))
  {
    EncodeAfterDecode(buffer);
    assert (buffer + rest)[..HEADER_SIZE] == buffer;
  }

  lemma HeaderShort(s: seq<byte>)
    requires |s| < HEADER_SIZE
    ensures ParseFrame(s) == Short
  {
  }

  lemma BodyComplete(h: Header, body: seq<byte>, rest: seq<byte>)
    requires WellFormedHeader(h) && h.tag.Data? && h.length == |body| <= MAX_BODY
    ensures var s := HeaderBytes(h) + body + rest;
            ParseFrame(s) == Whole(Frame(h, body), HEADER_SIZE + |body|) && s[HEADER_SIZE + |body|..] == rest
  {
    ParseWhole(Frame(h, body), rest);
    assert HeaderBytes(h) + body == FrameBytes(Frame(h, body));
  }

  lemma BodyShort(h: Header, part: seq<byte>)
    requires WellFormedHeader(h) && h.tag.Data? && |part| < h.length <= MAX_BODY
    ensures ParseFrame(HeaderBytes(h) + part) == Short
  {
    assert (HeaderBytes(h) + part)[..HEADER_SIZE] == HeaderBytes(h);
    DecodeAfterEncode(h);
  }

  // ----- what the answers of the socket come to -----

  /** Each answer that was used has brought something. */
  ghost predicate ReadsOn(before: seq<Answer>, after: seq<Answer>, came: seq<byte>, left: seq<byte>) {
    && |after| <= |before| && after == before[|before| - |after|..] && |before| - |after| <= |came| - |left|
    && forall i :: 0 <= i < |before| - |after| ==> before[i].Take?
  }

  /** Answers were used up to here, and all but the last of them gave something. */
  ghost predicate Uses(before: seq<Answer>, after: seq<Answer>) {
    && |after| <= |before| && after == before[|before| - |after|..]
    && forall i :: 0 <= i < |before| - |after| - 1 ==> before[i].Take?
  }

  /** How an attempt to read ends: with an error exactly if the last answer used is one, and
      with waiting only if that answer says so, if the answers are used up, or if nothing more
      has arrived. `came` had arrived before, `left` is what is left of it. */
  ghost predicate Reads(before: seq<Answer>, after: seq<Answer>, came: seq<byte>, left: seq<byte>, ended: bool, item: Item) {
    && Uses(before, after)
    && var k := |before| - |after|;
       && k - 1 <= |came| - |left|
       && (item.ReadFailed? <==> k > 0 && before[k - 1].Fault?)
       && (k > 0 && before[k - 1].Later? ==> item.Waiting?)
       && (item.End? ==> k > 0)
       && (item.Waiting? ==>
             || (k > 0 && before[k - 1].Later?) || (after == [] && k <= |came| - |left|)
             || (k > 0 && before[k - 1].Take? && left == [] && !ended))
  }

  /** The last answer that was used. */
  function LastUsed(before: seq<Answer>, after: seq<Answer>): Option<Answer> {
    if |after| < |before| then Some(before[|before| - |after| - 1]) else None
  }

  /** What the reply of the writer says of the last answer that it used. It waits only if that
      answer says so or the answers are used up. */
  ghost predicate ReplyMeans(before: seq<Answer>, reply: Reply, after: seq<Answer>) {
    var last := LastUsed(before, after);
    && Uses(before, after) && (last == Some(Later) ==> reply.NotYet?)
    && match reply
       case NotYet => last == Some(Later) || after == []
       case WriteFailed => last == Some(Fault)
       case WriteZero => last == Some(Take(0))
       case InvalidCount => last.Some? && last.value.Take? && last.value.n > 0
       case Done => last.Some? ==> last.value.Take? && last.value.n > 0
       case WasPoisoned => last.None?
  }

  lemma OneMoreAnswer(before: seq<Answer>, reply: Reply, after: seq<Answer>)
    requires before != [] && before[0].Take? && before[0].n > 0 && ReplyMeans(before[1..], reply, after) && !reply.WasPoisoned?
    ensures ReplyMeans(before, reply, after)
  {
    assert forall i :: 0 < i < |before| ==> before[i] == before[1..][i - 1];
  }

  /** A writer is done exactly if nothing is left, and fails as the last answer says. What it
      has written and what is left make up what was left before, unless the socket has
      claimed too much. */
  lemma {:induction false} WriteOutMeans(w: WriteState, script: seq<Answer>)
    requires WriteStateOk(w)
    ensures var o := WriteOut(w, script);
            && ReplyMeans(script, o.reply, o.script)
            && (o.reply.Done? <==> o.state.WInit?) && (o.reply.WasPoisoned? <==> w.Poisoned?)
            && (o.reply.InvalidCount? <==> o.state.Poisoned? && !w.Poisoned?)
            && (!o.state.Poisoned? ==> o.bytes + Unsent(o.state) == Unsent(w))
    decreases |script|
  {
    hide Uses, LastUsed, Unsent, ReplyMeans, WriteOut, Moved, Piece, WriteStateOk;
    if (w.WHeader? || w.WBody?) && !NothingNow(script) && script[0].Take? && 0 < script[0].n <= |Piece(w)| {
      var n := script[0].n;
      TakesSome(w, script);
      var next := WriteOut(Moved(w, n), script[1..]);
      WriteOutMeans(Moved(w, n), script[1..]);
      OneMoreAnswer(script, next.reply, next.script);
      assert (Piece(w)[..n] + next.bytes) + Unsent(next.state) == Piece(w)[..n] + (next.bytes + Unsent(next.state));
    } else {
      StopsAtOnce(w, script);
    }
  }

  lemma TakesSome(w: WriteState, script: seq<Answer>)
    requires WriteStateOk(w) && (w.WHeader? || w.WBody?) && !NothingNow(script) && script[0].Take? && 0 < script[0].n <= |Piece(w)|
    ensures var n := script[0].n; var m := Moved(w, n);
            && WriteStateOk(m) && !m.Poisoned? && Piece(w)[..n] + Unsent(m) == Unsent(w)
            && WriteOut(w, script) == Preceded(Piece(w)[..n], WriteOut(m, script[1..]))
  {
    hide Unsent, HeaderBytes;
    WroteSome([], w, script[0].n);
    assert [] + Piece(w)[..script[0].n] == Piece(w)[..script[0].n] && [] + Unsent(w) == Unsent(w);
  }

  lemma StopsAtOnce(w: WriteState, script: seq<Answer>)
    requires WriteStateOk(w)
    requires (w.WHeader? || w.WBody?) && !NothingNow(script) && script[0].Take? && script[0].n > 0 ==> script[0].n > |Piece(w)|
    ensures var o := WriteOut(w, script);
            && ReplyMeans(script, o.reply, o.script)
            && (o.reply.Done? <==> o.state.WInit?) && (o.reply.WasPoisoned? <==> w.Poisoned?)
            && (o.reply.InvalidCount? <==> o.state.Poisoned? && !w.Poisoned?)
            && (!o.state.Poisoned? ==> o.bytes + Unsent(o.state) == Unsent(w))
  {
    hide Unsent, Moved, Piece, HeaderBytes, Uses;
    UsesAtMostOne(script);
    assert [] + Unsent(w) == Unsent(w);
  }

  lemma UsesAtMostOne(script: seq<Answer>)
    ensures Uses(script, script) && (script != [] ==> Uses(script, script[1..]))
  {
  }

  lemma ReadsNothing(script: seq<Answer>, came: seq<byte>)
    ensures ReadsOn(script, script, came, came)
  {
  }

  lemma ReadsMore(a: seq<Answer>, b: seq<Answer>, c: seq<Answer>, x: seq<byte>, y: seq<byte>, z: seq<byte>)
    requires ReadsOn(a, b, x, y) && ReadsOn(b, c, y, z)
    ensures ReadsOn(a, c, x, z)
  {
  }

  lemma ReadsAtLast(a: seq<Answer>, b: seq<Answer>, c: seq<Answer>, x: seq<byte>, y: seq<byte>, z: seq<byte>, ended: bool, item: Item)
    requires ReadsOn(a, b, x, y) && Reads(b, c, y, z, ended, item)
    ensures Reads(a, c, x, z, ended, item)
  {
  }

  // ----- the reader and writer -----

  datatype Reply = Done | NotYet | WriteZero | InvalidCount | WasPoisoned | WriteFailed

  /** The writer reports an error. */
  predicate Faulty(r: Reply) { !r.Done? && !r.NotYet? }

  datatype Item = Got(frame: Frame) | End | CutShort | Unknown(t: byte) | Oversized(length: int) | Waiting | ReadFailed

  /** A frame handed over: the wire still carries what was handed over if nothing was left
      before, and has fallen behind for good if something was. */
  lemma NextOnTheWire(written: seq<byte>, left: seq<byte>, sent: seq<Frame>, f: Frame, intact: bool)
    requires (forall i :: 0 <= i < |sent| ==> WellFormed(sent[i])) && WellFormed(f)
    requires if intact then written + left == EncodeAll(sent) else |written| + |left| < |EncodeAll(sent)|
    ensures if intact && left == [] then written + FrameBytes(f) == EncodeAll(sent + [f])
            else |written| + |FrameBytes(f)| < |EncodeAll(sent + [f])|
  {
    hide FrameBytes, EncodeAll, WellFormed;
    EncodeAllSnoc(sent, f);
    assert left == [] ==> written + left == written;
    assert |written + left| == |written| + |left|;
  }

  class Io {
    const socket: Socket
    var readState: ReadState
    var writeState: WriteState
    ghost var sent: seq<Frame>
    /** The bytes of the current frame that are still to be written. */
    ghost var left: seq<byte>
    /** No frame was started over one that was not yet out. */
    ghost var intact: bool
    /** The socket has claimed more bytes than it was offered. */
    ghost var overReported: bool

    /** What was written and what is still to be written of the current frame are the
        encodings of the frames that were handed over, if each was handed over once the one
        before it was out; if not, bytes are missing for good. */
    ghost predicate Valid() reads this, socket {
      && WriteStateOk(writeState) && ReadStateOk(readState)
      && (forall i :: 0 <= i < |sent| ==> WellFormed(sent[i]))
      && (if writeState.Poisoned? then overReported else left == Unsent(writeState))
      && (if intact then socket.written + left == EncodeAll(sent) else |socket.written| + |left| < |EncodeAll(sent)|)
    }

    /** The wire carries what was handed over exactly as long as no frame was started over
        one that was not yet out. */
    lemma IntactMeans()
      requires Valid()
      ensures intact <==> socket.written + left == EncodeAll(sent)
      ensures writeState.WInit? ==> (intact <==> socket.written == EncodeAll(sent))
      ensures !overReported ==> (left == [] <==> writeState.WInit?)
    {
      hide EncodeAll;
      assert socket.written + [] == socket.written;
    }

    ghost function Input(): seq<byte>
      reads this, socket
      requires ReadStateOk(readState)
    {
      Partial(readState) + socket.arriving
    }

    constructor (socket: Socket)
      requires socket.written == []
      ensures Valid() && this.socket == socket && readState == RInit && writeState == WInit && sent == [] && intact && !overReported
    {
      this.socket, readState, writeState, sent, left, intact, overReported := socket, RInit, WInit, [], [], true, false;
    }

    /** Write out the current frame. `Done` means that nothing of it is left. */
    method PollReady() returns (r: Reply)
      requires Valid()
      modifies this`writeState, this`left, this`overReported, socket`script, socket`written
      ensures Valid() && |socket.script| <= |old(socket.script)|
      ensures var o := old(WriteOut(writeState, socket.script));
              r == o.reply && writeState == o.state && socket.script == o.script && socket.written == old(socket.written) + o.bytes
      ensures r.Done? <==> writeState.WInit?
      ensures |socket.script| == |old(socket.script)| ==> writeState == old(writeState)
      ensures !r.Done? && !r.NotYet? && !r.WasPoisoned? ==> |socket.script| < |old(socket.script)|
      ensures r.NotYet? && old(socket.script) != [] ==> |socket.script| < |old(socket.script)|
      ensures r.InvalidCount? || r.WasPoisoned? <==> writeState.Poisoned?
      ensures old(writeState).Poisoned? <==> r.WasPoisoned?
      ensures overReported <==> old(overReported) || r.InvalidCount?
    {
      hide WellFormed, EncodeAll, WriteOut, Preceded, Unsent, WriteStateOk, ReadStateOk;
      ghost var written := [];
      PrecededByNothing(WriteOut(writeState, socket.script));
      while true
        invariant Valid() && |socket.script| <= |old(socket.script)|
        invariant socket.written == old(socket.written) + written
        invariant old(WriteOut(writeState, socket.script)) == Preceded(written, WriteOut(writeState, socket.script))
        invariant writeState.Poisoned? <==> old(writeState).Poisoned?
        invariant |socket.script| == |old(socket.script)| ==> writeState == old(writeState)
        invariant overReported == old(overReported)
        decreases |socket.script|
      {
        if writeState.WInit? || writeState.Poisoned? {
          NothingToWrite(writeState, socket.script);
          r := if writeState.WInit? then Done else WasPoisoned;
          PrecededStop(written, [], r, writeState, socket.script);
          return;
        }
        var stop;
        ghost var bytes;
        stop, r, bytes := WriteOnce();
        if stop {
          PrecededStop(written, bytes, r, writeState, socket.script);
          return;
        }
        PrecededTwice(written, bytes, WriteOut(writeState, socket.script));
        written := written + bytes;
      }
    }

    /** One write to the socket, and the state it leaves. */
    method WriteOnce() returns (stop: bool, r: Reply, ghost bytes: seq<byte>)
      requires Valid() && !writeState.WInit? && !writeState.Poisoned?
      modifies this`writeState, this`left, this`overReported, socket`script, socket`written
      ensures Valid() && socket.script == Rest(old(socket.script)) && socket.written == old(socket.written) + bytes
      ensures old(WriteOut(writeState, socket.script)) ==
                if stop then Written(r, writeState, socket.script, bytes)
                else Preceded(bytes, WriteOut(writeState, socket.script))
      ensures !stop ==> old(socket.script) != [] && !writeState.Poisoned?
      ensures stop ==> !r.Done? && !r.WasPoisoned? && !writeState.WInit? && (r.InvalidCount? <==> writeState.Poisoned?)
      ensures stop && r.NotYet? ==> writeState == old(writeState)
      ensures stop && !r.NotYet? ==> old(socket.script) != []
      ensures overReported <==> old(overReported) || (stop && r.InvalidCount?)
    {
      hide WellFormed, EncodeAll, Unsent;
      ghost var before := socket.written;
      var now := if writeState.WHeader? then writeState.header else writeState.buffer;
      var offset := writeState.offset;
      bytes := [];
      var w := socket.PollWrite(now[offset..]);
      if w.Pending? { return true, NotYet, bytes; }
      if w.Failed? { return true, WriteFailed, bytes; }
      bytes := now[offset..][..Least(w.value, |now| - offset)];
      if w.value == 0 {
        assert before + now[offset..][..0] == before;
        return true, WriteZero, bytes;
      }
      var after := offset + w.value;
      if after > |now| {
        PieceThenLeft(before, writeState);
        left := if writeState.WHeader? then writeState.buffer else [];
        overReported := true;
        writeState := Poisoned;
        return true, InvalidCount, bytes;
      }
      WroteSome(before, writeState, w.value);
      writeState := Moved(writeState, w.value);
      left := Unsent(writeState);
      return false, Done, bytes;
    }

    /** Hand over the next frame. Nothing checks that the sink is ready: what is left of
        a frame that is not yet out is lost. */
    method StartSend(f: Frame)
      requires Valid() && WellFormed(f)
      modifies this`writeState, this`sent, this`left, this`intact
      ensures Valid() && writeState == Starting(f) && sent == old(sent) + [f]
      ensures left == FrameBytes(f) && (intact <==> old(intact) && old(left) == [])
      ensures !overReported ==> (intact <==> old(intact) && old(writeState).WInit?)
    {
      hide EncodeAll, FrameBytes, HeaderBytes, WellFormed;
      NextOnTheWire(socket.written, left, sent, f, intact);
      IntactMeans();
      intact := intact && left == [];
      writeState := Starting(f);
      left := FrameBytes(f);
      sent := sent + [f];
    }

    /** The next frame of the input, wherever its bytes happen to be split. */
    method PollNext() returns (item: Item)
      requires Valid()
      modifies this`readState, socket`script, socket`arriving
      ensures Valid() && |socket.script| <= |old(socket.script)|
      ensures ItemOk(old(Input()), item, Input(), socket.arriving, socket.ended, readState)
      ensures Reads(old(socket.script), socket.script, old(socket.arriving), socket.arriving, socket.ended, item)
      ensures item.Waiting? ==> old(socket.script) == [] || |socket.script| < |old(socket.script)|
      ensures Between(old(readState)) && NothingNow(old(socket.script)) ==>
                item.Waiting? && Between(readState) && socket.script == Rest(old(socket.script))
    {
      ReadsNothing(socket.script, socket.arriving);
      while true
        invariant Valid() && Input() == old(Input()) && |socket.script| <= |old(socket.script)|
        invariant ReadsOn(old(socket.script), socket.script, old(socket.arriving), socket.arriving)
        invariant Between(old(readState)) && NothingNow(old(socket.script)) ==> Between(readState) && socket.script == old(socket.script)
        decreases |socket.script|, if readState.RInit? then 2 else if readState.RHeader? then 1 else 0
      {
        hide Valid, Input, ItemOk, Reads, ReadsOn;
        ghost var input, script, arriving := Input(), socket.script, socket.arriving;
        var stop;
        if readState.RInit? {
          StartHeader();
          continue;
        }
        if readState.RHeader? {
          stop, item := HeaderStep();
        } else {
          stop, item := BodyStep();
        }
        if stop {
          ReadsAtLast(old(socket.script), script, socket.script, old(socket.arriving), arriving, socket.arriving, socket.ended, item);
          return;
        }
        ReadsMore(old(socket.script), script, socket.script, old(socket.arriving), arriving, socket.arriving);
      }
    }

    method StartHeader()
      requires Valid() && readState.RInit?
      modifies this`readState
      ensures Valid() && readState.RHeader? && readState.offset == 0 && Input() == old(Input())
    {
      readState := RHeader(0, seq(HEADER_SIZE, _ => 0));
    }

    method HeaderStep() returns (stop: bool, item: Item)
      requires Valid() && readState.RHeader?
      modifies this`readState, socket`script, socket`arriving
      ensures Valid() && |socket.script| <= |old(socket.script)|
      ensures stop ==> ItemOk(old(Input()), item, Input(), socket.arriving, socket.ended, readState)
      ensures if stop then Reads(old(socket.script), socket.script, old(socket.arriving), socket.arriving, socket.ended, item)
              else ReadsOn(old(socket.script), socket.script, old(socket.arriving), socket.arriving)
      ensures stop && item.Waiting? ==> old(socket.script) == [] || |socket.script| < |old(socket.script)|
      ensures !stop ==> Input() == old(Input()) && !readState.RInit? && (readState.RHeader? ==> |socket.script| < |old(socket.script)|)
      ensures Between(old(readState)) && NothingNow(old(socket.script)) ==>
                stop && item.Waiting? && readState == old(readState) && socket.script == Rest(old(socket.script))
    {
      hide WellFormed, EncodeAll, ParseFrame, Unsent, DecodeHeader, HeaderBytes;
      var offset, buffer := readState.offset, readState.buffer;
      if offset == HEADER_SIZE {
        assert buffer[..offset] == buffer;
        HeaderComplete(buffer, socket.arriving);
        var d := DecodeHeader(buffer);
        if d.UnknownType? { return true, Unknown(d.t); }
        var h := d.header;
        if !h.tag.Data? {
          readState := RInit;
          return true, Got(Frame(h, []));
        }
        if h.length > MAX_BODY { return true, Oversized(h.length); }
        readState := RBody(h, 0, seq(h.length, _ => 0));
        return false, Waiting;
      }
      var g := socket.PollRead(HEADER_SIZE - offset);
      if g.Pending? { return true, Waiting; }
      if g.Failed? { return true, ReadFailed; }
      if g.value == [] {
        assert Input() == buffer[..offset];
        HeaderShort(buffer[..offset]);
        return true, if offset == 0 then End else CutShort;
      }
      FillExtends(buffer, offset, g.value);
      readState := RHeader(offset + |g.value|, Fill(buffer, offset, g.value));
      return false, Waiting;
    }

    method BodyStep() returns (stop: bool, item: Item)
      requires Valid() && readState.RBody?
      modifies this`readState, socket`script, socket`arriving
      ensures Valid() && |socket.script| <= |old(socket.script)|
      ensures stop ==> ItemOk(old(Input()), item, Input(), socket.arriving, socket.ended, readState)
      ensures if stop then Reads(old(socket.script), socket.script, old(socket.arriving), socket.arriving, socket.ended, item)
              else ReadsOn(old(socket.script), socket.script, old(socket.arriving), socket.arriving)
      ensures stop && item.Waiting? ==> old(socket.script) == [] || |socket.script| < |old(socket.script)|
      ensures !stop ==> Input() == old(Input()) && readState.RBody? && |socket.script| < |old(socket.script)|
    {
      hide WellFormed, EncodeAll, ParseFrame, Unsent, DecodeHeader, HeaderBytes;
      var header, offset, buffer := readState.header, readState.offset, readState.buffer;
      if offset == |buffer| {
        assert buffer[..offset] == buffer;
        BodyComplete(header, buffer, socket.arriving);
        readState := RInit;
        return true, Got(Frame(header, buffer));
      }
      var g := socket.PollRead(|buffer| - offset);
      if g.Pending? { return true, Waiting; }
      if g.Failed? { return true, ReadFailed; }
      if g.value == [] {
        BodyShort(header, buffer[..offset]);
        assert Input() == HeaderBytes(header) + buffer[..offset];
        return true, CutShort;
      }
      FillExtends(buffer, offset, g.value);
      readState := RBody(header, offset + |g.value|, Fill(buffer, offset, g.value));
      return false, Waiting;
    }
  }

  /** What `poll_next` may give for an input: the first frame of it, its clean end, or
      the reason why there is none. */
  ghost predicate ItemOk(input: seq<byte>, item: Item, left: seq<byte>, arriving: seq<byte>, ended: bool, state: ReadState) {
    match item
    case Got(f) =>
      var p := ParseFrame(input);
      p.Whole? && p.frame == f && state.RInit? && arriving == left == input[p.used..]
    case End => input == [] && ended
    case CutShort => ParseFrame(input) == Short && input != [] && arriving == [] && ended
    case Unknown(t) => ParseFrame(input) == BadType(t)
    case Oversized(n) => ParseFrame(input) == TooLarge(n)
    case Waiting => left == input
    case ReadFailed => left == input
  }
}
