/** The graceful close: drain the command channels, send what is left and a goodbye,
    wait for the reply (mux/mux/src/connection/closing.rs). */
module ClosingFuture {
  import opened Basics
  import opened Frames
  import opened PeerModel
  import opened Codec
  import opened FrameIo
  import opened X = FrameExchange
  import opened LaneView

  datatype Stage = ClosingStreamReceiver | DrainingStreamReceiver | FlushingPendingFrames | WaitingForReply | ClosingSocket

  datatype Result = Closed | Unfinished | Error

  // ----- the command channels -----

  /** The receiving end of one handle's commands. */
  datatype Channel = Channel(id: StreamId, cmds: seq<Command>)

  /** Each stream has one channel, which holds well-formed frames of that stream. */
  ghost predicate ChannelsOk(cs: seq<Channel>) {
    && (forall i, j :: 0 <= i < j < |cs| ==> cs[i].id != cs[j].id)
    && (forall i, k :: 0 <= i < |cs| && 0 <= k < |cs[i].cmds| ==>
          WellFormed(CommandFrame(cs[i].cmds[k])) && CommandFrame(cs[i].cmds[k]).header.id == cs[i].id)
  }

  /** What the channel of a stream still holds. */
  function Undrained(cs: seq<Channel>, id: StreamId): seq<Frame> {
    if cs == [] then []
    else (if cs[0].id == id then CommandFrames(cs[0].cmds) else []) + Undrained(cs[1..], id)
  }

  function TotalCommands(cs: seq<Channel>): nat {
    if cs == [] then 0 else |cs[0].cmds| + TotalCommands(cs[1..])
  }

  function Popped(cs: seq<Channel>, i: nat): seq<Channel>
    requires i < |cs| && cs[i].cmds != []
  {
    cs[i := Channel(cs[i].id, cs[i].cmds[1..])]
  }

  lemma {:induction false} PopFirst(cs: seq<Channel>, i: nat, id: StreamId)
    requires i < |cs| && cs[i].cmds != [] && forall j, k :: 0 <= j < k < |cs| ==> cs[j].id != cs[k].id
    ensures Undrained(cs, id) == (if cs[i].id == id then [CommandFrame(cs[i].cmds[0])] else []) + Undrained(Popped(cs, i), id)
    ensures TotalCommands(Popped(cs, i)) < TotalCommands(cs)
  {
    var after := Popped(cs, i);
    if i > 0 {
      assert after[1..] == Popped(cs[1..], i - 1);
      PopFirst(cs[1..], i - 1, id);
      if cs[i].id == id { assert cs[0].id != id; }
    } else {
      assert after[1..] == cs[1..];
    }
  }

  lemma PopKeeps(cs: seq<Channel>, i: nat)
    requires ChannelsOk(cs) && i < |cs| && cs[i].cmds != []
    ensures ChannelsOk(Popped(cs, i)) && WellFormed(CommandFrame(cs[i].cmds[0])) && CommandFrame(cs[i].cmds[0]).header.id == cs[i].id
  {
  }

  lemma {:induction false} NothingUndrained(cs: seq<Channel>, id: StreamId)
    requires forall i :: 0 <= i < |cs| ==> cs[i].cmds == []
    ensures Undrained(cs, id) == []
  {
    if cs != [] { NothingUndrained(cs[1..], id); }
  }

  lemma OnlySnoc(fs: seq<Frame>, f: Frame, id: StreamId)
    ensures Only(fs + [f], id) == Only(fs, id) + if f.header.id == id then [f] else []
  {
    OnlyConcat(fs, [f], id);
    assert [f][1..] == [];
  }

  // ----- the future -----

  /** The order in which one stream's frames are sent, from the start to the end. */
  function Line(sent: seq<Frame>, pending: seq<Frame>, cs: seq<Channel>, id: StreamId): seq<Frame> {
    Only(sent + pending, id) + Undrained(cs, id)
  }

  ghost predicate SameLines(sent: seq<Frame>, pending: seq<Frame>, cs: seq<Channel>, sent2: seq<Frame>, pending2: seq<Frame>, cs2: seq<Channel>) {
    forall id: StreamId :: id != SESSION ==> Line(sent2, pending2, cs2, id) == Line(sent, pending, cs, id)
  }

  lemma DrainKeepsLines(sent: seq<Frame>, pending: seq<Frame>, cs: seq<Channel>, i: nat)
    requires ChannelsOk(cs) && i < |cs| && cs[i].cmds != []
    ensures SameLines(sent, pending, cs, sent, pending + [CommandFrame(cs[i].cmds[0])], Popped(cs, i))
    ensures TotalCommands(Popped(cs, i)) < TotalCommands(cs)
  {
    hide Only, Undrained, TotalCommands, WellFormed, Popped, Line, ChannelsOk;
    var f := CommandFrame(cs[i].cmds[0]);
    PopKeeps(cs, i);
    DistinctChannels(cs);
    PopFirst(cs, i, SESSION);
    forall id: StreamId | id != SESSION
      ensures Line(sent, pending + [f], Popped(cs, i), id) == Line(sent, pending, cs, id)
    {
      DrainKeepsLine(sent, pending, cs, i, id);
    }
  }

  lemma DistinctChannels(cs: seq<Channel>)
    requires ChannelsOk(cs)
    ensures forall j, k :: 0 <= j < k < |cs| ==> cs[j].id != cs[k].id
  {
  }

  lemma DrainKeepsLine(sent: seq<Frame>, pending: seq<Frame>, cs: seq<Channel>, i: nat, id: StreamId)
    requires i < |cs| && cs[i].cmds != [] && CommandFrame(cs[i].cmds[0]).header.id == cs[i].id
    requires forall j, k :: 0 <= j < k < |cs| ==> cs[j].id != cs[k].id
    ensures Line(sent, pending + [CommandFrame(cs[i].cmds[0])], Popped(cs, i), id) == Line(sent, pending, cs, id)
  {
    hide Only, Undrained, TotalCommands, Popped;
    var f := CommandFrame(cs[i].cmds[0]);
    PopFirst(cs, i, id);
    OnlySnoc(sent + pending, f, id);
    assert sent + (pending + [f]) == (sent + pending) + [f];
    var first := if cs[i].id == id then [f] else [];
    assert (Only(sent + pending, id) + first) + Undrained(Popped(cs, i), id) == Only(sent + pending, id) + (first + Undrained(Popped(cs, i), id));
  }

  lemma GoodbyeKeepsLines(sent: seq<Frame>, pending: seq<Frame>, cs: seq<Channel>)
    ensures SameLines(sent, pending, cs, sent, pending + [TERM], cs)
  {
    forall id: StreamId | id != SESSION ensures Line(sent, pending + [TERM], cs, id) == Line(sent, pending, cs, id) {
      OnlySnoc(sent + pending, TERM, id);
      assert sent + (pending + [TERM]) == (sent + pending) + [TERM];
    }
  }

  lemma SendKeepsLines(sent: seq<Frame>, pending: seq<Frame>, cs: seq<Channel>)
    requires pending != []
    ensures SameLines(sent, pending, cs, sent + [pending[0]], pending[1..], cs)
  {
    assert (sent + [pending[0]]) + pending[1..] == sent + pending;
  }

  /** What a writer makes of the answers of its socket until all these frames are out, or it
      has to wait, or fails. */
  ghost function FlushAll(w: WriteState, fs: seq<Frame>, script: seq<Answer>): Written
    requires WriteStateOk(w) && AllWellFormed(fs)
    decreases fs
  {
    var o := WriteOut(w, script);
    if !o.reply.Done? || fs == [] then o
    else Preceded(o.bytes, FlushAll(Starting(fs[0]), fs[1..], o.script))
  }

  predicate AllEmpty(cs: seq<Channel>) { forall i :: 0 <= i < |cs| ==> cs[i].cmds == [] }

  predicate BeforeFlush(s: Stage) { s.ClosingStreamReceiver? || s.DrainingStreamReceiver? }

  predicate AfterFlush(s: Stage) { s.WaitingForReply? || s.ClosingSocket? }

  /** The frames that are to be flushed, once these have been drained. */
  function Due(s: Stage, pending: seq<Frame>, drained: seq<Frame>): seq<Frame> {
    if BeforeFlush(s) then pending + drained + [TERM] else pending
  }

  /** A future at the beginning of a poll, with its writer. */
  datatype Begun = Begun(stage: Stage, pending: seq<Frame>, channels: seq<Channel>, sent: seq<Frame>,
                         write: WriteState, script: seq<Answer>, written: seq<byte>, input: seq<byte>, ended: bool)

  predicate EndsWithGoodbye(got: seq<Frame>) { got != [] && got[|got| - 1].header.tag.GoAway? }

  /** What came of waiting for the reply: the frames `got` were read, none but the last a
      goodbye, and `rest` was left. It is well if and only if a goodbye came, or the input
      ended without one; it is unfinished only while the socket has no more, and an error only
      if the socket reports one or the input cannot be read on. */
  ghost predicate Awaited(input: seq<byte>, before: seq<Answer>, after: seq<Answer>, arriving: seq<byte>, ended: bool,
                          r: Result, got: seq<Frame>, rest: seq<byte>) {
    && Splits(input, got, rest) && (forall i :: 0 <= i < |got| - 1 ==> !got[i].header.tag.GoAway?)
    && (EndsWithGoodbye(got) ==> r.Closed?)
    && match r
       case Closed => EndsWithGoodbye(got) || (rest == [] && ended)
       case Unfinished => NoMoreNow(before, after, arriving, ended)
       case Error => LastUsed(before, after) == Some(Fault) || CannotGoOn(rest, ended)
  }

  /** The answers that are left. */
  ghost predicate Suffix(all: seq<Answer>, now: seq<Answer>) { |now| <= |all| && now == all[|all| - |now|..] }

  /** The frames read so far, no goodbye among them. */
  ghost predicate NoGoodbye(input: seq<byte>, got: seq<Frame>, rest: seq<byte>) {
    Splits(input, got, rest) && forall i :: 0 <= i < |got| ==> !got[i].header.tag.GoAway?
  }

  lemma NothingAwaited(input: seq<byte>, script: seq<Answer>)
    ensures NoGoodbye(input, [], input) && Suffix(script, script)
  {
    SplitsNothing(input);
  }

  lemma ReadOneMore(input: seq<byte>, got: seq<Frame>, rest: seq<byte>, f: Frame, left: seq<byte>)
    requires NoGoodbye(input, got, rest) && Splits(rest, [f], left)
    ensures Splits(input, got + [f], left) && (forall i :: 0 <= i < |got| ==> !got[i].header.tag.GoAway?)
    ensures !f.header.tag.GoAway? ==> NoGoodbye(input, got + [f], left)
  {
    hide Splits;
    SplitsOn(input, got, rest, [f], left);
  }

  lemma GoodbyeCame(input: seq<byte>, got: seq<Frame>, rest: seq<byte>, before: seq<Answer>, after: seq<Answer>, arriving: seq<byte>, ended: bool)
    requires Splits(input, got, rest) && EndsWithGoodbye(got) && forall i :: 0 <= i < |got| - 1 ==> !got[i].header.tag.GoAway?
    ensures Awaited(input, before, after, arriving, ended, Closed, got, rest)
  {
    hide Splits;
  }

  lemma NoGoodbyeCame(input: seq<byte>, got: seq<Frame>, rest: seq<byte>, all: seq<Answer>, before: seq<Answer>, after: seq<Answer>,
                      arriving: seq<byte>, ended: bool, r: Result)
    requires NoGoodbye(input, got, rest) && (|after| < |before| ==> LastUsed(all, after) == LastUsed(before, after))
    requires match r
             case Closed => rest == [] && ended
             case Unfinished => NoMoreNow(before, after, arriving, ended)
             case Error => LastUsed(before, after) == Some(Fault) || CannotGoOn(rest, ended)
    ensures Awaited(input, all, after, arriving, ended, r, got, rest)
  {
    hide Splits, CannotGoOn;
  }

  class Closing {
    var stage: Stage
    var channels: seq<Channel>
    var pendingFrames: seq<Frame>
    const io: Io
    const waitForReply: bool

    /** All channels are drained and the goodbye is last, once flushing has begun. */
    ghost predicate Valid() reads this, io, io.socket {
      && io.Valid() && ChannelsOk(channels) && (forall i :: 0 <= i < |pendingFrames| ==> WellFormed(pendingFrames[i]))
      && (stage.FlushingPendingFrames? || stage.WaitingForReply? || stage.ClosingSocket? ==>
            && AllEmpty(channels)
            && GoodbyeAtEnd(io.sent + pendingFrames))
      && (stage.WaitingForReply? || stage.ClosingSocket? ==> pendingFrames == [] && io.writeState.WInit?)
      && (stage.WaitingForReply? ==> waitForReply)
    }

    ghost predicate Keeps(sent: seq<Frame>, pending: seq<Frame>, cs: seq<Channel>) reads this, io {
      SameLines(sent, pending, cs, io.sent, pendingFrames, channels)
    }

    constructor (channels: seq<Channel>, pendingFrames: seq<Frame>, io: Io, waitForReply: bool)
      requires io.Valid() && ChannelsOk(channels) && forall i :: 0 <= i < |pendingFrames| ==> WellFormed(pendingFrames[i])
      ensures Valid() && this.io == io && this.channels == channels && this.pendingFrames == pendingFrames
      ensures this.waitForReply == waitForReply && stage.ClosingStreamReceiver?
    {
      this.stage, this.channels, this.pendingFrames, this.io, this.waitForReply :=
        ClosingStreamReceiver, channels, pendingFrames, io, waitForReply;
    }

    /** Take the next command of any channel that has one. */
    method DrainOne() returns (ghost drained: seq<Frame>)
      requires Valid() && stage.DrainingStreamReceiver?
      modifies this`channels, this`pendingFrames, this`stage
      ensures Valid() && Keeps(old(io.sent), old(pendingFrames), old(channels))
      ensures pendingFrames == old(pendingFrames) + drained + (if stage.FlushingPendingFrames? then [TERM] else []) && AllWellFormed(drained)
      ensures if stage.FlushingPendingFrames? then drained == [] && channels == old(channels) else !AllEmpty(old(channels))
      ensures stage.FlushingPendingFrames? || (stage.DrainingStreamReceiver? && TotalCommands(channels) < old(TotalCommands(channels)))
    {
      assert WellFormed(TERM);
      hide WellFormed, EncodeAll, Unsent, Only, Undrained, TotalCommands, SameLines;
      var i := 0;
      while i < |channels| && channels[i].cmds == []
        invariant i <= |channels| && forall j :: 0 <= j < i ==> channels[j].cmds == []
      {
        i := i + 1;
      }
      if i < |channels| {
        var any :| 0 <= any < |channels| && channels[any].cmds != [];
        DrainKeepsLines(io.sent, pendingFrames, channels, any);
        PopKeeps(channels, any);
        drained := [CommandFrame(channels[any].cmds[0])];
        pendingFrames := pendingFrames + [CommandFrame(channels[any].cmds[0])];
        channels := Popped(channels, any);
      } else {
        drained := [];
        GoodbyeKeepsLines(io.sent, pendingFrames, channels);
        assert io.sent + (pendingFrames + [TERM]) == (io.sent + pendingFrames) + [TERM];
        pendingFrames := pendingFrames + [TERM];
        stage := FlushingPendingFrames;
      }
    }

    /** Write out one frame of the backlog, once the frame before it is out. */
    method FlushOne() returns (r: FrameIo.Reply, ghost bytes: seq<byte>)
      requires Valid() && stage.FlushingPendingFrames?
      modifies this`pendingFrames, this`stage, io, io.socket`script, io.socket`written
      ensures Valid() && Keeps(old(io.sent), old(pendingFrames), old(channels)) && channels == old(channels)
      ensures r.Done? && stage.FlushingPendingFrames? ==> |pendingFrames| < |old(pendingFrames)|
      ensures io.readState == old(io.readState)
      ensures r.Done? && !stage.FlushingPendingFrames? ==> stage == if waitForReply then WaitingForReply else ClosingSocket
      ensures !r.Done? ==> stage.FlushingPendingFrames? && io.sent == old(io.sent)
      ensures io.intact == old(io.intact) && (old(io.overReported) ==> io.overReported) && io.socket.written == old(io.socket.written) + bytes
      ensures old(FlushAll(io.writeState, pendingFrames, io.socket.script)) ==
                if r.Done? && stage.FlushingPendingFrames? then Preceded(bytes, FlushAll(io.writeState, pendingFrames, io.socket.script))
                else Written(r, io.writeState, io.socket.script, bytes)
    {
      hide WellFormed, EncodeAll, Unsent, Only, Undrained, WriteOut;
      bytes := WriteOut(io.writeState, io.socket.script).bytes;
      r := io.PollReady();
      if !r.Done? { return; }
      io.IntactMeans();
      if pendingFrames != [] {
        SendKeepsLines(io.sent, pendingFrames, channels);
        assert (io.sent + [pendingFrames[0]]) + pendingFrames[1..] == io.sent + pendingFrames;
        io.StartSend(pendingFrames[0]);
        pendingFrames := pendingFrames[1..];
      } else {
        stage := if waitForReply then WaitingForReply else ClosingSocket;
      }
    }

    /** Ignore what arrives until it is a goodbye, or the input ends. */
    method AwaitReply() returns (r: Result, ghost got: seq<Frame>, ghost rest: seq<byte>)
      requires Valid() && stage.WaitingForReply?
      modifies this`stage, io`readState, io.socket`script, io.socket`arriving
      ensures Valid() && io.sent == old(io.sent) && (r.Closed? <==> stage.ClosingSocket?) && (!r.Closed? ==> stage.WaitingForReply?)
      ensures Awaited(old(io.Input()), old(io.socket.script), io.socket.script, io.socket.arriving, io.socket.ended, r, got, rest)
      ensures r.Unfinished? ==> io.Input() == rest
    {
      hide WellFormed, EncodeAll, Unsent, GoodbyeAtEnd, ChannelsOk, Awaited, NoGoodbye, Suffix;
      got, rest := [], io.Input();
      NothingAwaited(rest, io.socket.script);
      while true
        invariant Valid() && stage.WaitingForReply? && io.sent == old(io.sent) && rest == io.Input()
        invariant NoGoodbye(old(io.Input()), got, rest) && Suffix(old(io.socket.script), io.socket.script)
        decreases |io.Input()|
      {
        ghost var before;
        var item;
        item, before := NextItem(old(io.socket.script));
        if item.Got? {
          ReadOneMore(old(io.Input()), got, rest, item.frame, io.Input());
          got, rest := got + [item.frame], io.Input();
          if item.frame.header.tag.GoAway? {
            stage := ClosingSocket;
            GoodbyeCame(old(io.Input()), got, rest, old(io.socket.script), io.socket.script, io.socket.arriving, io.socket.ended);
            return Closed, got, rest;
          }
        } else {
          r := if item.Waiting? then Unfinished else if item.End? then Closed else Error;
          if r.Closed? { stage := ClosingSocket; }
          NoGoodbyeCame(old(io.Input()), got, rest, old(io.socket.script), before, io.socket.script, io.socket.arriving, io.socket.ended, r);
          return;
        }
      }
    }

    /** The next item, and what it says if it is no frame. */
    method NextItem(ghost all: seq<Answer>) returns (item: Item, ghost before: seq<Answer>)
      requires Valid() && Suffix(all, io.socket.script)
      modifies io`readState, io.socket`script, io.socket`arriving
      ensures io.Valid() && before == old(io.socket.script) && Suffix(all, io.socket.script)
      ensures |io.socket.script| < |before| ==> LastUsed(all, io.socket.script) == LastUsed(before, io.socket.script)
      ensures item.Got? ==> Splits(old(io.Input()), [item.frame], io.Input()) && |io.Input()| < |old(io.Input())|
      ensures item.End? ==> old(io.Input()) == [] && io.socket.ended
      ensures item.Waiting? ==> io.Input() == old(io.Input()) && NoMoreNow(before, io.socket.script, io.socket.arriving, io.socket.ended)
      ensures !item.Got? && !item.End? && !item.Waiting? ==>
                LastUsed(before, io.socket.script) == Some(Fault) || CannotGoOn(old(io.Input()), io.socket.ended)
    {
      hide WellFormed, EncodeAll, Unsent, GoodbyeAtEnd, ChannelsOk, ItemOk, Reads, Splits, CannotGoOn, LastUsed, NoMoreNow;
      ghost var input, arriving := io.Input(), io.socket.arriving;
      before := io.socket.script;
      item := io.PollNext();
      ReadsSuffix(all, before, io.socket.script, arriving, io.socket.arriving, io.socket.ended, item);
      if item.Got? {
        GotIsFirst(input, item, io.Input(), io.socket.arriving, io.socket.ended, io.readState);
      } else {
        NoFrameMeans(input, item, io.Input(), io.socket.arriving, io.socket.ended, io.readState, before, io.socket.script, arriving);
      }
    }

    /** A flush that was to come to `all`, from `written` on, has come to here. */
    ghost predicate Onward(all: Written, written: seq<byte>) reads this, io, io.socket
      requires WriteStateOk(io.writeState) && AllWellFormed(pendingFrames)
    {
      exists bytes ::
        && io.socket.written == written + bytes
        && if stage.FlushingPendingFrames? then all == Preceded(bytes, FlushAll(io.writeState, pendingFrames, io.socket.script))
           else all.reply.Done? && all.state == io.writeState && all.bytes == bytes && (stage.WaitingForReply? || !waitForReply ==> all.script == io.socket.script)
    }

    /** It stops here. */
    ghost predicate Halted(all: Written, written: seq<byte>, r: FrameIo.Reply) reads this, io, io.socket {
      all.reply == r && all.state == io.writeState && io.socket.written == written + all.bytes && all.script == io.socket.script
    }

    lemma FlushBegins()
      requires Valid() && stage.FlushingPendingFrames?
      ensures Onward(FlushAll(io.writeState, pendingFrames, io.socket.script), io.socket.written)
    {
      hide WellFormed, EncodeAll, FlushAll;
      assert io.socket.written == io.socket.written + [];
      PrecededByNothing(FlushAll(io.writeState, pendingFrames, io.socket.script));
    }

    /** One frame more, and the flush goes on or stops. */
    method FlushOn(ghost all: Written, ghost written: seq<byte>) returns (r: FrameIo.Reply)
      requires Valid() && stage.FlushingPendingFrames? && Onward(all, written)
      modifies this`pendingFrames, this`stage, io, io.socket`script, io.socket`written
      ensures Valid() && Keeps(old(io.sent), old(pendingFrames), old(channels)) && channels == old(channels)
      ensures r.Done? && stage.FlushingPendingFrames? ==> |pendingFrames| < |old(pendingFrames)|
      ensures io.readState == old(io.readState)
      ensures r.Done? && !stage.FlushingPendingFrames? ==> stage == if waitForReply then WaitingForReply else ClosingSocket
      ensures !r.Done? ==> stage.FlushingPendingFrames?
      ensures io.intact == old(io.intact) && (old(io.overReported) ==> io.overReported)
      ensures if r.Done? then Onward(all, written) else Halted(all, written, r)
    {
      hide WellFormed, EncodeAll, FlushAll, SameLines;
      ghost var bytes :| io.socket.written == written + bytes
                         && all == Preceded(bytes, FlushAll(io.writeState, pendingFrames, io.socket.script));
      ghost var out;
      r, out := FlushOne();
      assert (written + bytes) + out == written + (bytes + out);
      PrecededStop(bytes, out, r, io.writeState, io.socket.script);
      if stage.FlushingPendingFrames? { PrecededTwice(bytes, out, FlushAll(io.writeState, pendingFrames, io.socket.script)); }
    }

    /** The future as it stands. */
    ghost function Now(): Begun
      reads this, io, io.socket
      requires ReadStateOk(io.readState)
    {
      Begun(stage, pendingFrames, channels, io.sent, io.writeState, io.socket.script, io.socket.written, io.Input(), io.socket.ended)
    }

    /** What came of waiting for the reply, once the answers before `script` were used for
        the flush. */
    ghost predicate Replied(b: Begun, script: seq<Answer>, r: Result) reads io, io.socket {
      exists got, rest ::
        && Awaited(b.input, script, io.socket.script, io.socket.arriving, b.ended, r, got, rest)
        && (r.Unfinished? ==> ReadStateOk(io.readState) && io.Input() == rest)
    }

    /** The answers that are left for the reply. */
    function ForReply(b: Begun, all: Written): seq<Answer> { if AfterFlush(b.stage) then b.script else all.script }

    /** Where a poll that began with `b` has come to: the frames drained, and what the flush
        comes to in all, once it has begun. */
    ghost predicate Going(b: Begun, drained: seq<Frame>, all: Written) reads this, io, io.socket {
      && Valid() && Keeps(b.sent, b.pending, b.channels) && AllWellFormed(drained) && (AllEmpty(b.channels) ==> drained == [])
      && (AfterFlush(b.stage) ==> AfterFlush(stage)) && (b.stage.ClosingSocket? ==> stage.ClosingSocket?)
      && (b.stage.WaitingForReply? ==> waitForReply) && io.socket.ended == b.ended
      && (!stage.ClosingSocket? ==> io.Input() == b.input)
      && (stage.WaitingForReply? ==> io.socket.script == ForReply(b, all))
      && (stage.ClosingSocket? && waitForReply && !b.stage.ClosingSocket? ==> Replied(b, ForReply(b, all), Closed))
      && (BeforeFlush(stage) ==>
            && BeforeFlush(b.stage) && pendingFrames == b.pending + drained && (AllEmpty(b.channels) ==> channels == b.channels)
            && io.writeState == b.write && io.socket.script == b.script && io.socket.written == b.written)
      && (!BeforeFlush(stage) && !AfterFlush(b.stage) ==>
            && WriteStateOk(b.write) && AllWellFormed(Due(b.stage, b.pending, drained))
            && all == FlushAll(b.write, Due(b.stage, b.pending, drained), b.script) && Onward(all, b.written))
    }

    /** What a poll that began with `b` came to: a flush of the backlog, of the commands
        drained and of the goodbye, as far as it went, and then, if it is to be waited for,
        the reply. */
    ghost predicate Came(b: Begun, drained: seq<Frame>, r: Result) reads this, io, io.socket {
      && AllWellFormed(drained) && (AllEmpty(b.channels) ==> drained == []) && (r.Closed? ==> stage.ClosingSocket?)
      && (!AfterFlush(b.stage) ==>
            && WriteStateOk(b.write) && AllWellFormed(Due(b.stage, b.pending, drained))
            && var o := FlushAll(b.write, Due(b.stage, b.pending, drained), b.script);
               && io.writeState == o.state && io.socket.written == b.written + o.bytes && (r.Closed? ==> o.reply.Done?)
               && (!waitForReply ==> io.socket.script == o.script && (r.Closed? <==> o.reply.Done?))
               && (if o.reply.Done? then waitForReply ==> Replied(b, o.script, r) else r == if o.reply.NotYet? then Unfinished else Error))
      && (b.stage.WaitingForReply? ==> Replied(b, b.script, r)) && (b.stage.ClosingSocket? ==> r.Closed?)
    }

    lemma Begins(all: Written)
      requires Valid() && (stage.FlushingPendingFrames? ==> all == FlushAll(io.writeState, pendingFrames, io.socket.script))
      ensures Going(Now(), [], all)
    {
      hide WellFormed, EncodeAll, FlushAll, Onward, Only, Undrained, GoodbyeAtEnd;
      ValidMeans();
      if stage.FlushingPendingFrames? { FlushBegins(); }
    }

    method DrainOn(ghost b: Begun, ghost drained: seq<Frame>, ghost all: Written) returns (ghost more: seq<Frame>, ghost to: Written)
      requires Going(b, drained, all) && stage.DrainingStreamReceiver?
      modifies this`channels, this`pendingFrames, this`stage
      ensures Going(b, drained + more, to)
      ensures stage.FlushingPendingFrames? || (stage.DrainingStreamReceiver? && TotalCommands(channels) < old(TotalCommands(channels)))
    {
      hide Valid, TotalCommands, WellFormed, FlushAll, Onward, Only, Undrained, GoodbyeAtEnd;
      more := DrainOne();
      to := all;
      if stage.FlushingPendingFrames? {
        assert pendingFrames == Due(b.stage, b.pending, drained + more);
        FlushBegins();
        ValidMeans();
        to := FlushAll(io.writeState, pendingFrames, io.socket.script);
      } else {
        assert b.pending + (drained + more) == (b.pending + drained) + more;
      }
    }

    method FlushNext(ghost b: Begun, ghost drained: seq<Frame>, ghost all: Written) returns (r: FrameIo.Reply)
      requires Going(b, drained, all) && stage.FlushingPendingFrames?
      modifies this`pendingFrames, this`stage, io, io.socket`script, io.socket`written
      ensures Valid() && Keeps(b.sent, b.pending, b.channels) && io.intact == old(io.intact) && (old(io.overReported) ==> io.overReported)
      ensures if r.Done? then Going(b, drained, all) else Came(b, drained, if r.NotYet? then Unfinished else Error)
      ensures r.Done? && stage.FlushingPendingFrames? ==> |pendingFrames| < |old(pendingFrames)|
      ensures io.readState == old(io.readState)
      ensures r.Done? ==> channels == old(channels) && !BeforeFlush(stage)
    {
      hide Valid, TotalCommands, WellFormed, FlushAll, Only, Undrained, GoodbyeAtEnd;
      ValidMeans();
      r := FlushOn(all, b.written);
    }

    method Await(ghost b: Begun, ghost drained: seq<Frame>, ghost all: Written) returns (r: Result)
      requires Going(b, drained, all) && stage.WaitingForReply?
      modifies this`stage, io`readState, io.socket`script, io.socket`arriving
      ensures Valid() && Keeps(b.sent, b.pending, b.channels)
      ensures if r.Closed? then stage.ClosingSocket? && Going(b, drained, all) else Came(b, drained, r)
    {
      hide Valid, TotalCommands, WellFormed, FlushAll, Only, Undrained, GoodbyeAtEnd;
      ValidMeans();
      ghost var got, rest;
      r, got, rest := AwaitReply();
      ValidMeans();
      assert Replied(b, ForReply(b, all), r);
    }

    lemma ClosedCame(b: Begun, drained: seq<Frame>, all: Written)
      requires Going(b, drained, all) && stage.ClosingSocket?
      ensures Came(b, drained, Closed)
    {
      hide Valid, WellFormed, FlushAll, Only, Undrained, GoodbyeAtEnd;
    }

    /** Run until there is something to wait for. Every stream's frames stay in their
        order, none is lost, and what is written is what a flush of the backlog, of the
        commands drained and of the goodbye writes. */
    method Poll() returns (r: Result, ghost drained: seq<Frame>)
      requires Valid()
      modifies this, io, io.socket
      ensures Valid() && Keeps(old(io.sent), old(pendingFrames), old(channels)) && io.intact == old(io.intact) && (old(io.overReported) ==> io.overReported)
      ensures Came(old(Now()), drained, r) && (r.Closed? ==> stage.ClosingSocket?)
    {
      hide Valid, TotalCommands, SameLines, FlushAll, Came;
      ValidMeans();
      ghost var b := Now();
      drained := [];
      ghost var all := Written(FrameIo.Reply.Done, WInit, [], []);
      if stage.FlushingPendingFrames? {
        all := FlushAll(io.writeState, pendingFrames, io.socket.script);
      }
      Begins(all);
      hide Going;
      while true
        invariant io.intact == old(io.intact) && (old(io.overReported) ==> io.overReported) && Going(b, drained, all)
        decreases Rank(stage), TotalCommands(channels), |pendingFrames|
      {
        match stage
        case ClosingStreamReceiver =>
          CloseReceivers(b, drained, all);
        case DrainingStreamReceiver =>
          ghost var more, to := DrainOn(b, drained, all);
          drained, all := drained + more, to;
        case FlushingPendingFrames =>
          var w := FlushNext(b, drained, all);
          if w.NotYet? { return Unfinished, drained; }
          if !w.Done? { return Error, drained; }
        case WaitingForReply =>
          r := Await(b, drained, all);
          if !r.Closed? { return; }
        case ClosingSocket =>
          ClosedCame(b, drained, all);
          GoingMeans(b, drained, all);
          return Closed, drained;
      }
    }

    lemma GoingMeans(b: Begun, drained: seq<Frame>, all: Written)
      requires Going(b, drained, all)
      ensures Valid() && Keeps(b.sent, b.pending, b.channels)
    {
    }

    lemma ValidMeans()
      requires Valid()
      ensures WriteStateOk(io.writeState) && ReadStateOk(io.readState) && AllWellFormed(pendingFrames) && (stage.WaitingForReply? ==> waitForReply)
    {
    }

    method CloseReceivers(ghost b: Begun, ghost drained: seq<Frame>, ghost all: Written)
      requires Going(b, drained, all) && stage.ClosingStreamReceiver?
      modifies this`stage
      ensures Going(b, drained, all) && stage.DrainingStreamReceiver?
    {
      stage := DrainingStreamReceiver;
    }

    function Rank(s: Stage): nat {
      match s
      case ClosingStreamReceiver => 4
      case DrainingStreamReceiver => 3
      case FlushingPendingFrames => 2
      case WaitingForReply => 1
      case ClosingSocket => 0
    }

    /** When the future is done, every stream's frames have been handed to the writer, those
        of the backlog first and then those of its channel, and a goodbye after them. They
        are what has been written if and only if the writer is intact. */
    lemma DoneMeansSent(pending: seq<Frame>, cs: seq<Channel>, sent: seq<Frame>, id: StreamId)
      requires Valid() && stage.ClosingSocket? && SameLines(sent, pending, cs, io.sent, pendingFrames, channels) && id != SESSION
      ensures Only(io.sent, id) == Only(sent + pending, id) + Undrained(cs, id)
      ensures (io.intact <==> io.socket.written == EncodeAll(io.sent)) && GoodbyeAtEnd(io.sent)
    {
      hide WellFormed, EncodeAll, Unsent, Only, Undrained;
      io.IntactMeans();
      NothingUndrained(channels, id);
      assert io.sent + [] == io.sent;
      assert Line(io.sent, pendingFrames, channels, id) == Line(sent, pending, cs, id);
      assert Only(io.sent, id) + [] == Only(io.sent, id);
    }
  }

  predicate GoodbyeAtEnd(fs: seq<Frame>) { fs != [] && fs[|fs| - 1] == TERM }

  // ----- the whole close -----

  /** Close over any socket. When it completes, the remote decodes a clean stream of
      frames that ends with the goodbye, and that holds for every stream the frames
      of the backlog and then those of its channel. */
  method CloseAll(channels: seq<Channel>, pending: seq<Frame>, script: seq<Answer>, replies: seq<byte>, waitForReply: bool)
    returns (r: Result, written: seq<byte>)
    requires ChannelsOk(channels) && forall i :: 0 <= i < |pending| ==> WellFormed(pending[i])
    ensures r.Closed? ==>
              var received := DecodeStream(written);
              && received.ending == Clean && GoodbyeAtEnd(received.frames)
              && (forall id: StreamId :: id != SESSION ==>
                    Only(received.frames, id) == Only(pending, id) + Undrained(channels, id))
  {
    hide Only, Undrained, EncodeAll, DecodeStream, WellFormed;
    var socket := new Socket(script, replies, true);
    var io := new Io(socket);
    var closing := new Closing(channels, pending, io, waitForReply);
    ghost var drained;
    r, drained := closing.Poll();
    written := socket.written;
    if r.Closed? {
      assert [] + pending == pending;
      forall id: StreamId | id != SESSION ensures Only(io.sent, id) == Only(pending, id) + Undrained(channels, id) {
        closing.DoneMeansSent(pending, channels, [], id);
      }
      closing.DoneMeansSent(pending, channels, [], 1);
      X.NothingCut(io.sent);
      assert [] + written == written;
    }
  }
}
