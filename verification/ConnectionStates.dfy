/** The life of a connection: active, then closing or cleaning up, then closed
    (mux/mux/src/connection.rs and connection/cleanup.rs). */
module ConnectionStates {
  import opened Basics
  import opened Frames
  import opened PeerModel
  import opened PeerInvariants
  import opened LaneView
  import opened TwoPeers
  import opened PeerClosing
  import opened StreamModel
  import opened TwoPeersTheorems
  import P = TwoPeersPaths
  import L = LaneModel
  import C = Codec
  import Io = FrameIo
  import F = ClosingFuture
  import X = FrameExchange
  import Endpoint
  import PeerRuns
  import opened PeerAccounts
  import opened PeerAnswers
  import opened ActiveDriver

  datatype Life = Active | Closing(future: F.Closing) | Cleanup(why: Reason) | Closed(hasIo: bool) | Poisoned

  datatype Result = Pending | Done | Error(why: Reason) | Panics

  // ----- handing over to the closing future -----

  /** The command channels in some order. */
  ghost predicate ChannelOrder(queues: map<HandleId, Queue>, hs: seq<HandleId>) {
    && (forall h :: h in hs <==> h in queues)
    && (forall i, j :: 0 <= i < j < |hs| ==> hs[i] != hs[j])
  }

  function ChannelsOf(queues: map<HandleId, Queue>, hs: seq<HandleId>): (cs: seq<F.Channel>)
    requires forall h :: h in hs ==> h in queues
    ensures |cs| == |hs| && forall i :: 0 <= i < |hs| ==> cs[i] == F.Channel(hs[i].id, queues[hs[i]].cmds)
  {
    seq(|hs|, i requires 0 <= i < |hs| => F.Channel(hs[i].id, queues[hs[i]].cmds))
  }

  /** The channel of a stream holds what the peer has queued for it. */
  lemma {:induction false} ChannelsHold(queues: map<HandleId, Queue>, hs: seq<HandleId>, id: StreamId)
    requires (forall h :: h in hs ==> h in queues && h.k == 0) && forall i, j :: 0 <= i < j < |hs| ==> hs[i] != hs[j]
    ensures F.Undrained(ChannelsOf(queues, hs), id) == if Only0(id) in hs then CommandFrames(queues[Only0(id)].cmds) else []
  {
    if hs != [] {
      assert ChannelsOf(queues, hs)[1..] == ChannelsOf(queues, hs[1..]);
      ChannelsHold(queues, hs[1..], id);
      if hs[0].id == id {
        assert hs[0] == Only0(id) && Only0(id) !in hs[1..];
      }
    }
  }

  /** What was sent, what is staged, and what the channels hold are, stream by stream,
      the bytes that were accepted. */
  ghost predicate Owes(accepted: map<StreamId, seq<byte>>, sent: seq<Frame>, pending: seq<Frame>, cs: seq<F.Channel>) {
    forall id: StreamId :: id != SESSION ==> L.Bytes(F.Line(sent, pending, cs, id)) == Log(accepted, id)
  }

  lemma HandoverOwes(p: Peer, order: seq<StreamId>, hs: seq<HandleId>)
    requires Accountable(p) && KeyOrder(p.reg.owed, order) && ChannelOrder(p.queues, hs)
    ensures Owes(p.hist.written, p.hist.sent, BeginClose(p, order).drv.backlog, ChannelsOf(p.queues, hs))
  {
    hide Inv, Single, WireOk, KeyOrder, ChannelsOf, Accounted, BeginClose, L.Bytes, F.Line;
    forall id: StreamId | id != SESSION
      ensures L.Bytes(F.Line(p.hist.sent, BeginClose(p, order).drv.backlog, ChannelsOf(p.queues, hs), id)) == Log(p.hist.written, id)
    {
      HandoverLine(p, order, hs, id);
      assert Accounted(p, id);
      AccountedMeans(p, id);
    }
  }

  lemma AccountedMeans(p: Peer, id: StreamId)
    requires Accounted(p, id)
    ensures L.Bytes(Path(p.hist.sent, p, id)) == Log(p.hist.written, id)
  {
  }

  lemma HandoverLine(p: Peer, order: seq<StreamId>, hs: seq<HandleId>, id: StreamId)
    requires Accountable(p) && KeyOrder(p.reg.owed, order) && ChannelOrder(p.queues, hs) && id != SESSION
    ensures F.Line(p.hist.sent, BeginClose(p, order).drv.backlog, ChannelsOf(p.queues, hs), id) == Path(p.hist.sent, p, id)
  {
    hide WireOk, KeyOrder, Accounted, Only, QueuedFor, Waiting, CommandFrames, F.Undrained, StopReceiving, OwedFrames;
    var q := BeginClose(p, order);
    QuietDriver(p);
    P.ClosePath(p, p.hist.sent, order, id);
    HandlesAreFirst(p, hs);
    ChannelsHold(p.queues, hs, id);
    P.ClosedQueued(p, order, id);
    OnlyConcat(p.hist.sent, q.drv.backlog, id);
    QueuedIs(p.queues, hs, id);
    ClosedWaiting(q, id);
    Group(Only(p.hist.sent, id), Only(q.drv.backlog, id), QueuedFor(q.queues, id));
  }

  lemma Group(a: seq<Frame>, b: seq<Frame>, c: seq<Frame>)
    ensures (a + b) + c == a + (b + c)
  {
  }

  lemma QuietDriver(p: Peer)
    requires Accountable(p)
    ensures p.drv.backlog == [] && |p.reg.owed| <= 1 && PROTOCOL_ERROR.header.id == SESSION
  {
    hide RecordsOk, RegistryOk, HandlesOk, NoLeak, WaitersInactive, WaitersOpened, FinsTold, BudgetOk, QueuesOk, Single, WireOk, Accounted;
  }

  lemma HandlesAreFirst(p: Peer, hs: seq<HandleId>)
    requires Accountable(p) && ChannelOrder(p.queues, hs)
    ensures forall h :: h in hs ==> h in p.queues && h.k == 0
  {
    hide RecordsOk, RegistryOk, HandlesOk, NoLeak, WaitersInactive, WaitersOpened, FinsTold, BudgetOk, WireOk, Accounted, SlotsOk;
  }

  lemma QueuedIs(queues: map<HandleId, Queue>, hs: seq<HandleId>, id: StreamId)
    requires ChannelOrder(queues, hs)
    ensures QueuedFor(queues, id) == if Only0(id) in hs then CommandFrames(queues[Only0(id)].cmds) else []
  {
  }

  lemma ClosedWaiting(q: Peer, id: StreamId)
    requires ChannelsClosed(q) && q.drv.pendingWrite.None?
    ensures Waiting(q, id) == Only(q.drv.backlog, id) + QueuedFor(q.queues, id)
  {
  }

  lemma HandoverChannels(p: Peer, hs: seq<HandleId>)
    requires Accountable(p) && ChannelOrder(p.queues, hs)
    ensures F.ChannelsOk(ChannelsOf(p.queues, hs))
  {
    HandlesAreFirst(p, hs);
    hide Inv, Accounted;
    var cs := ChannelsOf(p.queues, hs);
    forall i, k | 0 <= i < |cs| && 0 <= k < |cs[i].cmds|
      ensures WellFormed(CommandFrame(cs[i].cmds[k])) && CommandFrame(cs[i].cmds[k]).header.id == cs[i].id
    {
      assert hs[i] in p.queues && StreamFrame(CommandFrame(p.queues[hs[i]].cmds[k]));
    }
  }

  lemma HandoverBacklog(p: Peer, order: seq<StreamId>)
    requires Accountable(p) && KeyOrder(p.reg.owed, order)
    ensures forall i :: 0 <= i < |BeginClose(p, order).drv.backlog| ==> WellFormed(BeginClose(p, order).drv.backlog[i])
  {
    hide Inv, Single, Accounted, StopReceiving;
    OwedWellFormed(p, order);
  }

  lemma {:induction false} OwedWellFormed(p: Peer, order: seq<StreamId>)
    requires WireOk(p) && forall id :: id in order ==> id in p.reg.owed
    ensures forall i :: 0 <= i < |OwedFrames(p.reg.owed, order)| ==> WellFormed(OwedFrames(p.reg.owed, order)[i])
  {
    if order != [] {
      OwedWellFormed(p, order[1..]);
      assert StreamFrame(p.reg.owed[order[0]]);
    }
  }

  // ----- the states -----

  /** The elements of a set, in some order. */
  method Listed<T(==,!new)>(elements: set<T>) returns (xs: seq<T>)
    ensures (forall x :: x in xs <==> x in elements) && |xs| == |elements|
    ensures forall i, j :: 0 <= i < j < |xs| ==> xs[i] != xs[j]
  {
    xs := [];
    var left := elements;
    while left != {}
      invariant left <= elements && |xs| + |left| == |elements| && forall x :: x in xs <==> x in elements && x !in left
      invariant forall i, j :: 0 <= i < j < |xs| ==> xs[i] != xs[j]
      decreases left
    {
      var x :| x in left;
      xs, left := xs + [x], left - {x};
    }
  }

  /** The object that its user polls. `accepted` are the bytes that were accepted for
      each stream by the time the connection was closed. */
  class Connection {
    const active: Endpoint.Connection
    const io: Io.Io
    var state: Life
    ghost var accepted: map<StreamId, seq<byte>>

    ghost function Future(): set<object> reads this { if state.Closing? then {state.future} else {} }

    /** The state is never poisoned, unless the peer panicked. The socket is given back only
        after everything that was accepted has been handed to the writer, with the goodbye
        behind it; an intact writer, and no other, has written it all. */
    ghost predicate Valid() reads this, active, io, io.socket, Future() {
      match state
      case Active => Linked(active, io) && active.phase.Active?
      case Closing(f) => Gone() && f.io == io && f.Valid() && Owes(accepted, io.sent, f.pendingFrames, f.channels)
      case Cleanup(_) => Gone()
      case Closed(hasIo) => Gone() && (hasIo ==> AllWritten())
      case Poisoned => active.phase.Panicked?
    }

    /** The channels are shut, and nobody is parked. */
    ghost predicate Gone() reads active { ChannelsClosed(active.Snapshot()) && Deserted(active.Snapshot().reg) }

    /** Neither active nor poisoned. */
    predicate HasLeft() reads this { state.Closing? || state.Cleanup? || state.Closed? }

    ghost predicate AllWritten() reads this, io, io.socket {
      && io.Valid() && F.GoodbyeAtEnd(io.sent) && (io.intact <==> io.socket.written == C.EncodeAll(io.sent))
      && forall id: StreamId :: id != SESSION ==> L.Bytes(Only(io.sent, id)) == Log(accepted, id)
    }

    constructor (cfg: Config, socket: Io.Socket)
      requires UsableConfig(cfg) && socket.written == []
      ensures Valid() && state == Life.Active && fresh(active) && fresh(io) && io.socket == socket && io.intact
      ensures SceneOf(active, io) == Scene(NewPeer(cfg), Io.WInit, socket.script, [], Io.RInit, socket.arriving, socket.ended) && !io.overReported
    {
      active := new Endpoint.Connection(cfg);
      io := new Io.Io(socket);
      state := Life.Active;
      accepted := map[];
      new;
      NewAccountable(cfg);
    }

    // ----- what its handles do -----

    /** Streams are opened in the active state only. */
    method NewStream(h: HandleId) returns (ok: bool)
      requires Valid() && (state.Active? ==> CanOpen(active.Snapshot(), h) && h.k == 0)
      modifies active
      ensures Valid() && ok == state.Active?
      ensures active.Snapshot() == if ok then PeerModel.NewStream(old(active.Snapshot()), h) else old(active.Snapshot())
    {
      hide Accountable, PeerModel.NewStream, Io.Io.Valid, WellFormed, C.EncodeAll;
      if !state.Active? { return false; }
      ghost var p := active.Snapshot();
      active.NewStream(h);
      OpeningDriver(p, h);
      AccountableRegistry(p);
      CallAccountable(p, Opening(h), active.Snapshot());
      ok := true;
    }

    method Write(h: HandleId, data: seq<byte>) returns (reply: PeerModel.Reply)
      requires Valid() && Usable(active.Snapshot(), h)
      modifies active
      ensures Valid() && Called(active.Snapshot(), reply) == PollWrite(old(active.Snapshot()), h, data)
      ensures state.Active? && h in old(active.handles) ==> WriteAnswers(old(active.Snapshot()), h, data, Called(active.Snapshot(), reply))
      ensures HasLeft() ==> reply == WriteZero && active.hist == old(active.hist)
    {
      hide Accountable, PollWrite, WriteAnswers, Deserted, Owes, AllWritten, F.Closing.Valid, Io.Io.Valid;
      ghost var p := active.Snapshot();
      reply := active.PollWrite(h, data);
      WriteKeepsDriver(p, h, data);
      assert active.Drv().phase == old(active.phase);
      if HasLeft() { WriteMeetsShutChannel(p, h, data); }
      if state.Active? {
        AccountableMeans(p);
        WriteMeans(p, h, data);
        AccountableRegistry(p);
        CallAccountable(p, Writing(h, data), active.Snapshot());
      }
    }

    method Read(h: HandleId, n: nat, fast: bool) returns (reply: PeerModel.Reply)
      requires Valid() && Usable(active.Snapshot(), h)
      modifies active
      ensures Valid() && Called(active.Snapshot(), reply) == PollRead(old(active.Snapshot()), h, n, fast)
      ensures ReadAnswers(old(active.Snapshot()), h, n, Called(active.Snapshot(), reply)) && (HasLeft() ==> !reply.Parked?)
    {
      hide Accountable, PollRead, ReadAnswers, Deserted, Owes, AllWritten, F.Closing.Valid, Io.Io.Valid;
      ghost var p := active.Snapshot();
      reply := active.PollRead(h, n, fast);
      ReadKeepsDriver(p, h, n, fast);
      ReadMeans(p, h, n, fast);
      if HasLeft() { ReadDrainsThenEnds(p, h, n, fast); }
      assert active.Drv().phase == old(active.phase);
      if state.Active? {
        AccountableRegistry(p);
        CallAccountable(p, Reading(h, n, fast), active.Snapshot());
      }
    }

    method CloseStream(h: HandleId) returns (reply: PeerModel.Reply)
      requires Valid() && Usable(active.Snapshot(), h)
      modifies active
      ensures Valid() && Called(active.Snapshot(), reply) == PollClose(old(active.Snapshot()), h)
      ensures ShutAnswers(old(active.Snapshot()), h, Called(active.Snapshot(), reply)) && (HasLeft() ==> !reply.Parked?)
    {
      hide Accountable, PollClose, ShutAnswers, Deserted, Owes, AllWritten, F.Closing.Valid, Io.Io.Valid;
      ghost var p := active.Snapshot();
      reply := active.PollClose(h);
      CloseKeepsDriver(p, h);
      ShutMeans(p, h);
      if HasLeft() { CloseMeetsShutChannel(p, h); }
      assert active.Drv().phase == old(active.phase);
      if state.Active? {
        AccountableRegistry(p);
        CallAccountable(p, Shutting(h), active.Snapshot());
      }
    }

    /** Dropping a handle lets go of its record, and only then of its sender. */
    method DropStream(h: HandleId)
      requires Valid() && h in active.handles && h in active.queues
      modifies active
      ensures Valid() && active.Snapshot() == Hangup(Release(old(active.Snapshot()), h), h)
    {
      hide Accountable;
      ghost var p := active.Snapshot();
      active.DropRecord(h);
      ghost var m := active.Snapshot();
      active.DropSender(h);
      if state.Active? {
        AccountableRegistry(p);
        CallAccountable(p, Releasing(h), m);
        CallAccountable(m, HangingUp(h), active.Snapshot());
      }
    }

    // ----- closing -----

    method OwedKeys() returns (keys: seq<StreamId>)
      ensures KeyOrder(active.owed, keys)
    {
      keys := Listed(active.owed.Keys);
    }

    method Channels() returns (hs: seq<HandleId>)
      ensures ChannelOrder(active.queues, hs)
    {
      hs := Listed(active.queues.Keys);
    }

    /** What is staged and queued goes to a closing future. */
    method StartClosing(waitForReply: bool) returns (ghost order: seq<StreamId>)
      requires state.Active? && Linked(active, io)
      modifies this, active
      ensures Valid() && state.Closing? && fresh(state.future) && state.future.waitForReply == waitForReply
      ensures KeyOrder(old(active.owed), order) && accepted == old(active.hist.written)
      ensures active.Snapshot() == BeginClose(old(active.Snapshot()), order)
      ensures Handed(old(active.Snapshot()), state.future, order)
    {
      hide Accountable, BeginClose, Owes, ChannelsOf, KeyOrder, ChannelOrder, Deserted, AllWritten, Io.Io.Valid, F.Closing.Valid, WellFormed, C.EncodeAll;
      ghost var p := active.Snapshot();
      var keys := OwedKeys();
      var hs := Channels();
      order := keys;
      HandoverOwes(p, order, hs);
      HandoverChannels(p, hs);
      HandoverBacklog(p, order);
      AccountableInv(p, hs);
      EmptyChannels(p.queues, hs);
      accepted := active.hist.written;
      var channels := ChannelsOf(active.queues, hs);
      active.Close(keys);
      ClosedNow(p, order);
      var future := new F.Closing(channels, active.backlog, io, waitForReply);
      state := Life.Closing(future);
    }

    /** The future begins with what was staged, and with the channels as they were. */
    ghost predicate Handed(p: Peer, f: F.Closing, order: seq<StreamId>) reads f {
      && KeyOrder(p.reg.owed, order) && f.io == io && f.stage.ClosingStreamReceiver? && f.pendingFrames == BeginClose(p, order).drv.backlog
      && ((forall h :: h in p.queues ==> p.queues[h].cmds == []) ==> F.AllEmpty(f.channels))
    }

    /** `close` does something only in the active state. */
    method Close() returns (ghost order: seq<StreamId>)
      requires Valid()
      modifies this, active
      ensures Valid() && accepted == if old(state.Active?) then old(active.hist.written) else old(accepted)
      ensures old(state.Active?) ==>
                && state.Closing? && fresh(state.future) && KeyOrder(old(active.owed), order)
                && active.Snapshot() == BeginClose(old(active.Snapshot()), order)
                && Handed(old(active.Snapshot()), state.future, order) && state.future.waitForReply == active.cfg.closeSync
      ensures !old(state.Active?) ==> state == old(state) && active.Snapshot() == old(active.Snapshot())
    {
      order := [];
      if state.Active? { order := StartClosing(active.cfg.closeSync); }
    }

    method PollClosing() returns (r: Result)
      requires Valid() && state.Closing?
      modifies this`state, io, io.socket, state.future
      ensures Valid() && (r.Pending? ==> state == old(state)) && (r.Done? ==> state == Life.Closed(true))
      ensures (r.Error? ==> state == Life.Closed(false) && r == Result.Error(Socket)) && !r.Panics?
      ensures io.intact == old(io.intact) && (old(io.overReported) ==> io.overReported)
      ensures Flushes(old(state).future, old(state.future.Now()), r)
    {
      hide F.SameLines, L.Bytes, Io.Io.Valid, F.Closing.Valid, F.Closing.Came, Owes, WellFormed, C.EncodeAll;
      var f := state.future;
      f.ValidMeans();
      state := Life.Poisoned;
      var c;
      ghost var drained;
      ghost var b := f.Now();
      c, drained := f.Poll();
      assert Flushes(f, b, ResultOf(c)) by { assert f.Came(b, drained, FutureResult(ResultOf(c))); }
      StillOwes(accepted, old(io.sent), old(f.pendingFrames), old(f.channels), io.sent, f.pendingFrames, f.channels);
      match c
      case Closed =>
        FinishedOwesNothing(accepted, f);
        state := Life.Closed(true);
        r := Result.Done;
      case Error =>
        state := Life.Closed(false);
        r := Result.Error(Socket);
      case Unfinished =>
        state := Life.Closing(f);
        r := Result.Pending;
    }

    /** The rest of the commands are dropped; nothing is sent. */
    method PollCleanup() returns (why: Reason)
      requires Valid() && state.Cleanup?
      modifies this`state, active`queues
      ensures Valid() && state == Life.Closed(false) && old(state) == Life.Cleanup(why)
      ensures active.Snapshot() == Discarded(old(active.Snapshot()))
    {
      why := state.why;
      active.DiscardCommands();
      state := Life.Closed(false);
    }

    /** The remote is gone, and it is to be answered with a goodbye. */
    predicate Answers(why: Reason) { why.ConnectionClosed? && active.cfg.closeSync }

    lemma FutureReads()
      requires Valid() && state.Closing?
      ensures Io.ReadStateOk(io.readState) && state.future.io == io
    {
    }

    method Clean(why: Reason)
      requires state.Active? && Linked(active, io)
      modifies this`state, active
      ensures Valid() && state == Life.Cleanup(why) && active.Snapshot() == Abandon(old(active.Snapshot()))
    {
      hide Abandon;
      AccountableMeans(active.Snapshot());
      hide Accountable;
      AbandonDeserts(active.Snapshot());
      active.DropAllStreams();
      state := Life.Cleanup(why);
    }

    /** The future that answers the remote takes over from here, and waits for no reply. */
    ghost predicate TakesOver(s: Scene, order: seq<StreamId>) reads this, io, io.socket, Future() {
      && state.Closing? && !state.future.waitForReply && Handed(s.peer, state.future, order)
      && io.writeState == s.write && io.socket.script == s.script && io.socket.written == s.written
    }

    /** The active state has been left, one way or the other. */
    ghost predicate Left(d: Drive, why: Reason, order: seq<StreamId>) reads this, active, io, io.socket, Future() {
      if Answers(why) then
        && state.Closing? && KeyOrder(d.last.peer.reg.owed, order) && TakesOver(d.last, order)
        && active.Snapshot() == BeginClose(d.last.peer, order) && accepted == d.last.peer.hist.written
      else
        state == Life.Cleanup(why) && active.Snapshot() == Abandon(d.last.peer) && io.sent == d.last.peer.hist.sent && io.socket.written == d.last.written
    }

    /** Leave the active state, for the closing future or for the clean-up. */
    method Leave(why: Reason, ghost d: Drive) returns (ghost order: seq<StreamId>)
      requires state.Active? && Linked(active, io) && d.last == SceneOf(active, io)
      modifies this, active
      ensures Valid() && Left(d, why, order) && fresh(Future())
    {
      hide Accountable, BeginClose, Abandon;
      order := [];
      if Answers(why) {
        order := StartClosing(false);
      } else {
        Clean(why);
      }
    }

    /** What an active connection has still to read. */
    ghost function Arrived(): seq<byte>
      reads this, active, io, io.socket, Future()
      requires Valid()
    {
      if state.Active? then io.Input() else []
    }

    /** Poll the active state, and leave it if that failed. */
    method PollWhileActive(pings: seq<Option<int>>) returns (came: ActivePoll, ghost d: Drive, ghost order: seq<StreamId>)
      requires Valid() && state.Active?
      requires forall i :: 0 <= i < |pings| && pings[i].Some? ==> 0 <= pings[i].value <= U32_MAX
      modifies this, active, io, io.socket
      ensures Valid() && Polled(old(SceneOf(active, io)), old(Arrived()), pings, d, came)
      ensures came.Waits? ==> state.Active? && SceneOf(active, io) == d.last && Arrived() == d.rest
      ensures came.Crashed? ==> state.Poisoned?
      ensures came.Failed? ==> Left(d, came.why, order) && fresh(Future())
      ensures Exact(old(io.intact), Torn(pings, d.scenes), old(io.overReported), io)
    {
      hide Accountable, Polled, Left;
      order := [];
      came, d := PollActive(active, io, pings);
      EndsAs(old(SceneOf(active, io)), old(Arrived()), pings, d, came);
      if came.Crashed? {
        state := Life.Poisoned;
      } else if came.Failed? {
        order := Leave(came.why, d);
      }
    }

    /** Poll the closing future, which may be about to answer the remote's orderly end. */
    method PollAnswering(ghost answering: bool, ghost s: Scene, ghost order: seq<StreamId>) returns (r: Result)
      requires Valid() && state.Closing? && (answering ==> TakesOver(s, order))
      modifies this`state, io, io.socket, state.future
      ensures Valid() && (r.Pending? ==> state == old(state)) && (r.Done? ==> state == Life.Closed(true))
      ensures (r.Error? ==> state == Life.Closed(false)) && !r.Panics?
      ensures io.intact == old(io.intact) && (old(io.overReported) ==> io.overReported)
      ensures Flushes(old(state).future, old(state.future.Now()), r) && (answering ==> AnsweredWith(s, order, r))
    {
      hide Valid, Owes, Flushes, AnsweredWith, Deserted, KeyOrder, BeginClose, Io.Io.Valid, F.Closing.Valid, WellFormed, C.EncodeAll;
      FutureReads();
      var f := state.future;
      ghost var b := f.Now();
      r := PollClosing();
      if answering { Answered(f, b, s, order, r); }
    }

    /** Drive the connection. In the active state the driver runs until it waits or fails; an
        error then leaves the wire as it is and nobody waiting, and the remote's orderly end
        is answered or accepted. A graceful end returns the socket with everything handed to
        the writer, and written if the writer is intact, which it stays if no pass tears a
        frame and, unless the socket has claimed too much, only then. A closed connection
        stays as it is. */
    method Poll(pings: seq<Option<int>>) returns (r: Result, came: ActivePoll, ghost d: Drive, ghost order: seq<StreamId>)
      requires Valid() && !state.Poisoned?
      requires forall i :: 0 <= i < |pings| && pings[i].Some? ==> 0 <= pings[i].value <= U32_MAX
      modifies this, active, io, io.socket, Future()
      ensures Valid() && (r.Panics? <==> state.Poisoned?) && (r.Pending? <==> state.Active? || state.Closing?)
      ensures r.Done? || r.Error? ==> state.Closed?
      ensures old(state.Closed?) ==>
                && r.Done? && state == old(state) && active.Snapshot() == old(active.Snapshot())
                && io.sent == old(io.sent) && io.socket.written == old(io.socket.written)
      ensures old(state.Closing?) ==>
                && active.Snapshot() == old(active.Snapshot()) && accepted == old(accepted)
                && (r.Pending? ==> state == old(state)) && (r.Done? ==> state == Life.Closed(true)) && (r.Error? ==> state == Life.Closed(false))
      ensures old(state.Active?) ==> Polled(old(SceneOf(active, io)), old(Arrived()), pings, d, came)
      ensures old(state.Active?) && came.Waits? ==> state.Active? && SceneOf(active, io) == d.last && Arrived() == d.rest
      ensures old(state.Active?) && came.Failed? && !Answers(came.why) ==>
                && r == Outcome(came.why) && state == Life.Closed(false) && active.Snapshot() == Discarded(Abandon(d.last.peer))
                && io.sent == d.last.peer.hist.sent && io.socket.written == d.last.written
      ensures old(state.Active?) && came.Failed? && Answers(came.why) ==>
                && KeyOrder(d.last.peer.reg.owed, order) && accepted == d.last.peer.hist.written && active.Snapshot() == BeginClose(d.last.peer, order)
                && (r.Done? ==> state == Life.Closed(true)) && (r.Error? ==> state == Life.Closed(false))
                && AnsweredWith(d.last, order, r)
      ensures old(state.Closing?) ==> Flushes(old(state).future, old(state.future.Now()), r)
      ensures Exact(old(io.intact), Torn(pings, d.scenes), old(io.overReported), io) && (!old(state.Active?) ==> d.scenes == [])
    {
      hide Valid, Arrived, Accountable, Polled, BeginClose, Abandon, AllWritten, Owes, Flushes, AnsweredWith, TakesOver, KeyOrder, Linked, Discarded, Deserted, Io.Io.Valid, F.Closing.Valid, WellFormed, C.EncodeAll;
      came, d, order := Waits, Drive([], [], [], SceneOf(active, io)), [];
      if state.Closing? { FutureReads(); }
      ghost var begun := if state.Closing? then state.future.Now() else NotBegun();
      while true
        invariant Valid() && !state.Poisoned? && fresh(Future() - old(Future()))
        invariant Exact(old(io.intact), Torn(pings, d.scenes), old(io.overReported), io) && (came.Waits? ==> d.scenes == [])
        invariant
          || (came.Waits? && unchanged(this, active, io, io.socket) && (state.Closing? ==> state.future.Now() == begun))
          || (old(state.Active?) && came.Failed? && Polled(old(SceneOf(active, io)), old(Arrived()), pings, d, came)
              && Left(d, came.why, order))
        decreases Rank(state)
      {
        match state
        case Active =>
          came, d, order := PollWhileActive(pings);
          if came.Waits? { return Result.Pending, came, d, order; }
          if came.Crashed? { return Result.Panics, came, d, order; }
        case Closing(_) =>
          r := PollAnswering(came.Failed?, d.last, order);
          return;
        case Cleanup(_) =>
          var why := PollCleanup();
          return Outcome(why), came, d, order;
        case Closed(_) => return Result.Done, came, d, order;
      }
    }

    /** The answer to the remote's orderly end: what was staged, what was queued and a goodbye,
        as far as the socket takes them. It is done if and only if all of that is out. */
    ghost predicate AnsweredWith(s: Scene, order: seq<StreamId>, r: Result) reads io, io.socket {
      && KeyOrder(s.peer.reg.owed, order) && Io.WriteStateOk(s.write)
      && exists drained ::
           var due := BeginClose(s.peer, order).drv.backlog + drained + [TERM];
           && X.AllWellFormed(due) && ((forall h :: h in s.peer.queues ==> s.peer.queues[h].cmds == []) ==> drained == [])
           && var o := F.FlushAll(s.write, due, s.script);
              && io.writeState == o.state && io.socket.written == s.written + o.bytes && io.socket.script == o.script
              && r == if o.reply.Done? then Result.Done else if o.reply.NotYet? then Result.Pending else Result.Error(Socket)
    }

    lemma Answered(f: F.Closing, b: F.Begun, s: Scene, order: seq<StreamId>, r: Result)
      requires Flushes(f, b, r) && f.io == io && !f.waitForReply && !r.Panics? && (r.Error? ==> r == Result.Error(Socket))
      requires KeyOrder(s.peer.reg.owed, order) && b.stage.ClosingStreamReceiver? && b.pending == BeginClose(s.peer, order).drv.backlog
      requires (forall h :: h in s.peer.queues ==> s.peer.queues[h].cmds == []) ==> F.AllEmpty(b.channels)
      requires b.write == s.write && b.script == s.script && b.written == s.written
      ensures AnsweredWith(s, order, r)
    {
      hide KeyOrder, BeginClose, WellFormed, F.FlushAll;
      var drained :| f.Came(b, drained, FutureResult(r));
    }

    /** What a socket that comes back has brought over: the remote decodes just the frames that
        were sent, and the end of the stream between two of them, if and only if the
        writer stayed intact. Then a goodbye is the last of them, and for each stream they
        hold all that was accepted for it, in order. */
    lemma SocketBackMeansDelivered(id: StreamId)
      requires Valid() && state == Life.Closed(true) && id != SESSION
      ensures var received := C.DecodeStream(io.socket.written);
              && (io.intact <==> received == C.Stream(io.sent, C.Clean))
              && (io.intact ==> F.GoodbyeAtEnd(received.frames) && L.Bytes(Only(received.frames, id)) == Log(accepted, id))
    {
      hide C.DecodeStream, C.EncodeAll, Only, L.Bytes;
      X.NothingCut(io.sent);
      X.CleanIsWhole(io.socket.written);
      assert [] + C.EncodeAll(io.sent) == C.EncodeAll(io.sent);
    }
  }

  ghost function NotBegun(): F.Begun { F.Begun(F.ClosingSocket, [], [], [], Io.WInit, [], [], [], false) }

  function FutureResult(r: Result): F.Result {
    match r
    case Done => F.Result.Closed
    case Pending => F.Result.Unfinished
    case _ => F.Result.Error
  }

  function ResultOf(c: F.Result): Result {
    match c
    case Closed => Result.Done
    case Unfinished => Result.Pending
    case Error => Result.Error(Socket)
  }

  /** What the closing future has written when its poll came to `r`. */
  ghost predicate Flushes(f: F.Closing, b: F.Begun, r: Result) reads f, f.io, f.io.socket {
    exists drained :: f.Came(b, drained, FutureResult(r))
  }

  function Rank(s: Life): nat { if s.Active? then 2 else if s.Closing? || s.Cleanup? then 1 else 0 }

  /** The remote's orderly end is no error. */
  function Outcome(why: Reason): Result { if why.ConnectionClosed? then Result.Done else Result.Error(why) }

  function Discarded(p: Peer): Peer { p.(queues := map h | h in p.queues :: p.queues[h].(cmds := [])) }

  /** Whatever the remote sends, a peer that has neither closed nor panicked can be closed
      with nothing lost. */
  lemma ReachedIsAccountable(cfg: Config, steps: seq<Step>, p: Peer)
    requires UsableConfig(cfg) && PeerRuns.Reached(cfg, steps, p) && !p.drv.phase.Panicked?
    requires forall i :: 0 <= i < |steps| ==> Ordinary(steps[i])
    ensures Accountable(p)
  {
    hide Accountable;
    NewAccountable(cfg);
    RunAccountable(NewPeer(cfg), steps, p);
  }

  lemma EndsAs(s: Scene, input: seq<byte>, pings: seq<Option<int>>, d: Drive, came: ActivePoll)
    requires Polled(s, input, pings, d, came)
    ensures came.Waits? ==> d.last.peer.drv.phase.Active?
    ensures came.Crashed? ==> d.last.peer.drv.phase.Panicked?
  {
    hide Drove, Traced;
  }

  lemma AccountableRegistry(p: Peer)
    requires Accountable(p)
    ensures RegistryInHeap(p.reg) && !p.drv.phase.Panicked?
  {
    AccountableMeans(p);
    hide Accountable, Inv;
    Endpoint.InvRegistry(p);
  }

  /** A handle call keeps the account. */
  lemma CallAccountable(p: Peer, step: Step, q: Peer)
    requires Accountable(p) && Ordinary(step) && Enabled(p, step) && Act(p, step) == Emission(q, None) && q.drv == p.drv
    ensures Accountable(q)
  {
    hide Accountable, Enabled, Act;
    AccountableMeans(p);
    assert q.hist.sent + [] == q.hist.sent;
    StepAccountable(p, step);
  }

  lemma ClosedNow(p: Peer, order: seq<StreamId>)
    requires KeyOrder(p.reg.owed, order)
    ensures ChannelsClosed(BeginClose(p, order)) && Deserted(BeginClose(p, order).reg)
  {
    StoppingDeserts(p.reg);
    hide StopReceiving, Deserted;
  }

  lemma EmptyChannels(queues: map<HandleId, Queue>, hs: seq<HandleId>)
    requires ChannelOrder(queues, hs)
    ensures (forall h :: h in queues ==> queues[h].cmds == []) ==> F.AllEmpty(ChannelsOf(queues, hs))
  {
  }

  lemma AccountableInv(p: Peer, hs: seq<HandleId>)
    requires Accountable(p) && ChannelOrder(p.queues, hs)
    ensures Inv(p) && forall h :: h in hs ==> h in p.queues
  {
    hide Inv, Single, WireOk, Accounted;
  }

  lemma NewAccountable(cfg: Config)
    requires UsableConfig(cfg)
    ensures Accountable(NewPeer(cfg))
  {
    hide Inv, Only;
    NewPeerWire(cfg);
    forall id: StreamId | id != SESSION ensures Accounted(NewPeer(cfg), id) {
      assert Path([], NewPeer(cfg), id) == [] by { assert EndOf(NewPeer(cfg), id) == EndOf(NewPeer(cfg), 1); }
    }
  }

  lemma StillOwes(accepted: map<StreamId, seq<byte>>, sent: seq<Frame>, pending: seq<Frame>, cs: seq<F.Channel>,
                  sent2: seq<Frame>, pending2: seq<Frame>, cs2: seq<F.Channel>)
    requires Owes(accepted, sent, pending, cs) && F.SameLines(sent, pending, cs, sent2, pending2, cs2)
    ensures Owes(accepted, sent2, pending2, cs2)
  {
  }

  lemma FinishedOwesNothing(accepted: map<StreamId, seq<byte>>, f: F.Closing)
    requires f.Valid() && f.stage.ClosingSocket? && Owes(accepted, f.io.sent, f.pendingFrames, f.channels)
    ensures f.io.Valid() && (f.io.intact <==> f.io.socket.written == C.EncodeAll(f.io.sent)) && F.GoodbyeAtEnd(f.io.sent)
    ensures forall id: StreamId :: id != SESSION ==> L.Bytes(Only(f.io.sent, id)) == Log(accepted, id)
  {
    hide Only, F.Undrained, L.Bytes, C.EncodeAll, WellFormed;
    forall id: StreamId | id != SESSION ensures L.Bytes(Only(f.io.sent, id)) == Log(accepted, id) {
      f.DoneMeansSent(f.pendingFrames, f.channels, f.io.sent, id);
      assert L.Bytes(F.Line(f.io.sent, f.pendingFrames, f.channels, id)) == Log(accepted, id);
    }
    f.DoneMeansSent(f.pendingFrames, f.channels, f.io.sent, 1);
  }
}
