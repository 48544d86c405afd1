/** Moving a frame from a queue to the driver, to the closing backlog or to the
    link does not change the path of any stream id. */
module TwoPeersPaths {
  import opened Frames
  import opened Basics
  import opened StreamModel
  import opened PeerModel
  import opened PeerInvariants
  import opened PeerRuns
  import L = LaneModel
  import opened LaneView
  import opened TwoPeers

  /** Seen from every stream id, the step from `p` over `link` to `q` over `after`
      is no step. */
  ghost predicate Invisible(p: Peer, link: seq<Frame>, q: Peer, after: seq<Frame>) {
    forall id :: id != SESSION ==> EndOf(q, id) == EndOf(p, id) && Path(after, q, id) == Path(link, p, id)
  }

  lemma OnlyOne(f: Frame, id: StreamId)
    ensures Only([f], id) == if f.header.id == id then [f] else []
  {
  }

  lemma OnlyOpt(f: Option<Frame>, id: StreamId)
    ensures Only(OptFrame(f), id) == if f.Some? && f.value.header.id == id then [f.value] else []
  {
  }

  /** The four places of `Waiting`, spelled out. */
  lemma Places(p: Peer, id: StreamId, back: seq<Frame>, slot: seq<Frame>, queued: seq<Frame>, owed: seq<Frame>)
    requires Only(p.drv.backlog, id) == back && QueuedFor(p.queues, id) == queued && OwedFor(p, id) == owed
    requires slot == (if p.drv.pendingWrite.Some? && p.drv.pendingWrite.value.header.id == id then [p.drv.pendingWrite.value] else [])
    ensures Waiting(p, id) == back + slot + queued + owed
  {
    OnlyOpt(p.drv.pendingWrite, id);
    hide Only, QueuedFor, OwedFor;
  }

  /** One frame more on the link, one fewer in front of the rest. */
  lemma Hop(link: seq<Frame>, f: Frame, id: StreamId, w: seq<Frame>, v: seq<Frame>)
    requires w == (if f.header.id == id then [f] else []) + v
    ensures Only(link + [f], id) + v == Only(link, id) + w
  {
    OnlyConcat(link, [f], id);
    OnlyOne(f, id);
    hide Only;
  }

  /** A frame goes from the driver's slot to the link. */
  lemma EmitPath(p: Peer, link: seq<Frame>, id: StreamId)
    requires WireOk(p) && p.drv.backlog == [] && id != SESSION && Emit(p).frame.Some?
    requires p.drv.pendingTerminate.Some? ==> p.drv.pendingTerminate.value.header.id == SESSION
    ensures var e := Emit(p); Path(link + OptFrame(e.frame), Noted(e), id) == Path(link, p, id)
  {
    var e := Emit(p);
    var q := Noted(e);
    var f := e.frame.value;
    assert p.drv.pendingPong.Some? ==> f.header.id == SESSION;
    hide WireOk;
    var slot := if p.drv.pendingWrite.Some? && p.drv.pendingWrite.value.header.id == id then [p.drv.pendingWrite.value] else [];
    var left := if p.drv.pendingTerminate.Some? || p.drv.pendingPong.Some? then slot else [];
    var queued, owed := QueuedFor(p.queues, id), OwedFor(p, id);
    Places(p, id, [], slot, queued, owed);
    Places(q, id, [], left, queued, owed);
    assert [] + slot + queued + owed == (if f.header.id == id then [f] else []) + ([] + left + queued + owed);
    Hop(link, f, id, Waiting(p, id), Waiting(q, id));
  }

  lemma PingPath(p: Peer, link: seq<Frame>, n: int, id: StreamId)
    requires id != SESSION
    ensures Path(link + [PingFrame(n)], p, id) == Path(link, p, id)
  {
    OnlyConcat(link, [PingFrame(n)], id);
    OnlyOne(PingFrame(n), id);
  }

  /** A staged close frame goes to the driver's slot: its stream has no queue left. */
  lemma OwedPath(p: Peer, link: seq<Frame>, i: StreamId, id: StreamId)
    requires Single(p) && i in p.reg.owed && p.drv.pendingWrite.None? && !ChannelsClosed(p)
    ensures Path(link, FlushOwed(p, i), id) == Path(link, p, id)
  {
    var q := FlushOwed(p, i);
    var f := p.reg.owed[i];
    var back, queued := Only(p.drv.backlog, id), QueuedFor(p.queues, id);
    assert f.header.id == i && (i == id ==> queued == []);
    hide Single;
    Places(p, id, back, [], queued, OwedFor(p, id));
    Places(q, id, back, if i == id then [f] else [], queued, if i == id then [] else OwedFor(p, id));
    assert Waiting(q, id) == Waiting(p, id);
  }

  lemma TakePath(p: Peer, link: seq<Frame>, h: HandleId, id: StreamId)
    requires Single(p) && OutboundIdle(p) && h in p.queues && h == Only0(h.id) && |p.queues[h].cmds| > 0 && !ChannelsClosed(p)
    ensures Path(link, TakeCommand(p, h), id) == Path(link, p, id)
  {
    var q := TakeCommand(p, h);
    var f := CommandFrame(p.queues[h].cmds[0]);
    assert f.header.id == h.id;
    hide Single;
    assert h.id != id ==> Only0(id) != h;
    var back, queued, left := Only(p.drv.backlog, id), QueuedFor(p.queues, id), QueuedFor(q.queues, id);
    assert queued == (if h.id == id then [f] else []) + left;
    Places(p, id, back, [], queued, []);
    Places(q, id, back, if h.id == id then [f] else [], left, []);
    assert Waiting(q, id) == Waiting(p, id);
  }

  lemma FirstQueued(p: Peer, h: HandleId, id: StreamId)
    requires h in p.queues && h == Only0(h.id) && |p.queues[h].cmds| > 0
    ensures QueuedFor(p.queues, id)
            == (if h.id == id then [CommandFrame(p.queues[h].cmds[0])] else []) + QueuedFor(Later(p, h), id)
  {
    hide CommandFrame;
  }

  lemma Shift(a: seq<Frame>, b: seq<Frame>, c: seq<Frame>)
    ensures a + [] + (b + c) + [] == (a + b) + [] + c + []
  {
  }

  lemma DrainedBacklog(p: Peer, h: HandleId, id: StreamId)
    requires h in p.queues && |p.queues[h].cmds| > 0
    ensures var f := CommandFrame(p.queues[h].cmds[0]);
            Only(DrainCommand(p, h).drv.backlog, id) == Only(p.drv.backlog, id) + if f.header.id == id then [f] else []
  {
    hide Only, CommandFrame;
    OnlyConcat(p.drv.backlog, [CommandFrame(p.queues[h].cmds[0])], id);
    OnlyOne(CommandFrame(p.queues[h].cmds[0]), id);
  }

  lemma DrainPath(p: Peer, link: seq<Frame>, h: HandleId, id: StreamId)
    requires Single(p) && WireOk(p) && h in p.queues && h == Only0(h.id) && |p.queues[h].cmds| > 0 && ChannelsClosed(p)
    ensures Path(link, DrainCommand(p, h), id) == Path(link, p, id)
  {
    var q := DrainCommand(p, h);
    var f := CommandFrame(p.queues[h].cmds[0]);
    assert f.header.id == h.id && p.drv.pendingWrite.None?;
    hide Single, WireOk, QueuedFor, Only, CommandFrame, Waiting, Later;
    FirstQueued(p, h, id);
    DrainedBacklog(p, h, id);
    var back, moved, left := Only(p.drv.backlog, id), if h.id == id then [f] else [], QueuedFor(Later(p, h), id);
    Places(p, id, back, [], moved + left, []);
    Places(q, id, back + moved, [], left, []);
    Shift(back, moved, left);
  }

  lemma TermPath(p: Peer, link: seq<Frame>, id: StreamId)
    requires id != SESSION && p.drv.phase.Draining?
    ensures Path(link, FinishDrain(p), id) == Path(link, p, id)
  {
    OnlyConcat(p.drv.backlog, [TERM], id);
    OnlyOne(TERM, id);
    hide Only;
  }

  lemma OnlyFirst(fs: seq<Frame>, id: StreamId)
    requires fs != []
    ensures Only(fs, id) == (if fs[0].header.id == id then [fs[0]] else []) + Only(fs[1..], id)
  {
  }

  lemma Regroup(a: seq<Frame>, b: seq<Frame>, c: seq<Frame>, d: seq<Frame>, e: seq<Frame>)
    ensures (a + b) + c + d + e == a + (b + c + d + e)
  {
  }

  lemma FlushPath(p: Peer, link: seq<Frame>, id: StreamId)
    requires p.drv.backlog != [] && p.drv.phase.Flushing?
    ensures var e := FlushBacklog(p); Path(link + OptFrame(e.frame), Noted(e), id) == Path(link, p, id)
  {
    hide Only, QueuedFor, Waiting;
    var q := Noted(FlushBacklog(p));
    var f, back := p.drv.backlog[0], Only(p.drv.backlog[1..], id);
    OnlyFirst(p.drv.backlog, id);
    var first := if f.header.id == id then [f] else [];
    var slot := if p.drv.pendingWrite.Some? && p.drv.pendingWrite.value.header.id == id then [p.drv.pendingWrite.value] else [];
    var queued := QueuedFor(p.queues, id);
    Places(p, id, first + back, slot, queued, []);
    Places(q, id, back, slot, queued, []);
    Regroup(first, back, slot, queued, []);
    Hop(link, f, id, Waiting(p, id), Waiting(q, id));
  }

  lemma OwedFramesOnly(owed: map<StreamId, Frame>, order: seq<StreamId>, id: StreamId)
    requires KeyOrder(owed, order) && |owed| <= 1
    requires forall i :: i in owed ==> owed[i].header.id == i
    ensures Only(OwedFrames(owed, order), id) == if id in owed then [owed[id]] else []
  {
  }

  lemma CloseBacklog(p: Peer, order: seq<StreamId>, id: StreamId)
    requires Single(p) && id != SESSION && KeyOrder(p.reg.owed, order) && |p.reg.owed| <= 1
    requires p.drv.pendingTerminate.Some? ==> p.drv.pendingTerminate.value.header.id == SESSION
    ensures Only(BeginClose(p, order).drv.backlog, id)
            == Only(OptFrame(p.drv.pendingWrite), id) + (if id in p.reg.owed then [p.reg.owed[id]] else [])
  {
    var T, A, B, C := OptFrame(p.drv.pendingTerminate), OptPong(p.drv.pendingPong), OptFrame(p.drv.pendingWrite), OwedFrames(p.reg.owed, order);
    OwedFramesOnly(p.reg.owed, order, id);
    hide Single;
    assert BeginClose(p, order).drv.backlog == ((T + A) + B) + C;
    OnlyConcat((T + A) + B, C, id);
    OnlyConcat(T + A, B, id);
    OnlyConcat(T, A, id);
    OnlyOpt(p.drv.pendingTerminate, id);
    assert Only(A, id) == [] by {
      if p.drv.pendingPong.Some? { OnlyOne(PongFrame(p.drv.pendingPong.value), id); }
    }
    hide Only, OwedFrames;
    assert [] + Only(B, id) == Only(B, id);
  }

  lemma ClosedQueued(p: Peer, order: seq<StreamId>, id: StreamId)
    requires KeyOrder(p.reg.owed, order)
    ensures QueuedFor(BeginClose(p, order).queues, id) == QueuedFor(p.queues, id)
  {
  }

  lemma ReapedHasNoQueue(p: Peer, id: StreamId)
    requires Single(p) && id in p.reg.owed
    ensures QueuedFor(p.queues, id) == []
  {
  }

  /** Closing turns the driver's slots and the staged close frames into a backlog. */
  lemma ClosePath(p: Peer, link: seq<Frame>, order: seq<StreamId>, id: StreamId)
    requires Single(p) && p.drv.backlog == [] && !ChannelsClosed(p) && id != SESSION
    requires p.drv.pendingTerminate.Some? ==> p.drv.pendingTerminate.value.header.id == SESSION
    requires KeyOrder(p.reg.owed, order) && |p.reg.owed| <= 1
    ensures Path(link, BeginClose(p, order), id) == Path(link, p, id)
  {
    hide Single, Only, QueuedFor, Waiting, KeyOrder, OwedFrames, StopReceiving;
    var q := BeginClose(p, order);
    CloseBacklog(p, order, id);
    ClosedQueued(p, order, id);
    OnlyOpt(p.drv.pendingWrite, id);
    var slot, queued, owed := Only(OptFrame(p.drv.pendingWrite), id), QueuedFor(p.queues, id), OwedFor(p, id);
    if id in p.reg.owed { ReapedHasNoQueue(p, id); }
    NothingBack(p, id);
    Places(p, id, [], slot, queued, owed);
    Places(q, id, slot + owed, [], queued, []);
    assert Waiting(q, id) == Waiting(p, id);
  }

  lemma NothingBack(p: Peer, id: StreamId)
    requires p.drv.backlog == []
    ensures Only(p.drv.backlog, id) == []
  {
  }
}
