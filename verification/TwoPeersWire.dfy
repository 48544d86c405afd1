/** Each step of a peer keeps what waits to be sent well formed, and keeps every id
    opened at most once. */
module TwoPeersWire {
  import opened Frames
  import opened Basics
  import opened StreamModel
  import opened PeerModel
  import opened PeerInvariants
  import PeerRuns
  import opened LaneView
  import opened TwoPeers

  /** The queues of `q` are those of `p`, at most with one stream frame more for `h`. */
  ghost predicate QueuesGrow(p: Peer, q: Peer, h: HandleId) {
    && q.queues.Keys == p.queues.Keys
    && (forall x :: x in p.queues && x != h ==> q.queues[x].cmds == p.queues[x].cmds)
    && (h in p.queues ==>
          || q.queues[h].cmds == p.queues[h].cmds
          || exists c :: q.queues[h].cmds == p.queues[h].cmds + [c] && StreamFrame(CommandFrame(c)) && CommandFrame(c).header.id == h.id)
  }

  lemma GrowKeeps(p: Peer, q: Peer, h: HandleId)
    requires Single(p) && WireOk(p) && QueuesGrow(p, q, h)
    requires q.reg.owed == p.reg.owed && q.reg.cfg == p.reg.cfg && q.drv == p.drv
    requires q.hist.everOpened == p.hist.everOpened && q.hist.reaped == p.hist.reaped
    requires forall id :: id in q.hist.early ==> id in p.hist.early || Only0(id) in p.hist.everOpened
    ensures Single(q) && WireOk(q)
  {
    hide Sound;
    forall x | x in q.queues ensures x in p.queues { assert x in q.queues.Keys; }
  }

  lemma SameQueues(p: Peer, q: Peer, h: HandleId)
    requires q.queues == p.queues
    ensures QueuesGrow(p, q, h)
  {
  }

  lemma PushGrows(p: Peer, m: Peer, h: HandleId, c: Command)
    requires m.queues == p.queues && h in p.queues && StreamFrame(CommandFrame(c)) && CommandFrame(c).header.id == h.id
    ensures QueuesGrow(p, Push(m, h, c), h)
  {
  }

  lemma HandleIdOk(p: Peer, h: HandleId)
    requires Inv(p) && Single(p) && h in p.queues
    ensures h == Only0(h.id) && h.id != SESSION && h in p.hist.everOpened
  {
    hide RecordsOk, RegistryOk, HandlesOk, NoLeak, SlotsOk, WaitersInactive, WaitersOpened, FinsTold, BudgetOk;
  }

  lemma ActivateWire(p: Peer, h: HandleId)
    requires Inv(p) && h in p.handles && Usable(p, h)
    ensures var q := PollActivate(p, h).peer;
            q.queues == p.queues && q.reg.owed == p.reg.owed && q.reg.cfg == p.reg.cfg && q.drv == p.drv && q.hist == p.hist
            && Inv(q) && Usable(q, h)
  {
    hide Inv;
    PeerRuns.ActivatingKeeps(p, h);
  }

  lemma WritingWire(p: Peer, h: HandleId, data: seq<byte>)
    requires PeerOk(p) && h in p.handles && Usable(p, h)
    ensures Single(PollWrite(p, h, data).peer) && WireOk(PollWrite(p, h, data).peer)
  {
    HandleIdOk(p, h);
    ActivateWire(p, h);
    var act := PollActivate(p, h);
    var m := act.peer;
    hide Inv, Single, PollActivate, QueuesGrow;
    SameQueues(p, m, h);
    if act.reply.Parked? {
      hide WireOk;
      GrowKeeps(p, m, h);
    } else {
      SendGrows(p, m, h, data);
      hide WireOk;
      GrowKeeps(p, SendData(m, h, data).peer, h);
    }
  }

  lemma SendGrows(p: Peer, m: Peer, h: HandleId, data: seq<byte>)
    requires Inv(m) && h in p.queues && h.id != SESSION && Usable(m, h) && m.queues == p.queues && m.reg.cfg.splitSend <= MAX_BODY
    ensures var q := SendData(m, h, data).peer;
            && QueuesGrow(p, q, h) && q.reg.owed == m.reg.owed && q.reg.cfg == m.reg.cfg && q.drv == m.drv
            && q.hist.everOpened == m.hist.everOpened && q.hist.reaped == m.hist.reaped && q.hist.early == m.hist.early
  {
    hide Inv, QueuesGrow, RecordOk, Spare;
    PeerRuns.HandleRecord(m, h);
    var sh := m.reg.heap[m.handles[h]];
    var q := SendData(m, h, data).peer;
    if !Withheld(m, h) {
      var k := Portion(m.reg.cfg, sh.send, |data|);
      SendPositive(sh);
      PeerRuns.PortionBounds(m, sh.send, |data|);
      assert k <= MAX_BODY;
      hide Portion;
      var c := SendFrame(DataFrame(h.id, data[..k], sh.synPending));
      var n := m.(reg := SetShared(m.reg, m.handles[h], sh.(send := sh.send - k, synPending := false)),
                  hist := m.hist.(written := m.hist.written[h.id := Log(m.hist.written, h.id) + data[..k]]));
      assert q == Push(n, h, c);
      PushGrows(p, n, h, c);
    } else {
      SameQueues(p, q, h);
    }
  }

  lemma SendPositive(sh: Shared)
    requires RecordOk(sh)
    ensures 0 <= sh.send <= U32_MAX
  {
    hide StateOk, ParkedOk;
  }

  lemma ReadingWire(p: Peer, h: HandleId, n: nat, tune: bool)
    requires PeerOk(p) && h in p.handles && Usable(p, h)
    ensures Single(PollRead(p, h, n, tune).peer) && WireOk(PollRead(p, h, n, tune).peer)
  {
    HandleIdOk(p, h);
    GrantGrows(p, h, tune);
    var m := SendWindowUpdate(p, h, tune);
    var q := PollRead(p, h, n, tune).peer;
    hide Inv, Single, WireOk, SendWindowUpdate;
    ReadGrows(p, m, h, n, !ChannelsClosed(p) && !QueueFull(p, h));
    GrowKeeps(p, q, h);
  }

  lemma ReadGrows(p: Peer, m: Peer, h: HandleId, n: nat, room: bool)
    requires Usable(m, h) && QueuesGrow(p, m, h)
    ensures var q := ReadBuffer(m, h, n, room).peer;
            && QueuesGrow(p, q, h) && q.reg.owed == m.reg.owed && q.reg.cfg == m.reg.cfg && q.drv == m.drv
            && q.hist.everOpened == m.hist.everOpened && q.hist.reaped == m.hist.reaped && q.hist.early == m.hist.early
  {
  }

  lemma GrantGrows(p: Peer, h: HandleId, tune: bool)
    requires Inv(p) && h in p.handles && h.id != SESSION && Usable(p, h)
    ensures var q := SendWindowUpdate(p, h, tune);
            && QueuesGrow(p, q, h) && q.reg.owed == p.reg.owed && q.reg.cfg == p.reg.cfg && q.drv == p.drv
            && q.hist == p.hist && Usable(q, h)
  {
    hide Inv, QueuesGrow, RecordOk, Spare, ConfigOk;
    PeerRuns.HandleRecord(p, h);
    var sh := p.reg.heap[p.handles[h]];
    SameQueues(p, p, h);
    if CanRead(sh.state) && !ChannelsClosed(p) && !QueueFull(p, h) {
      match NextGrant(p.reg.cfg, p.reg.accumulated, sh, tune)
      case None =>
      case Some(g) =>
        GrantFits(p, p.handles[h], tune, g);
        hide NextGrant;
        var reg := SetShared(p.reg, p.handles[h], Granted(sh, g)).(accumulated := p.reg.accumulated + (g.newMax - sh.maxRecv));
        PushGrows(p, p.(reg := reg), h, SendFrame(CreditFrame(h.id, g.credit)));
    }
  }

  lemma GrantFits(p: Peer, r: Ref, tune: bool, g: Grant)
    requires Inv(p) && r in p.reg.heap && RecordOk(p.reg.heap[r])
    requires NextGrant(p.reg.cfg, p.reg.accumulated, p.reg.heap[r], tune) == Some(g)
    ensures 0 <= g.credit <= U32_MAX
  {
    hide Inv, StateOk, ParkedOk;
    PeerRuns.ExcessBound(p, r);
    GrantKeepsWindows(p.reg.cfg, p.reg.accumulated, p.reg.heap[r], tune);
  }

  lemma ShuttingWire(p: Peer, h: HandleId)
    requires PeerOk(p) && h in p.handles && Usable(p, h)
    ensures Single(PollClose(p, h).peer) && WireOk(PollClose(p, h).peer)
  {
    hide Inv, Single, WireOk, QueuesGrow;
    HandleIdOk(p, h);
    var q := PollClose(p, h).peer;
    if q.queues == p.queues {
      SameQueues(p, q, h);
    } else {
      PushGrows(p, p, h, CloseStream(h.id));
      assert q.queues == Push(p, h, CloseStream(h.id)).queues;
      QueuesOnly(p, Push(p, h, CloseStream(h.id)), q, h);
    }
    GrowKeeps(p, q, h);
  }

  lemma QueuesOnly(p: Peer, m: Peer, q: Peer, h: HandleId)
    requires QueuesGrow(p, m, h) && q.queues == m.queues
    ensures QueuesGrow(p, q, h)
  {
  }

  lemma OpeningWire(p: Peer, h: HandleId)
    requires PeerOk(p) && CanOpen(p, h) && h.k == 0
    ensures Single(NewStream(p, h)) && WireOk(NewStream(p, h))
    ensures h !in p.queues && h.id !in p.hist.reaped && h.id !in p.reg.owed
  {
    hide Inv, Sound, Attach, RefOf;
    OpenIsFirst(p, h);
    var r := if RefOf(p.reg, h.id).Some? then RefOf(p.reg, h.id).value else p.reg.nextRef;
    AttachOwed(p.reg, h.id, r);
    AttachCfg(p.reg, h.id, r);
    OpenedWire(p, NewStream(p, h), h);
  }

  lemma OpenedWire(p: Peer, q: Peer, h: HandleId)
    requires Single(p) && WireOk(p) && h.k == 0 && h.id != SESSION && h.id !in p.hist.reaped
    requires q.queues == p.queues[h := Queue([], false, true)] && q.drv == p.drv
    requires q.hist == p.hist.(everOpened := p.hist.everOpened + {h})
    requires q.reg.owed == p.reg.owed && q.reg.cfg == p.reg.cfg
    ensures Single(q) && WireOk(q)
  {
    hide Sound, StreamFrame;
  }

  lemma AttachCfg(reg: Registry, id: StreamId, r: Ref)
    ensures Attach(reg, id, r).cfg == reg.cfg
  {
  }

  lemma OpenIsFirst(p: Peer, h: HandleId)
    requires Inv(p) && Single(p) && CanOpen(p, h) && h.k == 0
    ensures h !in p.queues && h.id !in p.hist.reaped && h.id !in p.reg.owed
  {
  }

  lemma ReleaseWire(p: Peer, h: HandleId)
    requires Single(p) && WireOk(p)
    ensures Single(Release(p, h)) && WireOk(Release(p, h))
  {
    hide Sound;
  }

  lemma RequeueWire(p: Peer, q: Peer, h: HandleId)
    requires Single(p) && WireOk(p) && h in p.queues && h in q.queues && q.queues[h].cmds == p.queues[h].cmds
    requires q == p.(queues := p.queues[h := q.queues[h]])
    ensures Single(q) && WireOk(q)
  {
    hide Sound, StreamFrame;
  }

  lemma NothingPending(p: Peer)
    requires WireOk(p) && !p.drv.terminating
    ensures p.drv.pendingTerminate.None?
  {
  }

  lemma EmittingWire(p: Peer)
    requires Single(p) && WireOk(p) && !p.drv.terminating
    ensures var e := Emit(p);
            Single(e.peer) && WireOk(e.peer) && (e.frame.Some? ==> Sound(e.frame.value) && !e.frame.value.header.tag.GoAway?)
  {
  }

  lemma OwedWire(p: Peer, id: StreamId)
    requires Single(p) && WireOk(p) && id in p.reg.owed && !ChannelsClosed(p)
    ensures Single(FlushOwed(p, id)) && WireOk(FlushOwed(p, id))
  {
    hide Sound;
  }

  lemma LaterWire(p: Peer, q: Peer, h: HandleId)
    requires Single(p) && WireOk(p) && h in p.queues && |p.queues[h].cmds| > 0
    requires q == p.(queues := Later(p, h))
    ensures Single(q) && WireOk(q)
  {
  }

  lemma TakingWire(p: Peer, h: HandleId)
    requires Single(p) && WireOk(p) && h in p.queues && |p.queues[h].cmds| > 0
    ensures !ChannelsClosed(p) ==> Single(TakeCommand(p, h)) && WireOk(TakeCommand(p, h))
    ensures ChannelsClosed(p) ==> Single(DrainCommand(p, h)) && WireOk(DrainCommand(p, h))
  {
    var m := p.(queues := Later(p, h));
    LaterWire(p, m, h);
    assert StreamFrame(CommandFrame(p.queues[h].cmds[0]));
    hide Sound, Later;
  }

  lemma BacklogWire(p: Peer)
    requires Single(p) && WireOk(p) && ChannelsClosed(p)
    ensures Single(FinishDrain(p)) && WireOk(FinishDrain(p))
    ensures Single(FlushBacklog(p).peer) && WireOk(FlushBacklog(p).peer)
    ensures p.drv.backlog != [] ==> Sound(p.drv.backlog[0])
  {
  }

  // ----- reaping, receiving, closing -----

  lemma ReapingWire(p: Peer, h: HandleId)
    requires PeerOk(p) && Enabled(p, Reaping(h))
    ensures Single(OnDropStream(p, h)) && WireOk(OnDropStream(p, h))
  {
    ReapFacts(p, h);
    HandleIdOk(p, h);
    hide Inv, Enabled, HeldByHandle, RegistryOk;
    var m := p.(queues := p.queues - {h});
    DropQueueWire(p, m, h);
    NoOtherQueue(p, h);
    hide WireOk, Single;
    if h.id in p.reg.streams {
      ReapedWire(p, m, h, OnDropStream(p, h));
    } else if h.id in p.reg.inactive {
      IdleReapedWire(m, OnDropStream(p, h));
    }
  }

  lemma DropQueueWire(p: Peer, m: Peer, h: HandleId)
    requires Single(p) && WireOk(p) && m == p.(queues := p.queues - {h})
    ensures Single(m) && WireOk(m)
  {
    hide Sound, StreamFrame;
  }

  lemma ReapedWire(p: Peer, m: Peer, h: HandleId, q: Peer)
    requires Single(m) && WireOk(m) && h == Only0(h.id) && h.id != SESSION && h in m.hist.everOpened
    requires m == p.(queues := p.queues - {h}) && (forall x :: x in p.queues && x.id == h.id ==> x == h) && h.id in m.reg.streams && m.reg.streams[h.id] in m.reg.heap
    requires q == m.(reg := ReapActive(m.reg, h.id), hist := m.hist.(reaped := m.hist.reaped + {h.id}))
    ensures Single(q) && WireOk(q)
  {
    ReapOwed(m.reg, h.id);
    hide StreamFrame, ReapActive;
  }

  lemma NoOtherQueue(p: Peer, h: HandleId)
    requires Inv(p) && Single(p) && h == Only0(h.id)
    ensures forall x :: x in p.queues && x.id == h.id ==> x == h
  {
    hide RecordsOk, RegistryOk, HandlesOk, NoLeak, SlotsOk, WaitersInactive, WaitersOpened, FinsTold, BudgetOk;
  }

  lemma ReapOwed(reg: Registry, id: StreamId)
    requires id in reg.streams && reg.streams[id] in reg.heap && id != SESSION
    ensures var q := ReapActive(reg, id);
            && q.cfg == reg.cfg
            && (forall i :: i in q.owed && i != id ==> i in reg.owed && q.owed[i] == reg.owed[i])
            && (id in q.owed && id !in reg.owed ==> StreamFrame(q.owed[id]) && q.owed[id].header.id == id)
            && (id in q.owed && id in reg.owed ==> q.owed[id] == reg.owed[id] || (StreamFrame(q.owed[id]) && q.owed[id].header.id == id))
  {
  }

  lemma IdleReapedWire(m: Peer, q: Peer)
    requires Single(m) && WireOk(m) && q == m.(reg := q.reg) && q.reg.owed == m.reg.owed && q.reg.cfg == m.reg.cfg
    ensures Single(q) && WireOk(q)
  {
    hide Sound, StreamFrame;
  }

  /** Receiving a frame touches nothing that waits to be sent, save the pong. */
  lemma ReceivingWire(p: Peer, f: Frame)
    requires PeerOk(p) && Enabled(p, Receiving(f)) && Sound(f) && !Receive(p, f).drv.terminating
    ensures Single(Receive(p, f)) && WireOk(Receive(p, f))
  {
    hide Inv, Single, WireOk;
    var q := Receive(p, f);
    FrameKeepsOwed(p, f);
    var m := p.(reg := q.reg);
    IdleReapedWire(p, m);
    ReactWire(m, q, OnFrame(p, f).action, f);
  }

  lemma DataKeepsOwed(reg: Registry, f: Frame)
    requires RegistryInHeap(reg)
    ensures OnData(reg, f).reg.owed == reg.owed && OnData(reg, f).reg.cfg == reg.cfg && !OnData(reg, f).action.Pong?
  {
    hide Mark, Received, WakeBoth;
  }

  lemma FrameKeepsOwed(p: Peer, f: Frame)
    requires RegistryInHeap(p.reg)
    ensures OnFrame(p, f).reg.owed == p.reg.owed && OnFrame(p, f).reg.cfg == p.reg.cfg
    ensures OnFrame(p, f).action.Pong? ==> OnFrame(p, f).action.nonce == f.header.length
  {
    DataKeepsOwed(p.reg, f);
    hide OnData;
  }

  lemma ReactWire(m: Peer, q: Peer, a: Action, f: Frame)
    requires Single(m) && WireOk(m) && q == m.(drv := React(m.drv, a)) && !q.drv.terminating && Sound(f)
    requires m.drv.phase.Active? && (a.Pong? ==> a.nonce == f.header.length)
    ensures Single(q) && WireOk(q)
  {
    hide StreamFrame;
  }

  lemma ClosingWire(p: Peer, order: seq<StreamId>)
    requires PeerOk(p) && KeyOrder(p.reg.owed, order) && !p.drv.terminating && !ChannelsClosed(p)
    ensures Single(BeginClose(p, order)) && WireOk(BeginClose(p, order))
  {
    var q := BeginClose(p, order);
    hide Inv, Sound;
    OwedSound(p, order);
    PongSound(p);
    ClosedQueues(p, q);
  }

  lemma ClosedQueues(p: Peer, q: Peer)
    requires q.queues == map h | h in p.queues :: p.queues[h].(adopted := true)
    ensures q.queues.Keys == p.queues.Keys && forall h :: h in q.queues ==> q.queues[h].cmds == p.queues[h].cmds
  {
  }

  lemma PongSound(p: Peer)
    requires WireOk(p)
    ensures AllSound(OptPong(p.drv.pendingPong))
  {
  }

  lemma OwedSound(p: Peer, order: seq<StreamId>)
    requires WireOk(p) && forall id :: id in order ==> id in p.reg.owed
    ensures AllSound(OwedFrames(p.reg.owed, order))
  {
  }
}
