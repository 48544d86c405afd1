/** Every step of one peer keeps the invariants, so every run does: handle calls,
    driver actions, and arbitrary frames from the remote. */
module PeerRuns {
  import opened Frames
  import opened Basics
  import opened StreamModel
  import opened PeerModel
  import opened PeerInvariants

  // ----- queues and outbound frames -----

  /** Only queues and outbound places change, and no frame is lost. */
  lemma MovesKeep(p: Peer, q: Peer)
    requires Inv(p) && KeepsFrames(p, q)
    requires q.reg == p.reg && q.handles == p.handles && p.hist.everOpened <= q.hist.everOpened
    requires p.queues.Keys <= q.queues.Keys <= q.hist.everOpened
    requires forall h :: h in p.handles ==> h in q.queues && q.queues[h].senderAlive
    requires SlotsOk(q.reg, q.drv.pendingWrite) && BacklogOk(q.drv)
    ensures Inv(q)
  {
  }

  lemma PushKeepsFrames(p: Peer, h: HandleId, c: Command)
    requires h in p.queues
    ensures KeepsFrames(p, Push(p, h, c)) && Outbound(Push(p, h, c), CommandFrame(c))
  {
    var q := Push(p, h, c);
    assert q.queues[h].cmds[|p.queues[h].cmds|] == c;
    forall f | Outbound(p, f) ensures Outbound(q, f) {
      if Queued(p.queues, f) {
        var x, i: nat :| x in p.queues && i < |p.queues[x].cmds| && CommandFrame(p.queues[x].cmds[i]) == f;
        assert CommandFrame(q.queues[x].cmds[i]) == f;
      }
    }
  }

  lemma PushKeeps(p: Peer, h: HandleId, c: Command)
    requires Inv(p) && h in p.queues
    ensures Inv(Push(p, h, c))
    ensures IsClose(CommandFrame(c), h.id) ==> Told(Push(p, h, c), h.id)
  {
    hide RecordsOk, RegistryOk, HandlesOk, NoLeak, WaitersInactive, BudgetOk, FinsTold, KeepsFrames, Outbound;
    PushKeepsFrames(p, h, c);
    MovesKeep(p, Push(p, h, c));
  }

  // ----- opening and activating -----

  lemma OpeningKeeps(p: Peer, h: HandleId)
    requires Inv(p) && CanOpen(p, h)
    ensures Inv(NewStream(p, h))
  {
    var known := RefOf(p.reg, h.id);
    var r := if known.Some? then known.value else p.reg.nextRef;
    var q := p.(queues := p.queues[h := Queue([], false, true)], hist := p.hist.(everOpened := p.hist.everOpened + {h}));
    FreshQueueKeeps(p, h, q);
    var q2 := q.(reg := Attach(p.reg, h.id, r));
    AttachKeeps(q, h, r, q2);
    FreshHandleKeeps(q2, h, r);
    assert q2.(handles := q2.handles[h := r]) == NewStream(p, h);
  }

  lemma FreshQueueKeeps(p: Peer, h: HandleId, q: Peer)
    requires Inv(p) && h !in p.hist.everOpened
    requires q == p.(queues := p.queues[h := Queue([], false, true)], hist := p.hist.(everOpened := p.hist.everOpened + {h}))
    ensures Inv(q)
  {
    assert h !in p.queues;
    assert KeepsFrames(p, q) by {
      forall f | Outbound(p, f) ensures Outbound(q, f) {
        if Queued(p.queues, f) {
          var x, i: nat :| x in p.queues && i < |p.queues[x].cmds| && CommandFrame(p.queues[x].cmds[i]) == f;
          assert CommandFrame(q.queues[x].cmds[i]) == f;
        }
      }
    }
    hide RecordsOk, RegistryOk, HandlesOk, NoLeak, WaitersInactive, BudgetOk, FinsTold, KeepsFrames, Outbound;
    MovesKeep(p, q);
  }

  lemma AttachKeeps(p: Peer, h: HandleId, r: Ref, q: Peer)
    requires Inv(p) && h in p.queues
    requires r == (if RefOf(p.reg, h.id).Some? then RefOf(p.reg, h.id).value else p.reg.nextRef)
    requires q == p.(reg := Attach(p.reg, h.id, r))
    ensures Inv(q)
    ensures RegisteredAs(q.reg, h.id, r) && r in q.reg.heap && q.reg.heap[r].claimed
  {
    hide RecordsOk, RecordOk, RegistryOk, HandlesOk, QueuesOk, NoLeak, SlotsOk, WaitersInactive, WaitersOpened, BudgetOk, FinsTold, Told;
    assert NoticeDue(p.queues, h.id);
    hide NoticeDue;
    KnownOrFresh(p.reg, h.id, r);
    if RefOf(p.reg, h.id).Some? {
      AttachKnown(p, h.id, r, q);
    } else {
      AttachFresh(p, h.id, q);
    }
  }

  lemma KnownOrFresh(reg: Registry, id: StreamId, r: Ref)
    requires RegistryOk(reg)
    requires r == (if RefOf(reg, id).Some? then RefOf(reg, id).value else reg.nextRef)
    ensures RefOf(reg, id).Some? ==> r in reg.heap && reg.heap[r].owner == id
    ensures RefOf(reg, id).None? ==> r !in reg.heap
  {
  }

  lemma OneRecord(reg: Registry, r: Ref)
    requires RecordsOk(reg.heap) && BudgetOk(reg) && r in reg.heap
    ensures RecordOk(reg.heap[r]) && reg.accumulated <= Spare(reg.cfg)
  {
    hide RecordOk, Total, ConfigOk, Spare;
  }

  lemma AttachKnown(p: Peer, id: StreamId, r: Ref, q: Peer)
    requires Inv(p) && r in p.reg.heap && p.reg.heap[r].owner == id && NoticeDue(p.queues, id)
    requires q == p.(reg := SetShared(p.reg, r, p.reg.heap[r].(claimed := true)))
    ensures Inv(q)
  {
    hide RecordsOk, RegistryOk, HandlesOk, QueuesOk, NoLeak, SlotsOk, WaitersInactive, WaitersOpened, BudgetOk, FinsTold, NoticeDue, Told, Spare;
    OneRecord(p.reg, r);
    var sh := p.reg.heap[r].(claimed := true);
    assert RecordOk(sh);
    hide RecordOk;
    RewriteKeeps(p, q, r, sh);
  }

  lemma AttachFresh(p: Peer, id: StreamId, q: Peer)
    requires Inv(p) && NoticeDue(p.queues, id) && id !in p.reg.streams && id !in p.reg.inactive && p.reg.nextRef !in p.reg.heap
    requires q == p.(reg := Attach(p.reg, id, p.reg.nextRef))
    ensures Inv(q)
  {
    hide RecordsOk, RegistryOk, HandlesOk, QueuesOk, NoLeak, WaitersInactive, WaitersOpened, FinsTold, NoticeDue, Told, Spare, Total, ConfigOk;
    var sh := Fresh(id).(claimed := true);
    FreshOk(id);
    assert KeepsFrames(p, q);
    NewIsLocal(p.reg, q.reg, id, sh);
    hide RecordOk, KeepsFrames, Outbound, Local, Placed;
    LocalKeeps(p, q, id, p.reg.nextRef);
  }

  lemma FreshOk(id: StreamId)
    ensures RecordOk(Fresh(id).(claimed := true)) && RecordOk(Fresh(id).(activated := true))
  {
  }

  /** A record added under an id that was not registered. */
  lemma NewIsLocal(reg: Registry, q: Registry, id: StreamId, sh: Shared)
    requires id !in reg.streams && id !in reg.inactive && reg.nextRef !in reg.heap && sh.owner == id
    requires q == reg.(heap := reg.heap[reg.nextRef := sh], nextRef := reg.nextRef + 1, streams := q.streams, inactive := q.inactive)
    requires q.streams == (if sh.activated then reg.streams[id := reg.nextRef] else reg.streams)
    requires q.inactive == (if sh.activated then reg.inactive else reg.inactive[id := reg.nextRef])
    ensures Local(reg, q, id, reg.nextRef) && Placed(q, id, reg.nextRef)
  {
  }

  lemma FreshHandleKeeps(p: Peer, h: HandleId, r: Ref)
    requires Inv(p) && h in p.queues && p.queues[h].senderAlive && h !in p.reg.slotWaiters
    requires RegisteredAs(p.reg, h.id, r) && r in p.reg.heap && p.reg.heap[r].claimed
    ensures Inv(p.(handles := p.handles[h := r]))
  {
    hide RecordsOk, RegistryOk, RegisteredAs, SlotsOk, BudgetOk, NoLeak;
    var q := p.(handles := p.handles[h := r]);
    assert FinsTold(q) by { SameTold(p, q); }
    hide FinsTold;
  }

  lemma SameRegistry(p: Registry, q: Registry)
    requires RegistryOk(p) && q.heap == p.heap && q.nextRef == p.nextRef && q.streams == p.streams && q.inactive == p.inactive
    ensures RegistryOk(q)
  {
  }

  lemma SameTold(p: Peer, q: Peer)
    requires FinsTold(p)
    requires q.reg.heap == p.reg.heap && q.reg.owed == p.reg.owed && q.queues == p.queues && q.drv == p.drv && q.hist == p.hist
    ensures FinsTold(q)
  {
  }

  lemma HandleRecord(p: Peer, h: HandleId)
    requires Inv(p) && h in p.handles
    ensures Usable(p, h)
    ensures RegisteredAs(p.reg, h.id, p.handles[h]) && p.reg.heap[p.handles[h]].owner == h.id
    ensures RecordOk(p.reg.heap[p.handles[h]]) && p.reg.accumulated <= Spare(p.reg.cfg)
  {
    hide RecordOk, NoLeak, SlotsOk, WaitersInactive, WaitersOpened, FinsTold, Total, ConfigOk, Spare;
  }

  /** The branch of `poll_activate` that adopts a record the peer created is never
      taken: a handle whose stream the peer opened already holds that record. */
  lemma AdoptionNeverHappens(p: Peer, h: HandleId)
    requires Inv(p) && h in p.handles && !p.reg.heap[p.handles[h]].activated
    ensures h.id !in p.reg.streams && h.id in p.reg.inactive && p.reg.inactive[h.id] == p.handles[h]
  {
    hide RecordsOk, QueuesOk, NoLeak, SlotsOk, WaitersInactive, WaitersOpened, BudgetOk, FinsTold;
    assert RegisteredAs(p.reg, h.id, p.handles[h]);
  }

  lemma ClaimKeeps(p: Peer, id: StreamId, r: Ref, q: Peer)
    requires Inv(p) && id in p.reg.inactive && p.reg.inactive[id] == r && r in p.reg.heap
    requires TryClaimSlot(p.reg, id, r).Some? && q == p.(reg := TryClaimSlot(p.reg, id, r).value)
    ensures Inv(q)
  {
    hide RecordsOk, RecordOk, RegistryOk, HandlesOk, QueuesOk, NoLeak, WaitersInactive, WaitersOpened, BudgetOk, FinsTold, NoticeDue, Told, Spare, Total;
    OneRecord(p.reg, r);
    ActivatedOk(p.reg.heap[r], true);
    assert KeepsFrames(p, q);
    ClaimIsLocal(p.reg, q.reg, id, r);
    ClaimPlaces(p.reg, q.reg, id, r);
    hide KeepsFrames, Outbound, Local, Placed;
    LocalKeeps(p, q, id, r);
  }

  lemma ClaimIsLocal(reg: Registry, q: Registry, id: StreamId, r: Ref)
    requires RegistryOk(reg) && id in reg.inactive && reg.inactive[id] == r && r in reg.heap
    requires q == reg.(inactive := reg.inactive - {id}, streams := reg.streams[id := r],
                       heap := reg.heap[r := reg.heap[r].(activated := true, synPending := true)])
    ensures Local(reg, q, id, r)
  {
    hide OwnersOk, StreamsOk;
  }

  lemma ClaimPlaces(reg: Registry, q: Registry, id: StreamId, r: Ref)
    requires RegistryOk(reg) && id in reg.inactive && reg.inactive[id] == r && r in reg.heap
    requires q == reg.(inactive := reg.inactive - {id}, streams := reg.streams[id := r],
                       heap := reg.heap[r := reg.heap[r].(activated := true, synPending := true)])
    ensures Placed(q, id, r) && At(reg.heap, One, r) == 0 && |q.streams| == |reg.streams| + 1
  {
  }

  lemma ActivatedOk(sh: Shared, syn: bool)
    requires RecordOk(sh)
    ensures RecordOk(sh.(activated := true)) && RecordOk(sh.(activated := true, synPending := syn))
  {
  }

  lemma WaitKeeps(p: Peer, h: HandleId)
    requires Inv(p) && h in p.handles && !p.reg.heap[p.handles[h]].activated && ActiveSlots(p.reg) >= p.reg.cfg.maxStreams
    ensures Inv(p.(reg := p.reg.(slotWaiters := p.reg.slotWaiters + {h})))
  {
    var q := p.(reg := p.reg.(slotWaiters := p.reg.slotWaiters + {h}));
    hide RecordsOk, NoLeak, Total, ConfigOk, Spare, RegistryOk, FinsTold;
    SameRegistry(p.reg, q.reg);
    SameTold(p, q);
  }

  lemma ActivatingKeeps(p: Peer, h: HandleId)
    requires Inv(p) && h in p.handles
    ensures Usable(p, h) && Inv(PollActivate(p, h).peer) && Usable(PollActivate(p, h).peer, h)
    ensures PollActivate(p, h).peer.handles == p.handles && PollActivate(p, h).peer.queues == p.queues
  {
    hide RecordsOk, RegistryOk, HandlesOk, QueuesOk, NoLeak, SlotsOk, WaitersInactive, WaitersOpened, BudgetOk, FinsTold, NoticeDue, Told, Spare, RecordOk, Placed;
    HandleRecord(p, h);
    var r := p.handles[h];
    if !p.reg.heap[r].activated {
      AdoptionNeverHappens(p, h);
      match TryClaimSlot(p.reg, h.id, r)
      case Some(reg) => ClaimKeeps(p, h.id, r, p.(reg := reg));
      case None => if !ChannelsClosed(p) { WaitKeeps(p, h); }
    }
  }

  // ----- writing, reading, closing -----

  lemma SendingKeeps(p: Peer, h: HandleId, data: seq<byte>)
    requires Inv(p) && h in p.handles && Usable(p, h) && (p.reg.heap[p.handles[h]].activated || ChannelsClosed(p))
    ensures Inv(SendData(p, h, data).peer)
  {
    hide RecordsOk, RegistryOk, HandlesOk, QueuesOk, NoLeak, SlotsOk, WaitersInactive, WaitersOpened, BudgetOk, FinsTold, NoticeDue, Told, Spare;
    HandleRecord(p, h);
    var r := p.handles[h];
    var sh := p.reg.heap[r];
    if !ChannelsClosed(p) && !QueueFull(p, h) && CanWrite(sh.state) {
      if sh.send == 0 {
        var parked := sh.(writer := true);
        assert RecordOk(parked);
        hide RecordOk;
        RewriteKeeps(p, p.(reg := SetShared(p.reg, r, parked)), r, parked);
      } else {
        var k := Portion(p.reg.cfg, sh.send, |data|);
        PortionBounds(p, sh.send, |data|);
        var spent := sh.(send := sh.send - k, synPending := false);
        assert RecordOk(spent);
        hide RecordOk;
        var q := p.(reg := SetShared(p.reg, r, spent),
                    hist := p.hist.(written := p.hist.written[h.id := Log(p.hist.written, h.id) + data[..k]]));
        RewriteKeeps(p, q, r, spent);
        PushKeeps(q, h, SendFrame(DataFrame(h.id, data[..k], sh.synPending)));
      }
    }
  }

  lemma PortionBounds(p: Peer, send: int, wanted: nat)
    requires Inv(p) && send >= 0
    ensures 0 <= Portion(p.reg.cfg, send, wanted) <= wanted && Portion(p.reg.cfg, send, wanted) <= Min(send, U32_MAX)
  {
    hide RecordsOk, RegistryOk, HandlesOk, QueuesOk, NoLeak, SlotsOk, WaitersInactive, WaitersOpened, FinsTold, Total, Spare, Build;
  }

  lemma WritingKeeps(p: Peer, h: HandleId, data: seq<byte>)
    requires Inv(p) && h in p.handles && Usable(p, h)
    ensures Inv(PollWrite(p, h, data).peer)
  {
    hide Inv;
    ActivatingKeeps(p, h);
    var act := PollActivate(p, h);
    if !act.reply.Parked? { SendingKeeps(act.peer, h, data); }
  }

  lemma GrantingKeeps(p: Peer, h: HandleId, tune: bool)
    requires Inv(p) && h in p.handles && Usable(p, h)
    ensures var q := SendWindowUpdate(p, h, tune);
            && Inv(q) && q.handles == p.handles && Usable(q, h) && q.drv == p.drv
            && ((&& CanRead(p.reg.heap[p.handles[h]].state) && !ChannelsClosed(p) && !QueueFull(p, h)
                 && p.reg.heap[p.handles[h]].buffer == []) ==> Topped(q.reg.heap[p.handles[h]]))
            && q.reg.heap[p.handles[h]].state == p.reg.heap[p.handles[h]].state
            && q.reg.heap[p.handles[h]].buffer == p.reg.heap[p.handles[h]].buffer
  {
    hide RecordsOk, RegistryOk, HandlesOk, QueuesOk, NoLeak, SlotsOk, WaitersInactive, WaitersOpened, BudgetOk, FinsTold, NoticeDue, Told, Spare;
    HandleRecord(p, h);
    var r := p.handles[h];
    var sh := p.reg.heap[r];
    if CanRead(sh.state) && !ChannelsClosed(p) && !QueueFull(p, h) {
      match NextGrant(p.reg.cfg, p.reg.accumulated, sh, tune)
      case None =>
      case Some(g) =>
        ExcessBound(p, r);
        GrantKeepsWindows(p.reg.cfg, p.reg.accumulated, sh, tune);
        var q := p.(reg := SetShared(p.reg, r, Granted(sh, g)).(accumulated := p.reg.accumulated + (g.newMax - sh.maxRecv)));
        assert RecordOk(Granted(sh, g));
        hide RecordOk, NextGrant;
        RewriteKeeps(p, q, r, Granted(sh, g));
        PushKeeps(q, h, SendFrame(CreditFrame(h.id, g.credit)));
    }
  }

  /** More than half of the window is granted. */
  predicate Topped(sh: Shared) { sh.maxRecv - sh.recv < sh.maxRecv / 2 }

  lemma ExcessBound(p: Peer, r: Ref)
    requires Inv(p) && r in p.reg.heap
    ensures p.reg.heap[r].maxRecv - DEFAULT_CREDIT <= p.reg.accumulated <= Spare(p.reg.cfg)
    ensures ConfigOk(p.reg.cfg)
  {
    hide HandlesOk, QueuesOk, NoLeak, SlotsOk, WaitersInactive, WaitersOpened, FinsTold, Spare, StreamsOk, InactiveOk, StateOk, ParkedOk, ConfigOk;
    TotalAtLeast(p.reg.heap, p.reg.nextRef, Excess, r);
  }

  lemma ReadingKeeps(p: Peer, h: HandleId, n: nat, tune: bool)
    requires Inv(p) && h in p.handles && Usable(p, h)
    ensures Inv(PollRead(p, h, n, tune).peer)
  {
    hide RecordsOk, RegistryOk, HandlesOk, QueuesOk, NoLeak, SlotsOk, WaitersInactive, WaitersOpened, BudgetOk, FinsTold, NoticeDue, Told, Spare;
    var room := !ChannelsClosed(p) && !QueueFull(p, h);
    GrantingKeeps(p, h, tune);
    var q := SendWindowUpdate(p, h, tune);
    HandleRecord(q, h);
    hide SendWindowUpdate;
    var r := p.handles[h];
    var sh := q.reg.heap[r];
    var k := Min(n, |sh.buffer|);
    if k > 0 {
      var rest := sh.(buffer := sh.buffer[k..]);
      assert RecordOk(rest);
      hide RecordOk;
      RewriteKeeps(q, ReadBuffer(q, h, n, room).peer, r, rest);
    } else if (p.reg.cfg.readAfterClose || !ChannelsClosed(p)) && CanRead(sh.state) {
      var parked := sh.(reader := true, readNothing := n == 0, readRoom := room);
      assert RecordOk(parked);
      hide RecordOk;
      var w := q.(reg := SetShared(q.reg, r, parked));
      RewriteKeeps(q, w, r, parked);
    }
  }

  lemma ShuttingKeeps(p: Peer, h: HandleId)
    requires Inv(p) && h in p.handles && Usable(p, h)
    ensures Inv(PollClose(p, h).peer)
  {
    hide RecordsOk, RegistryOk, HandlesOk, QueuesOk, NoLeak, SlotsOk, WaitersInactive, WaitersOpened, BudgetOk, FinsTold, NoticeDue, Told, Spare;
    HandleRecord(p, h);
    var r := p.handles[h];
    var sh := p.reg.heap[r];
    if sh.state.Closed? {
    } else if !sh.activated {
      MarkKeepsRecord(sh, InactiveClose);
      hide RecordOk;
      RewriteKeeps(p, PollClose(p, h).peer, r, Mark(sh, InactiveClose));
    } else if !ChannelsClosed(p) && !QueueFull(p, h) {
      MarkKeepsRecord(sh, LocalFin);
      hide RecordOk;
      PushKeeps(p, h, CloseStream(h.id));
      var q := Push(p, h, CloseStream(h.id));
      RewriteKeeps(q, q.(reg := SetShared(p.reg, r, Mark(sh, LocalFin))), r, Mark(sh, LocalFin));
    }
  }

  /** Half-closing for sending leaves a parked reader in place. */
  lemma MarkKeepsRecord(sh: Shared, e: Event)
    requires RecordOk(sh) && Target(e) == SendClosed && !sh.state.Closed?
    ensures RecordOk(Mark(sh, e))
  {
  }

  // ----- letting go -----

  lemma ReleasingKeeps(p: Peer, h: HandleId)
    requires Inv(p) && h in p.handles
    ensures Inv(Release(p, h))
  {
  }

  lemma RequeueKeepsFrames(p: Peer, q: Peer, h: HandleId)
    requires h in p.queues && h in q.queues && q.queues[h].cmds == p.queues[h].cmds
    requires q == p.(queues := p.queues[h := q.queues[h]])
    ensures KeepsFrames(p, q)
  {
    forall f | Outbound(p, f) ensures Outbound(q, f) {
      if Queued(p.queues, f) {
        var x, i: nat :| x in p.queues && i < |p.queues[x].cmds| && CommandFrame(p.queues[x].cmds[i]) == f;
        assert CommandFrame(q.queues[x].cmds[i]) == f;
      }
    }
  }

  lemma HangingUpKeeps(p: Peer, h: HandleId)
    requires Inv(p) && h in p.queues && h !in p.handles
    ensures Inv(Hangup(p, h))
  {
    hide RecordsOk, RegistryOk, HandlesOk, NoLeak, WaitersInactive, WaitersOpened, BudgetOk, FinsTold, SlotsOk;
    RequeueKeepsFrames(p, Hangup(p, h), h);
    MovesKeep(p, Hangup(p, h));
  }

  lemma AdoptingKeeps(p: Peer, h: HandleId)
    requires Inv(p) && h in p.queues
    ensures Inv(Adopt(p, h))
  {
    hide RecordsOk, RegistryOk, HandlesOk, NoLeak, WaitersInactive, WaitersOpened, BudgetOk, FinsTold, SlotsOk;
    RequeueKeepsFrames(p, Adopt(p, h), h);
    MovesKeep(p, Adopt(p, h));
  }

  // ----- moving frames towards the wire -----

  function Noted(e: Emission): Peer {
    e.peer.(hist := e.peer.hist.(sent := e.peer.hist.sent + OptFrame(e.frame)))
  }

  lemma EmittingKeeps(p: Peer)
    requires Inv(p)
    ensures Inv(Noted(Emit(p)))
  {
    hide RecordsOk, RegistryOk, HandlesOk, NoLeak, WaitersInactive, WaitersOpened, BudgetOk, FinsTold;
    var q := Noted(Emit(p));
    assert KeepsFrames(p, q);
    hide Outbound, KeepsFrames;
    MovesKeep(p, q);
  }

  lemma PingingKeeps(p: Peer, n: int)
    requires Inv(p)
    ensures Inv(Noted(Emission(p.(drv := p.drv.(awaitingPong := Some(n))), Some(PingFrame(n)))))
  {
  }

  lemma TakingKeeps(p: Peer, h: HandleId, q: Peer)
    requires Inv(p) && h in p.queues && |p.queues[h].cmds| > 0
    requires (OutboundIdle(p) && q == TakeCommand(p, h)) || (p.drv.phase.Draining? && q == DrainCommand(p, h))
    ensures Inv(q)
  {
    hide RecordsOk, RegistryOk, HandlesOk, NoLeak, WaitersInactive, WaitersOpened, BudgetOk, FinsTold;
    TakeKeepsFrames(p, h, q);
    hide Outbound, KeepsFrames;
    MovesKeep(p, q);
  }

  lemma TakeKeepsFrames(p: Peer, h: HandleId, q: Peer)
    requires h in p.queues && |p.queues[h].cmds| > 0
    requires (OutboundIdle(p) && q == TakeCommand(p, h)) || q == DrainCommand(p, h)
    ensures KeepsFrames(p, q)
  {
    forall f | Outbound(p, f) ensures Outbound(q, f) {
      if Queued(p.queues, f) && f != CommandFrame(p.queues[h].cmds[0]) {
        var x, i: nat :| x in p.queues && i < |p.queues[x].cmds| && CommandFrame(p.queues[x].cmds[i]) == f;
        assert x == h ==> CommandFrame(q.queues[x].cmds[i - 1]) == f;
        assert x != h ==> CommandFrame(q.queues[x].cmds[i]) == f;
      }
    }
  }

  lemma FinishingKeeps(p: Peer)
    requires Inv(p)
    requires p.drv.phase.Draining? || p.drv.phase.Flushing?
    ensures Inv(FinishDrain(p)) && Inv(Noted(FlushBacklog(p)))
  {
    hide RecordsOk, RegistryOk, HandlesOk, NoLeak, WaitersInactive, WaitersOpened, BudgetOk, FinsTold;
    assert KeepsFrames(p, FinishDrain(p));
    var q := Noted(FlushBacklog(p));
    assert KeepsFrames(p, q);
    hide Outbound, KeepsFrames;
    MovesKeep(p, FinishDrain(p));
    MovesKeep(p, q);
  }

  lemma FlushingOwedKeeps(p: Peer, id: StreamId)
    requires Inv(p) && id in p.reg.owed && p.drv.pendingWrite.None?
    ensures Inv(FlushOwed(p, id))
  {
    hide RecordsOk, RegistryOk, NoLeak, BudgetOk, FinsTold, QueuesOk, KeepsFrames;
    var q := FlushOwed(p, id);
    OwedAlone(p.reg.owed, id);
    SameRegistry(p.reg, q.reg);
    OwedKeepsFrames(p, id);
    SameBudget(p.reg, q.reg);
    FinsStay(p, q);
  }

  lemma OwedAlone(owed: map<StreamId, Frame>, id: StreamId)
    requires id in owed && |owed| <= 1
    ensures owed - {id} == map[] && |owed - {id}| == |owed| - 1
  {
  }

  lemma OwedKeepsFrames(p: Peer, id: StreamId)
    requires id in p.reg.owed && p.drv.pendingWrite.None?
    ensures KeepsFrames(p, FlushOwed(p, id))
  {
    var q := FlushOwed(p, id);
    forall f | Outbound(p, f) ensures Outbound(q, f) {
      if f in p.reg.owed.Values && f != p.reg.owed[id] {
        var i :| i in p.reg.owed && p.reg.owed[i] == f;
        assert i in q.reg.owed && q.reg.owed[i] == f;
      }
    }
  }

  lemma SameBudget(p: Registry, q: Registry)
    requires BudgetOk(p) && q.cfg == p.cfg && q.heap == p.heap && q.nextRef == p.nextRef
    requires q.streams == p.streams && q.accumulated == p.accumulated
    ensures BudgetOk(q)
  {
  }

  lemma FinsStay(p: Peer, q: Peer)
    requires FinsTold(p) && KeepsFrames(p, q) && q.reg.heap == p.reg.heap
    ensures FinsTold(q)
  {
  }

  // ----- reaping -----

  predicate Registered(reg: Registry, id: StreamId) { id in reg.streams || id in reg.inactive }

  ghost predicate NoticeElse(queues: map<HandleId, Queue>, h: HandleId) {
    exists x :: x in queues && x != h && x.id == h.id
  }

  lemma SiblingLives(p: Peer, h: HandleId, r: Ref)
    requires Inv(p) && HeldByHandle(p.handles, r) && h !in p.handles && RegisteredAs(p.reg, h.id, r)
    ensures NoticeElse(p.queues, h)
  {
  }

  lemma DropQueueKeepsFrames(p: Peer, h: HandleId)
    requires h in p.queues && p.queues[h].cmds == []
    ensures KeepsFrames(p, p.(queues := p.queues - {h}))
  {
    var q := p.(queues := p.queues - {h});
    forall f | Outbound(p, f) ensures Outbound(q, f) {
      if Queued(p.queues, f) {
        var x, i: nat :| x in p.queues && i < |p.queues[x].cmds| && CommandFrame(p.queues[x].cmds[i]) == f;
        assert x in q.queues && CommandFrame(q.queues[x].cmds[i]) == f;
      }
    }
  }

  lemma DropQueueKeepsNotices(p: Peer, h: HandleId)
    requires NoLeak(p.reg.heap, p.queues) && OwnersOk(p.reg) && h in p.queues
    requires NoticeElse(p.queues, h) || !Registered(p.reg, h.id)
    ensures NoLeak(p.reg.heap, p.queues - {h})
  {
  }

  lemma DropQueueKeeps(p: Peer, h: HandleId)
    requires Inv(p) && h in p.queues && p.queues[h].cmds == [] && h !in p.handles
    requires NoticeElse(p.queues, h) || !Registered(p.reg, h.id)
    ensures Inv(p.(queues := p.queues - {h}))
  {
    var q := p.(queues := p.queues - {h});
    hide RecordsOk, HandlesOk, SlotsOk, WaitersInactive, WaitersOpened, BudgetOk, FinsTold, NoticeElse, NoLeak, StreamsOk, InactiveOk, OwnersOk;
    DropQueueKeepsNotices(p, h);
    DropQueueKeepsFrames(p, h);
    hide Outbound, KeepsFrames;
    FinsStay(p, q);
  }

  lemma ReapLocal(reg: Registry, q: Registry, id: StreamId, r: Ref)
    requires RegistryOk(reg) && r in reg.heap && RegisteredAs(reg, id, r)
    requires q == reg.(heap := reg.heap - {r}, streams := reg.streams - {id}, inactive := reg.inactive - {id},
                       owed := q.owed, slotWaiters := q.slotWaiters, accumulated := q.accumulated)
    ensures Local(reg, q, id, r) && Placed(q, id, r)
  {
    hide OwnersOk;
  }

  lemma RemoveAbsent(m: map<StreamId, Ref>, id: StreamId)
    requires id !in m
    ensures m - {id} == m
  {
  }

  lemma StreamRecord(p: Peer, id: StreamId)
    requires Inv(p) && id in p.reg.streams
    ensures id !in p.reg.inactive && p.reg.streams[id] in p.reg.heap
    ensures var sh := p.reg.heap[p.reg.streams[id]]; sh.owner == id && sh.activated && RecordOk(sh)
    ensures p.reg.accumulated <= Spare(p.reg.cfg)
  {
    hide RecordOk, HandlesOk, QueuesOk, NoLeak, SlotsOk, WaitersInactive, WaitersOpened, FinsTold, Total, Spare, ConfigOk, InactiveOk, OwnersOk;
  }

  lemma InactiveRecord(p: Peer, id: StreamId)
    requires Inv(p) && id in p.reg.inactive
    ensures id !in p.reg.streams && p.reg.inactive[id] in p.reg.heap
    ensures var sh := p.reg.heap[p.reg.inactive[id]]; sh.owner == id && !sh.activated && RecordOk(sh)
    ensures p.reg.accumulated <= Spare(p.reg.cfg)
  {
    hide RecordOk, HandlesOk, QueuesOk, NoLeak, SlotsOk, WaitersInactive, WaitersOpened, FinsTold, Total, Spare, ConfigOk, OwnersOk;
  }

  /** Reaping frees the record at once; the slot goes with it only if no close
      frame is owed. */
  lemma ReapActiveKeeps(p: Peer, id: StreamId, q: Peer)
    requires Inv(p) && OutboundIdle(p) && id in p.reg.streams && p.reg.streams[id] in p.reg.heap
    requires !HeldByHandle(p.handles, p.reg.streams[id])
    requires q.reg == ReapActive(p.reg, id) && q == p.(reg := q.reg, hist := q.hist)
    requires q.hist == p.hist.(reaped := q.hist.reaped)
    ensures Inv(q) && !Registered(q.reg, id)
  {
    hide RecordsOk, RegistryOk, HandlesOk, QueuesOk, NoLeak, WaitersInactive, WaitersOpened, BudgetOk, FinsTold, NoticeDue, Told, Spare, HeldByHandle;
    StreamRecord(p, id);
    var r := p.reg.streams[id];
    ReapActiveFrames(p, id, q);
    RemoveAbsent(p.reg.inactive, id);
    ReapLocal(p.reg, q.reg, id, r);
    ReapSlots(p, id, q);
    hide RecordOk, KeepsFrames, Outbound, Local, Placed, ReapActive, SlotsOk;
    LocalKeeps(p, q, id, r);
  }

  lemma ReapActiveFrames(p: Peer, id: StreamId, q: Peer)
    requires OutboundIdle(p) && id in p.reg.streams && p.reg.streams[id] in p.reg.heap
    requires q.reg == ReapActive(p.reg, id) && q == p.(reg := q.reg, hist := q.hist) && q.hist.sent == p.hist.sent
    ensures KeepsFrames(p, q)
  {
  }

  lemma ReapSlots(p: Peer, id: StreamId, q: Peer)
    requires SlotsOk(p.reg, p.drv.pendingWrite) && OutboundIdle(p)
    requires id in p.reg.streams && p.reg.streams[id] in p.reg.heap
    requires p.reg.heap[p.reg.streams[id]].activated
    requires p.reg.accumulated <= Spare(p.reg.cfg) && p.reg.heap[p.reg.streams[id]].maxRecv >= DEFAULT_CREDIT
    requires q.reg == ReapActive(p.reg, id) && q.drv == p.drv
    ensures SlotsKept(p, q, id, p.reg.streams[id])
  {
    hide Spare;
    assert |(p.reg.streams - {id}).Keys| == |p.reg.streams| - 1 by {
      assert (p.reg.streams - {id}).Keys == p.reg.streams.Keys - {id};
    }
  }

  lemma ReapInactiveKeeps(p: Peer, id: StreamId, q: Peer)
    requires Inv(p) && id in p.reg.inactive && p.reg.inactive[id] in p.reg.heap
    requires !HeldByHandle(p.handles, p.reg.inactive[id])
    requires q == p.(reg := ReapInactive(p.reg, id))
    ensures Inv(q) && !Registered(q.reg, id)
  {
    hide RecordsOk, RegistryOk, HandlesOk, QueuesOk, NoLeak, WaitersInactive, WaitersOpened, BudgetOk, FinsTold, NoticeDue, Told, Spare, HeldByHandle;
    InactiveRecord(p, id);
    var r := p.reg.inactive[id];
    assert KeepsFrames(p, q);
    RemoveAbsent(p.reg.streams, id);
    ReapLocal(p.reg, q.reg, id, r);
    InactiveSlots(p, id, q);
    hide RecordOk, KeepsFrames, Outbound, Local, Placed, ReapInactive, SlotsOk;
    LocalKeeps(p, q, id, r);
  }

  lemma InactiveSlots(p: Peer, id: StreamId, q: Peer)
    requires SlotsOk(p.reg, p.drv.pendingWrite) && id in p.reg.inactive && p.reg.inactive[id] in p.reg.heap
    requires var sh := p.reg.heap[p.reg.inactive[id]]; !sh.activated && sh.maxRecv == DEFAULT_CREDIT
    requires p.reg.accumulated <= Spare(p.reg.cfg)
    requires q == p.(reg := ReapInactive(p.reg, id))
    ensures SlotsKept(p, q, id, p.reg.inactive[id])
  {
    hide Spare;
  }

  lemma ReapingKeeps(p: Peer, h: HandleId)
    requires Inv(p) && RegistryInHeap(p.reg) && OutboundIdle(p)
    requires h in p.queues && p.queues[h].cmds == [] && !p.queues[h].senderAlive
    ensures Inv(OnDropStream(p, h))
  {
    var id := h.id;
    assert h !in p.handles;
    hide Inv, HeldByHandle;
    if id in p.reg.streams && HeldByHandle(p.handles, p.reg.streams[id]) {
      SiblingLives(p, h, p.reg.streams[id]);
      DropQueueKeeps(p, h);
    } else if id in p.reg.inactive && HeldByHandle(p.handles, p.reg.inactive[id]) {
      SiblingLives(p, h, p.reg.inactive[id]);
      DropQueueKeeps(p, h);
    } else if id in p.reg.streams {
      var q := p.(reg := ReapActive(p.reg, id), hist := p.hist.(reaped := p.hist.reaped + {id}));
      ReapActiveKeeps(p, id, q);
      DropQueueKeeps(q, h);
    } else if id in p.reg.inactive {
      var q := p.(reg := ReapInactive(p.reg, id));
      ReapInactiveKeeps(p, id, q);
      DropQueueKeeps(q, h);
    } else {
      DropQueueKeeps(p, h);
    }
  }

  // ----- frames from the remote, whatever they are -----

  lemma ReceivedOk(sh: Shared, f: Frame)
    requires RecordOk(sh) && sh.activated && |f.body| <= sh.recv
    ensures RecordOk(Received(sh, f))
  {
  }

  lemma ResetOk(sh: Shared, e: Event)
    requires RecordOk(sh)
    ensures RecordOk(WakeBoth(Mark(sh, e)))
  {
  }

  lemma DeliveringKeeps(p: Peer, f: Frame)
    requires Inv(p) && f.header.id in p.reg.streams && p.reg.streams[f.header.id] in p.reg.heap
    ensures Inv(p.(reg := Deliver(p.reg, f).reg))
  {
    hide RecordsOk, RegistryOk, HandlesOk, QueuesOk, NoLeak, SlotsOk, WaitersInactive, WaitersOpened, BudgetOk, FinsTold, NoticeDue, Told, Spare, RecordOk, Received;
    StreamRecord(p, f.header.id);
    var r := p.reg.streams[f.header.id];
    var sh := p.reg.heap[r];
    if |f.body| <= sh.recv {
      ReceivedOk(sh, f);
      ReceivedSame(sh, f);
      RewriteKeeps(p, p.(reg := SetShared(p.reg, r, Received(sh, f))), r, Received(sh, f));
    } else {
      assert p.(reg := p.reg) == p;
    }
  }

  lemma ReceivedSame(sh: Shared, f: Frame)
    ensures var s := Received(sh, f);
            s.owner == sh.owner && s.activated == sh.activated && s.claimed == sh.claimed && s.maxRecv == sh.maxRecv
            && (LocalFin in s.events <==> LocalFin in sh.events)
  {
  }

  lemma ResettingKeeps(p: Peer, id: StreamId)
    requires Inv(p) && RegistryInHeap(p.reg)
    ensures Inv(p.(reg := PeerReset(p.reg, id)))
  {
    hide RecordsOk, RegistryOk, HandlesOk, QueuesOk, NoLeak, SlotsOk, WaitersInactive, WaitersOpened, BudgetOk, FinsTold, NoticeDue, Told, Spare, RecordOk;
    if id in p.reg.streams {
      StreamRecord(p, id);
      var r := p.reg.streams[id];
      var sh := WakeBoth(Mark(p.reg.heap[r], RemoteRst));
      ResetOk(p.reg.heap[r], RemoteRst);
      RewriteKeeps(p, p.(reg := SetShared(p.reg, r, sh)), r, sh);
    } else {
      assert p.(reg := p.reg) == p;
    }
  }

  lemma CreditingKeeps(p: Peer, f: Frame)
    requires Inv(p) && RegistryInHeap(p.reg) && f.header.length >= 0
    ensures Inv(p.(reg := OnWindowUpdate(p.reg, f).reg))
  {
    hide RecordsOk, RegistryOk, HandlesOk, QueuesOk, NoLeak, SlotsOk, WaitersInactive, WaitersOpened, BudgetOk, FinsTold, NoticeDue, Told, Spare;
    var id := f.header.id;
    if id in p.reg.streams && p.reg.heap[p.reg.streams[id]].send + f.header.length <= U32_MAX {
      StreamRecord(p, id);
      var r := p.reg.streams[id];
      var sh := p.reg.heap[r].(send := p.reg.heap[r].send + f.header.length, writer := false);
      assert RecordOk(sh);
      hide RecordOk;
      RewriteKeeps(p, p.(reg := SetShared(p.reg, r, sh)), r, sh);
    } else {
      assert p.(reg := p.reg) == p;
    }
  }

  /** A peer SYN takes a free slot. No handle is waiting for a slot then, so no
      waiting writer can be overtaken. */
  lemma AdmittingKeeps(p: Peer, id: StreamId)
    requires Inv(p) && RegistryInHeap(p.reg) && p.reg.owed == map[] && |p.reg.streams| < p.reg.cfg.maxStreams
    requires id !in p.reg.streams
    ensures var q := p.(reg := Admit(p.reg, id)); Inv(q) && id in q.reg.streams && q.reg.streams[id] in q.reg.heap
  {
    hide RecordsOk, RegistryOk, HandlesOk, QueuesOk, NoLeak, WaitersInactive, WaitersOpened, BudgetOk, FinsTold, NoticeDue, Told, Spare;
    assert p.reg.slotWaiters == {};
    if id in p.reg.inactive {
      PromotingKeeps(p, id, p.(reg := Admit(p.reg, id)));
    } else {
      KnownOrFresh(p.reg, id, p.reg.nextRef);
      ImplicitKeeps(p, id, p.(reg := Admit(p.reg, id)));
    }
  }

  lemma PromotingKeeps(p: Peer, id: StreamId, q: Peer)
    requires Inv(p) && p.reg.owed == map[] && |p.reg.streams| < p.reg.cfg.maxStreams && p.reg.slotWaiters == {}
    requires id in p.reg.inactive && p.reg.inactive[id] in p.reg.heap
    requires q == p.(reg := Admit(p.reg, id))
    ensures Inv(q)
  {
    hide RecordsOk, RecordOk, RegistryOk, HandlesOk, QueuesOk, NoLeak, WaitersInactive, WaitersOpened, BudgetOk, FinsTold, NoticeDue, Told, Spare, Total;
    InactiveRecord(p, id);
    var r := p.reg.inactive[id];
    ActivatedOk(p.reg.heap[r], true);
    assert KeepsFrames(p, q);
    PromoteIsLocal(p.reg, q.reg, id, r);
    hide KeepsFrames, Outbound, Local, Placed;
    LocalKeeps(p, q, id, r);
  }

  lemma PromoteIsLocal(reg: Registry, q: Registry, id: StreamId, r: Ref)
    requires id in reg.inactive && reg.inactive[id] == r && r in reg.heap && id !in reg.streams
    requires reg.heap[r].owner == id && !reg.heap[r].activated
    requires q == reg.(inactive := reg.inactive - {id}, streams := reg.streams[id := r],
                       heap := reg.heap[r := reg.heap[r].(activated := true)])
    ensures Local(reg, q, id, r) && Placed(q, id, r)
    ensures At(reg.heap, One, r) == 0 && |q.streams| == |reg.streams| + 1
  {
  }

  lemma ImplicitKeeps(p: Peer, id: StreamId, q: Peer)
    requires Inv(p) && p.reg.owed == map[] && |p.reg.streams| < p.reg.cfg.maxStreams && p.reg.slotWaiters == {}
    requires id !in p.reg.inactive && id !in p.reg.streams && p.reg.nextRef !in p.reg.heap
    requires q == p.(reg := Admit(p.reg, id))
    ensures Inv(q)
  {
    hide RecordsOk, RegistryOk, HandlesOk, QueuesOk, NoLeak, WaitersInactive, WaitersOpened, FinsTold, NoticeDue, Told, Spare, Total, ConfigOk;
    var sh := Fresh(id).(activated := true);
    FreshOk(id);
    assert KeepsFrames(p, q);
    NewIsLocal(p.reg, q.reg, id, sh);
    hide RecordOk, KeepsFrames, Outbound, Local, Placed;
    LocalKeeps(p, q, id, p.reg.nextRef);
  }

  lemma OnFrameKeeps(p: Peer, f: Frame)
    requires Inv(p) && RegistryInHeap(p.reg) && p.reg.owed == map[] && WellFormed(f)
    ensures Inv(p.(reg := OnFrame(p, f).reg))
  {
    hide RecordsOk, RegistryOk, HandlesOk, QueuesOk, NoLeak, SlotsOk, WaitersInactive, WaitersOpened, BudgetOk, FinsTold, NoticeDue, Told, Spare, RecordOk, Inv;
    assert p.(reg := p.reg) == p;
    if !p.drv.terminating {
      match f.header.tag
      case Data =>
        if f.header.flags.rst {
          ResettingKeeps(p, f.header.id);
        } else if f.header.id != SESSION {
          if f.header.id in p.reg.streams {
            DeliveringKeeps(p, f);
          } else if f.header.flags.syn && |f.body| <= DEFAULT_CREDIT && |p.reg.streams| < p.reg.cfg.maxStreams {
            AdmittingKeeps(p, f.header.id);
            DeliveringKeeps(p.(reg := Admit(p.reg, f.header.id)), f);
          }
        }
      case WindowUpdate => CreditingKeeps(p, f);
      case Ping =>
      case GoAway =>
    }
  }

  lemma ReceivingKeeps(p: Peer, f: Frame)
    requires Inv(p) && RegistryInHeap(p.reg) && WellFormed(f) && p.drv.phase.Active?
    requires p.drv.pendingWrite.None? ==> p.reg.owed == map[]
    ensures Inv(Receive(p, f))
  {
    hide OnFrame, Inv;
    OwedIdle(p);
    OnFrameKeeps(p, f);
    var q := p.(reg := OnFrame(p, f).reg);
    var w := Receive(p, f);
    ReactKeeps(q, w);
  }

  /** A staged close frame means that nothing waits to be written. */
  lemma OwedIdle(p: Peer)
    requires Inv(p) && (p.drv.pendingWrite.None? ==> p.reg.owed == map[])
    ensures p.reg.owed == map[]
  {
    hide RecordsOk, RegistryOk, HandlesOk, NoLeak, WaitersInactive, WaitersOpened, BudgetOk, FinsTold, QueuesOk;
  }

  lemma ReactKeeps(q: Peer, w: Peer)
    requires Inv(q) && q.drv.phase.Active? && w == q.(drv := w.drv) && w.drv.pendingWrite == q.drv.pendingWrite && w.drv.backlog == q.drv.backlog
    ensures Inv(w)
  {
  }

  // ----- leaving the active state -----

  lemma ClosingKeeps(p: Peer, order: seq<StreamId>)
    requires Inv(p) && KeyOrder(p.reg.owed, order) && !p.drv.phase.Draining? && !p.drv.phase.Flushing?
    ensures Inv(BeginClose(p, order))
  {
    var q := p.(reg := StopReceiving(p.reg));
    StoppingKeeps(p, q);
    var w := BeginClose(p, order);
    hide RecordsOk, RegistryOk, HandlesOk, NoLeak, WaitersInactive, WaitersOpened, BudgetOk, FinsTold;
    CloseKeepsFrames(p, q, w, order);
    hide Outbound, KeepsFrames;
    MovesKeep(q, w);
  }

  lemma CloseKeepsFrames(p: Peer, q: Peer, w: Peer, order: seq<StreamId>)
    requires Inv(p) && KeyOrder(p.reg.owed, order) && q == p.(reg := StopReceiving(p.reg)) && w == BeginClose(p, order)
    requires p.drv.backlog == []
    ensures KeepsFrames(q, w)
  {
    hide Inv, StopReceiving, OwedFrames;
    forall f | Outbound(q, f) ensures Outbound(w, f) {
      if q.drv.pendingWrite == Some(f) {
        assert OptFrame(p.drv.pendingWrite) == [f];
        assert f in w.drv.backlog;
      } else if Queued(q.queues, f) {
        var x, i: nat :| x in q.queues && i < |q.queues[x].cmds| && CommandFrame(q.queues[x].cmds[i]) == f;
        assert x in w.queues && CommandFrame(w.queues[x].cmds[i]) == f;
      }
    }
  }

  lemma StoppingKeeps(p: Peer, q: Peer)
    requires Inv(p) && q == p.(reg := StopReceiving(p.reg))
    ensures Inv(q)
  {
    hide RecordsOk, RegistryOk, BudgetOk, NoLeak, FinsTold, HandlesOk;
    StopRecords(p.reg.heap, q.reg.heap);
    StopRegistry(p.reg, q.reg);
    StopBudget(p.reg, q.reg);
    StopLeak(p.reg.heap, q.reg.heap, p.queues);
    StopHandles(p.reg, q.reg, p.handles);
    StopFins(p, q);
  }

  lemma StopHandles(p: Registry, q: Registry, handles: map<HandleId, Ref>)
    requires HandlesOk(p, handles) && q == StopReceiving(p)
    ensures HandlesOk(q, handles)
  {
  }

  lemma StopFins(p: Peer, q: Peer)
    requires FinsTold(p) && q == p.(reg := StopReceiving(p.reg))
    ensures FinsTold(q)
  {
  }

  lemma StopRecords(a: map<Ref, Shared>, b: map<Ref, Shared>)
    requires RecordsOk(a) && b == map r | r in a :: WakeBoth(Mark(a[r], LeftActive))
    ensures RecordsOk(b)
  {
    forall r | r in b ensures RecordOk(b[r]) { ResetOk(a[r], LeftActive); }
  }

  lemma StopRegistry(p: Registry, q: Registry)
    requires RegistryOk(p) && q == StopReceiving(p)
    ensures RegistryOk(q)
  {
  }

  lemma StopBudget(p: Registry, q: Registry)
    requires BudgetOk(p) && q == StopReceiving(p)
    ensures BudgetOk(q)
  {
    hide ConfigOk, Spare;
    TotalSame(p.heap, q.heap, p.nextRef, Excess);
    TotalSame(p.heap, q.heap, p.nextRef, One);
  }

  lemma StopLeak(a: map<Ref, Shared>, b: map<Ref, Shared>, queues: map<HandleId, Queue>)
    requires NoLeak(a, queues) && b == map r | r in a :: WakeBoth(Mark(a[r], LeftActive))
    ensures NoLeak(b, queues)
  {
  }

  // ----- runs -----

  lemma StepKeeps(p: Peer, s: Step)
    requires Inv(p) && Enabled(p, s)
    ensures Inv(Apply(p, s).peer)
  {
    hide Inv;
    var q := Apply(p, s).peer;
    match s
    case Opening(h) => OpeningKeeps(p, h); assert q == NewStream(p, h);
    case Writing(h, data) => WritingKeeps(p, h, data); SentUntouched(p, s);
    case Reading(h, n, tune) => ReadingKeeps(p, h, n, tune); SentUntouched(p, s);
    case Shutting(h) => ShuttingKeeps(p, h); SentUntouched(p, s);
    case Releasing(h) => ReleasingKeeps(p, h); assert q == Release(p, h);
    case HangingUp(h) => HangingUpKeeps(p, h); assert q == Hangup(p, h);
    case Adopting(h) => AdoptingKeeps(p, h); assert q == Adopt(p, h);
    case Pinging(n) => PingingKeeps(p, n);
    case Emitting => EmittingKeeps(p);
    case FlushingOwed(id) => FlushingOwedKeeps(p, id); assert q == FlushOwed(p, id);
    case Taking(h) => TakingKeeps(p, h, TakeCommand(p, h)); assert q == TakeCommand(p, h);
    case Reaping(h) => ReapingKeeps(p, h); SentUntouched(p, s);
    case Receiving(f) => ReceivingKeeps(p, f); SentUntouched(p, s);
    case Closing(order) => ClosingKeeps(p, order); SentUntouched(p, s);
    case DrainingOne(h) => TakingKeeps(p, h, DrainCommand(p, h)); assert q == DrainCommand(p, h);
    case DrainDone => FinishingKeeps(p); assert q == FinishDrain(p);
    case FlushingOne => FinishingKeeps(p);
  }

  lemma SentUntouched(p: Peer, s: Step)
    requires Enabled(p, s)
    requires s.Writing? || s.Reading? || s.Shutting? || s.Reaping? || s.Receiving? || s.Closing?
    ensures Apply(p, s).peer == Act(p, s).peer
  {
  }

  ghost predicate Run(p: Peer, steps: seq<Step>, q: Peer)
    decreases |steps|
  {
    if steps == [] then p == q
    else Enabled(p, steps[0]) && Run(Apply(p, steps[0]).peer, steps[1..], q)
  }

  lemma {:induction false} RunKeeps(p: Peer, steps: seq<Step>, q: Peer)
    requires Inv(p) && Run(p, steps, q)
    ensures Inv(q)
    decreases |steps|
  {
    hide Inv, Enabled, Apply;
    if steps != [] {
      StepKeeps(p, steps[0]);
      RunKeeps(Apply(p, steps[0]).peer, steps[1..], q);
    }
  }

  lemma NewPeerOk(cfg: Config)
    requires ConfigOk(cfg)
    ensures Inv(NewPeer(cfg))
  {
  }

  /** A peer state that some run from a fresh, validly configured peer reaches. */
  ghost predicate Reached(cfg: Config, steps: seq<Step>, p: Peer) { ConfigOk(cfg) && Run(NewPeer(cfg), steps, p) }

  lemma ReachedOk(cfg: Config, steps: seq<Step>, p: Peer)
    requires Reached(cfg, steps, p)
    ensures Inv(p)
  {
    NewPeerOk(cfg);
    RunKeeps(NewPeer(cfg), steps, p);
  }
}
