/** What the invariants mean for the users of one connection, in every state that
    some run reaches: slots, window budget, parked tasks and reaping. */
module PeerTheorems {
  import opened Frames
  import opened Basics
  import opened StreamModel
  import opened PeerModel
  import opened PeerInvariants
  import opened PeerRuns

  /** Active streams and owed closes together never exceed the limit, although
      peer-driven creation only looks at the streams. */
  lemma SlotsNeverExceeded(cfg: Config, steps: seq<Step>, p: Peer)
    requires Reached(cfg, steps, p)
    ensures |p.reg.streams| + |p.reg.owed| <= p.reg.cfg.maxStreams
    ensures |p.reg.owed| <= 1 && (p.reg.owed != map[] ==> p.drv.pendingWrite.None?)
    ensures forall id :: id in p.reg.streams ==> id !in p.reg.inactive
  {
    ReachedOk(cfg, steps, p);
    hide RecordsOk, HandlesOk, NoLeak, WaitersInactive, BudgetOk, FinsTold, Reached;
  }

  /** Every registered record is held by a live handle, or will be reaped when an
      end of queue is reported, or was opened by the peer and never claimed. */
  lemma NoSlotLeaks(cfg: Config, steps: seq<Step>, p: Peer, id: StreamId)
    requires Reached(cfg, steps, p) && RefOf(p.reg, id).Some?
    ensures var r := RefOf(p.reg, id).value;
            && r in p.reg.heap
            && (|| HeldByHandle(p.handles, r)
                || (exists h :: h in p.queues && h.id == id && h !in p.handles)
                || (id in p.reg.streams && !p.reg.heap[r].claimed))
  {
    ReachedOk(cfg, steps, p);
    hide Reached, Inv;
    if id in p.reg.streams { StreamRecord(p, id); } else { InactiveRecord(p, id); }
    if p.reg.heap[RefOf(p.reg, id).value].claimed { ClaimedHasNotice(p, id, RefOf(p.reg, id).value); }
  }

  lemma ClaimedHasNotice(p: Peer, id: StreamId, r: Ref)
    requires Inv(p) && r in p.reg.heap && p.reg.heap[r].claimed && p.reg.heap[r].owner == id
    ensures HeldByHandle(p.handles, r) || exists h :: h in p.queues && h.id == id && h !in p.handles
  {
    hide RecordsOk, StreamsOk, InactiveOk, SlotsOk, WaitersInactive, WaitersOpened, BudgetOk, FinsTold;
    assert NoticeDue(p.queues, id);
    var h :| h in p.queues && h.id == id;
    if h in p.handles {
      SameIdSameRecord(p, h, r);
    }
  }

  lemma SameIdSameRecord(p: Peer, h: HandleId, r: Ref)
    requires Inv(p) && h in p.handles && r in p.reg.heap && p.reg.heap[r].owner == h.id
    ensures p.handles[h] == r
  {
    hide RecordsOk, InactiveOk, SlotsOk, WaitersInactive, WaitersOpened, BudgetOk, FinsTold, NoLeak, QueuesOk;
    assert RegisteredAs(p.reg, h.id, r) && RegisteredAs(p.reg, h.id, p.handles[h]);
  }

  lemma HandlesHoldTheRegisteredRecord(cfg: Config, steps: seq<Step>, p: Peer, h: HandleId)
    requires Reached(cfg, steps, p) && h in p.handles
    ensures RefOf(p.reg, h.id) == Some(p.handles[h]) && p.handles[h] in p.reg.heap
    ensures p.reg.heap[p.handles[h]].activated <==> h.id in p.reg.streams
  {
    ReachedOk(cfg, steps, p);
    hide RecordsOk, QueuesOk, NoLeak, SlotsOk, WaitersInactive, BudgetOk, FinsTold, Reached;
    assert RegisteredAs(p.reg, h.id, p.handles[h]);
  }

  // ----- the window budget -----

  lemma {:induction false} BufferedWithinWindows(heap: map<Ref, Shared>, n: nat)
    requires RecordsOk(heap)
    ensures Total(heap, n, BufferedActive) <= Total(heap, n, One) * DEFAULT_CREDIT + Total(heap, n, Excess)
  {
    if n > 0 { BufferedWithinWindows(heap, n - 1); }
  }

  /** All the bytes that the active streams buffer fit the connection's window. */
  lemma BufferedWithinConnectionWindow(cfg: Config, steps: seq<Step>, p: Peer)
    requires Reached(cfg, steps, p)
    ensures p.reg.accumulated == Total(p.reg.heap, p.reg.nextRef, Excess) <= Spare(p.reg.cfg)
    ensures var buffered := Total(p.reg.heap, p.reg.nextRef, BufferedActive);
            && buffered <= p.reg.cfg.maxStreams * DEFAULT_CREDIT + Spare(p.reg.cfg)
            && (p.reg.cfg.maxStreams * DEFAULT_CREDIT <= Window(p.reg.cfg) ==> buffered <= Window(p.reg.cfg))
  {
    ReachedOk(cfg, steps, p);
    hide Reached;
    TotalsBound(p.reg, p.drv.pendingWrite);
  }

  lemma TotalsBound(reg: Registry, w: Option<Frame>)
    requires RecordsOk(reg.heap) && BudgetOk(reg) && SlotsOk(reg, w)
    ensures reg.accumulated == Total(reg.heap, reg.nextRef, Excess) <= Spare(reg.cfg)
    ensures var buffered := Total(reg.heap, reg.nextRef, BufferedActive);
            && buffered <= reg.cfg.maxStreams * DEFAULT_CREDIT + Spare(reg.cfg)
            && (reg.cfg.maxStreams * DEFAULT_CREDIT <= Window(reg.cfg) ==> buffered <= Window(reg.cfg))
  {
    BufferedWithinWindows(reg.heap, reg.nextRef);
    hide RecordsOk, Total;
  }

  /** Each stream's credit and buffered bytes fit its own window, a u32. */
  lemma WindowsWithinBounds(cfg: Config, steps: seq<Step>, p: Peer, r: Ref)
    requires Reached(cfg, steps, p) && r in p.reg.heap
    ensures WindowsOk(p.reg.heap[r]) && Halves(p.reg.heap[r].state) == ClosedBy(p.reg.heap[r].events)
  {
    ReachedOk(cfg, steps, p);
    hide HandlesOk, RegistryOk, NoLeak, WaitersInactive, FinsTold, Reached, QueuesOk, SlotsOk, BudgetOk, ParkedOk;
  }

  // ----- parked tasks -----

  /** A task that waits for a slot waits because none is free, for a stream that
      is still inactive; a parked writer has no credit; a parked reader that asked
      for bytes has none buffered, may still get some, and has granted more than
      half of its window if its command queue let it. */
  lemma ParkedTasksHaveReasons(cfg: Config, steps: seq<Step>, p: Peer, h: HandleId)
    requires Reached(cfg, steps, p) && h in p.handles && p.handles[h] in p.reg.heap
    ensures var sh := p.reg.heap[p.handles[h]];
            && (h in p.reg.slotWaiters ==> ActiveSlots(p.reg) == p.reg.cfg.maxStreams && !sh.activated)
            && (sh.writer ==> sh.send == 0 && RemoteRst !in sh.events)
            && (sh.reader && !sh.readNothing ==> sh.buffer == [] && CanRead(sh.state))
            && (sh.reader && !sh.readNothing && sh.readRoom ==> sh.recv > sh.maxRecv / 2)
  {
    ReachedOk(cfg, steps, p);
    hide HandlesOk, RegistryOk, NoLeak, FinsTold, Reached, QueuesOk, StateOk, BudgetOk;
  }

  /** A read parks while bytes are buffered exactly when it asked for none. */
  lemma ReadParksOnDataOnlyIfEmpty(p: Peer, h: HandleId, n: nat, tune: bool)
    requires Inv(p) && h in p.handles && Usable(p, h) && p.reg.heap[p.handles[h]].buffer != []
    requires CanRead(p.reg.heap[p.handles[h]].state) && !ChannelsClosed(p)
    ensures PollRead(p, h, n, tune).reply == Parked <==> n == 0
  {
    GrantingKeeps(p, h, tune);
    hide Inv, SendWindowUpdate;
  }

  // ----- reaping -----

  /** The reap of `h` takes the stream `id` off the registry. */
  ghost predicate Reaps(p: Peer, h: HandleId) {
    && Enabled(p, Reaping(h)) && h.id in p.reg.streams && h.id !in Apply(p, Reaping(h)).peer.reg.streams
  }

  lemma ReapsTheRecord(p: Peer, h: HandleId)
    requires Inv(p) && Reaps(p, h)
    ensures var q := Apply(p, Reaping(h)).peer;
            && !HeldByHandle(p.handles, p.reg.streams[h.id])
            && q.reg == ReapActive(p.reg, h.id)
            && KeepsFrames(p, q)
  {
    hide RecordsOk, RegistryOk, HandlesOk, NoLeak, SlotsOk, WaitersInactive, WaitersOpened, BudgetOk, FinsTold, QueuesOk, HeldByHandle, Inv, ReapActive;
    SentUntouched(p, Reaping(h));
    var m := p.(reg := ReapActive(p.reg, h.id), hist := p.hist.(reaped := p.hist.reaped + {h.id}));
    ReapActiveFrames(p, h.id, m);
    DropQueueKeepsFrames(m, h);
  }

  /** Reaping owes the remote a close frame exactly when nothing has closed the
      sending half before. */
  lemma ReapOwesCloseIff(p: Peer, h: HandleId)
    requires Inv(p) && Reaps(p, h)
    ensures var events := p.reg.heap[p.reg.streams[h.id]].events;
            h.id in Apply(p, Reaping(h)).peer.reg.owed <==>
              LocalFin !in events && InactiveClose !in events && RemoteRst !in events
  {
    hide Inv, Enabled, Apply, KeepsFrames, HeldByHandle, ReapActive;
    ReapsTheRecord(p, h);
    StreamRecord(p, h.id);
    ReapStartsIdle(p, h);
    ReapStages(p.reg, h.id);
    CloseOwedIff(h.id, p.reg.heap[p.reg.streams[h.id]]);
  }

  /** The close that is owed is a FIN if the remote had finished sending, and a reset if
      it had not. */
  lemma ReapOwesKind(p: Peer, h: HandleId)
    requires Inv(p) && Reaps(p, h) && h.id in Apply(p, Reaping(h)).peer.reg.owed
    ensures var events := p.reg.heap[p.reg.streams[h.id]].events;
            Apply(p, Reaping(h)).peer.reg.owed[h.id] ==
              if RemoteFin in events || LeftActive in events then FinFrame(h.id) else RstFrame(h.id)
  {
    hide Inv, Enabled, Apply, KeepsFrames, HeldByHandle;
    ReapsTheRecord(p, h);
    ReapOwesCloseIff(p, h);
    StreamRecord(p, h.id);
    ReapStartsIdle(p, h);
  }

  lemma ReapStartsIdle(p: Peer, h: HandleId)
    requires Enabled(p, Reaping(h))
    ensures p.reg.owed == map[]
  {
  }

  lemma ReapStages(reg: Registry, id: StreamId)
    requires id in reg.streams && reg.streams[id] in reg.heap && reg.owed == map[]
    ensures id in ReapActive(reg, id).owed <==> CloseOwed(id, reg.heap[reg.streams[id]].state).Some?
  {
  }

  lemma CloseOwedIff(id: StreamId, sh: Shared)
    requires StateOk(sh)
    ensures CloseOwed(id, sh.state).Some? <==> LocalFin !in sh.events && InactiveClose !in sh.events && RemoteRst !in sh.events
  {
  }

  /** No event has closed the sending half: the reap owes the remote a close. */
  predicate SendingOpen(events: set<Event>) { LocalFin !in events && InactiveClose !in events && RemoteRst !in events }

  /** When a reap is silent. A FIN or RST for the stream has been sent, is queued or is
      owed after it if and only if one was before, or nothing had closed the sending
      half. So the remote is told of every stream that was closed while active, and of
      every one that was neither closed while inactive nor reset; of any other it is
      told no more by the reap than it was before. */
  lemma NoSilentReap(cfg: Config, steps: seq<Step>, p: Peer, h: HandleId)
    requires Reached(cfg, steps, p) && Reaps(p, h)
    ensures var events := p.reg.heap[p.reg.streams[h.id]].events;
            var q := Apply(p, Reaping(h)).peer;
            && (Told(q, h.id) <==> Told(p, h.id) || SendingOpen(events))
            && (LocalFin in events || (InactiveClose !in events && RemoteRst !in events) ==> Told(q, h.id))
  {
    ReachedOk(cfg, steps, p);
    ReapsTheRecord(p, h);
    ReapOwesCloseIff(p, h);
    var q := Apply(p, Reaping(h)).peer;
    var r := p.reg.streams[h.id];
    StreamRecord(p, h.id);
    ToldStays(p, q);
    if LocalFin in p.reg.heap[r].events { FinWasTold(p, r); }
    if SendingOpen(p.reg.heap[r].events) {
      OwedTells(p, h);
    } else {
      SilentReap(p, h);
    }
    hide Inv, Enabled, Apply, Reaps, Reached, KeepsFrames, HeldByHandle, Told;
  }

  lemma OwedTells(p: Peer, h: HandleId)
    requires Inv(p) && Reaps(p, h) && h.id in Apply(p, Reaping(h)).peer.reg.owed
    ensures Told(Apply(p, Reaping(h)).peer, h.id)
  {
    ReapsTheRecord(p, h);
    StreamRecord(p, h.id);
    ReapStartsIdle(p, h);
    hide Inv, Enabled, Apply, Reaps, KeepsFrames, HeldByHandle;
    var q := Apply(p, Reaping(h)).peer;
    assert IsClose(q.reg.owed[h.id], h.id);
    assert Outbound(q, q.reg.owed[h.id]);
  }

  /** A reap that owes nothing adds no frame to those on their way. */
  lemma SilentReap(p: Peer, h: HandleId)
    requires Inv(p) && Reaps(p, h) && h.id !in Apply(p, Reaping(h)).peer.reg.owed
    ensures Told(Apply(p, Reaping(h)).peer, h.id) ==> Told(p, h.id)
  {
    hide Inv, KeepsFrames, HeldByHandle;
    SentUntouched(p, Reaping(h));
    var q := Apply(p, Reaping(h)).peer;
    forall f | Outbound(q, f) ensures Outbound(p, f) {
      assert Queued(q.queues, f) ==> Queued(p.queues, f);
    }
  }

  lemma FinWasTold(p: Peer, r: Ref)
    requires Inv(p) && r in p.reg.heap && LocalFin in p.reg.heap[r].events
    ensures Told(p, p.reg.heap[r].owner)
  {
    hide RecordsOk, RegistryOk, HandlesOk, NoLeak, SlotsOk, WaitersInactive, WaitersOpened, BudgetOk, QueuesOk, Told;
  }

  // ----- the silent reap that closing too early allows -----

  const EARLY := HandleId(7, 0)

  const EARLY_SYN := DataFrame(7, [1], true)

  /** Open, close while inactive, let the remote open the stream, drop the handle. */
  const EARLY_CLOSE: seq<Step> :=
    [Opening(EARLY), Shutting(EARLY), Receiving(EARLY_SYN), Adopting(EARLY), Releasing(EARLY), HangingUp(EARLY)]

  function EarlyShared(): Shared {
    Shared(SendClosed, DEFAULT_CREDIT - 1, DEFAULT_CREDIT, DEFAULT_CREDIT, [1], false, false, true, false, 7,
           false, false, true, {InactiveClose})
  }

  function EarlyPeer(cfg: Config, handles: map<HandleId, Ref>, adopted: bool, alive: bool): Peer {
    Peer(Registry(cfg, map[0 := EarlyShared()], 1, map[7 := 0], map[], map[], {}, 0), handles,
         map[EARLY := Queue([], adopted, alive)],
         Driver(Active, None, None, None, false, None, []), History([], {EARLY}, {7}, {}, map[], map[]))
  }

  lemma EarlyOpening(cfg: Config) returns (p: Peer)
    requires ConfigOk(cfg)
    ensures Enabled(NewPeer(cfg), EARLY_CLOSE[0]) && p == Apply(NewPeer(cfg), EARLY_CLOSE[0]).peer
    ensures p == Peer(Registry(cfg, map[0 := Fresh(7).(claimed := true)], 1, map[], map[7 := 0], map[], {}, 0),
                      map[EARLY := 0], map[EARLY := Queue([], false, true)],
                      Driver(Active, None, None, None, false, None, []), History([], {EARLY}, {}, {}, map[], map[]))
  {
    p := Apply(NewPeer(cfg), Opening(EARLY)).peer;
  }

  lemma EarlyShutting(cfg: Config, p: Peer) returns (q: Peer)
    requires p == Peer(Registry(cfg, map[0 := Fresh(7).(claimed := true)], 1, map[], map[7 := 0], map[], {}, 0),
                       map[EARLY := 0], map[EARLY := Queue([], false, true)],
                       Driver(Active, None, None, None, false, None, []), History([], {EARLY}, {}, {}, map[], map[]))
    requires 1 <= cfg.maxStreams
    ensures Enabled(p, Shutting(EARLY)) && q == Apply(p, Shutting(EARLY)).peer
    ensures Enabled(q, Receiving(EARLY_SYN)) && Apply(q, Receiving(EARLY_SYN)).peer == EarlyPeer(cfg, map[EARLY := 0], false, true)
  {
    q := Apply(p, Shutting(EARLY)).peer;
    var before := Fresh(7).(claimed := true);
    assert p.reg.heap[0] == before && !before.activated && !before.state.Closed?;
    assert Mark(before, InactiveClose) == EarlyShut() by { assert {} + {InactiveClose} == {InactiveClose}; }
    assert q.reg == Registry(cfg, map[0 := EarlyShut()], 1, map[], map[7 := 0], map[], {}, 0);
    EarlyArrival(cfg, q);
  }

  function EarlyShut(): Shared { Fresh(7).(claimed := true, state := SendClosed, events := {InactiveClose}) }

  lemma EarlyArrival(cfg: Config, q: Peer)
    requires 1 <= cfg.maxStreams
    requires q.reg == Registry(cfg, map[0 := EarlyShut()], 1, map[], map[7 := 0], map[], {}, 0)
    requires q == EarlyPeer(cfg, map[EARLY := 0], false, true).(reg := q.reg)
    ensures Enabled(q, Receiving(EARLY_SYN)) && Apply(q, Receiving(EARLY_SYN)).peer == EarlyPeer(cfg, map[EARLY := 0], false, true)
  {
    var a := Admit(q.reg, 7);
    assert a.heap[0] == EarlyShut().(activated := true) && a.streams == map[7 := 0] && a.inactive == map[];
    assert Received(a.heap[0], EARLY_SYN) == EarlyShared();
    assert OnFrame(q, EARLY_SYN).reg.heap == map[0 := EarlyShared()];
  }

  /** A run that reaps an activated stream without ever telling the remote: it was
      closed while inactive, and never again. */
  lemma SilentReapAfterEarlyClose(cfg: Config) returns (p: Peer)
    requires ConfigOk(cfg)
    ensures Reached(cfg, EARLY_CLOSE, p) && Reaps(p, EARLY) && p.reg.heap[p.reg.streams[7]].activated
    ensures !Told(Apply(p, Reaping(EARLY)).peer, 7)
  {
    hide Enabled, Apply, EarlyPeer, Reaps, Told, Run;
    var p1 := EarlyOpening(cfg);
    var p2 := EarlyShutting(cfg, p1);
    var p3 := EarlyPeer(cfg, map[EARLY := 0], false, true);
    var p4 := EarlyPeer(cfg, map[EARLY := 0], true, true);
    var p5 := EarlyPeer(cfg, map[], true, true);
    p := EarlyPeer(cfg, map[], true, false);
    EarlyLettingGo(cfg);
    EarlyReap(cfg);
    EarlyRun(NewPeer(cfg), p1, p2, p3, p4, p5, p);
  }

  lemma EarlyRun(p0: Peer, p1: Peer, p2: Peer, p3: Peer, p4: Peer, p5: Peer, p6: Peer)
    requires Enabled(p0, Opening(EARLY)) && p1 == Apply(p0, Opening(EARLY)).peer
    requires Enabled(p1, Shutting(EARLY)) && p2 == Apply(p1, Shutting(EARLY)).peer
    requires Enabled(p2, Receiving(EARLY_SYN)) && p3 == Apply(p2, Receiving(EARLY_SYN)).peer
    requires Enabled(p3, Adopting(EARLY)) && p4 == Apply(p3, Adopting(EARLY)).peer
    requires Enabled(p4, Releasing(EARLY)) && p5 == Apply(p4, Releasing(EARLY)).peer
    requires Enabled(p5, HangingUp(EARLY)) && p6 == Apply(p5, HangingUp(EARLY)).peer
    ensures Run(p0, EARLY_CLOSE, p6)
  {
    hide Enabled, Apply;
    assert Run(p6, [], p6);
    assert Run(p5, [HangingUp(EARLY)], p6);
    assert Run(p4, [Releasing(EARLY), HangingUp(EARLY)], p6);
    assert Run(p3, [Adopting(EARLY), Releasing(EARLY), HangingUp(EARLY)], p6);
    assert Run(p2, [Receiving(EARLY_SYN), Adopting(EARLY), Releasing(EARLY), HangingUp(EARLY)], p6);
    assert Run(p1, EARLY_CLOSE[1..], p6);
  }

  lemma EarlyLettingGo(cfg: Config)
    ensures var p3 := EarlyPeer(cfg, map[EARLY := 0], false, true);
            var p4 := EarlyPeer(cfg, map[EARLY := 0], true, true);
            var p5 := EarlyPeer(cfg, map[], true, true);
            && Enabled(p3, Adopting(EARLY)) && Apply(p3, Adopting(EARLY)).peer == p4
            && Enabled(p4, Releasing(EARLY)) && Apply(p4, Releasing(EARLY)).peer == p5
            && Enabled(p5, HangingUp(EARLY)) && Apply(p5, HangingUp(EARLY)).peer == EarlyPeer(cfg, map[], true, false)
  {
  }

  lemma EarlyReap(cfg: Config)
    ensures var p := EarlyPeer(cfg, map[], true, false);
            && Enabled(p, Reaping(EARLY)) && Reaps(p, EARLY) && p.reg.heap[p.reg.streams[7]].activated
            && !Told(Apply(p, Reaping(EARLY)).peer, 7)
  {
  }
}
