/** A peer accounts for every byte that it has accepted: what it has sent, what is staged
    and what is queued are, stream by stream, exactly those bytes, in order. Every step
    keeps this, whatever the remote sends. */
module PeerAccounts {
  import opened Frames
  import opened Basics
  import opened StreamModel
  import opened PeerModel
  import opened PeerInvariants
  import opened PeerRuns
  import L = LaneModel
  import opened LaneView
  import opened TwoPeers
  import opened TwoPeersWire
  import opened TwoPeersPaths
  import R = TwoPeersRuns
  import C = PeerClosing

  ghost predicate AllAccounted(p: Peer) { forall id: StreamId :: id != SESSION ==> Accounted(p, id) }

  ghost predicate Accountable(p: Peer) {
    && Inv(p) && Single(p) && WireOk(p) && !ChannelsClosed(p) && !p.drv.phase.Panicked?
    && (p.drv.pendingTerminate.Some? ==> p.drv.pendingTerminate.value == PROTOCOL_ERROR)
    && AllAccounted(p)
  }

  // ----- what moves no byte -----

  /** The same frames wait in the same places, and the same bytes were written. */
  ghost predicate SameFrames(p: Peer, q: Peer) {
    && q.queues.Keys == p.queues.Keys && (forall h :: h in p.queues ==> q.queues[h].cmds == p.queues[h].cmds)
    && q.drv.backlog == p.drv.backlog && q.drv.pendingWrite == p.drv.pendingWrite && q.reg.owed == p.reg.owed
    && q.hist.sent == p.hist.sent && q.hist.written == p.hist.written && (ChannelsClosed(q) <==> ChannelsClosed(p))
  }

  lemma SameFramesAccounted(p: Peer, q: Peer)
    requires SameFrames(p, q) && AllAccounted(p)
    ensures AllAccounted(q)
  {
    hide L.Bytes, Only, CommandFrames;
    forall id: StreamId | id != SESSION ensures Accounted(q, id) {
      assert Accounted(p, id);
      assert QueuedFor(q.queues, id) == QueuedFor(p.queues, id);
      assert Waiting(q, id) == Waiting(p, id);
    }
  }

  /** A frame on its way to the link only changes its place. */
  lemma SamePathsAccounted(p: Peer, q: Peer)
    requires AllAccounted(p) && q.hist.written == p.hist.written
    requires forall id: StreamId :: id != SESSION ==> Path(q.hist.sent, q, id) == Path(p.hist.sent, p, id)
    ensures AllAccounted(q)
  {
    hide L.Bytes, Path;
    forall id: StreamId | id != SESSION ensures Accounted(q, id) {
      assert Accounted(p, id);
    }
  }

  /** One command more in the queue of `h`, with the bytes that were written to it. */
  ghost predicate Grown(p: Peer, q: Peer, h: HandleId, c: Command) {
    && h in p.queues && h == Only0(h.id) && h.id !in p.reg.owed
    && q.queues == p.queues[h := p.queues[h].(cmds := p.queues[h].cmds + [c])]
    && q.drv == p.drv && q.reg.owed == p.reg.owed && q.hist.sent == p.hist.sent
    && Log(q.hist.written, h.id) == Log(p.hist.written, h.id) + L.BodyOf(CommandFrame(c))
    && (forall i :: i != h.id ==> Log(q.hist.written, i) == Log(p.hist.written, i))
  }

  lemma GrownAccounted(p: Peer, q: Peer, h: HandleId, c: Command)
    requires Grown(p, q, h, c) && AllAccounted(p)
    ensures AllAccounted(q)
  {
    hide L.Bytes, Only, CommandFrames, CommandFrame, L.BodyOf, Log;
    forall id: StreamId | id != SESSION ensures Accounted(q, id) {
      assert Accounted(p, id);
      if id == h.id {
        GrownWaiting(p, q, h, c);
        R.BytesConcat(Only(p.hist.sent, id), Waiting(p, id));
        R.BytesConcat(Only(q.hist.sent, id), Waiting(q, id));
        L.Append(Waiting(p, id), CommandFrame(c));
      } else {
        assert Only0(id) != h;
        assert QueuedFor(q.queues, id) == QueuedFor(p.queues, id);
        assert Waiting(q, id) == Waiting(p, id);
      }
    }
  }

  lemma GrownWaiting(p: Peer, q: Peer, h: HandleId, c: Command)
    requires Grown(p, q, h, c)
    ensures Waiting(q, h.id) == Waiting(p, h.id) + [CommandFrame(c)]
  {
    hide CommandFrame, Only, L.BodyOf, Log;
    CommandFramesConcat(p.queues[h].cmds, c);
    hide CommandFrames;
  }

  /** A handle's queue is the first of its id, which has no close frame staged. */
  lemma QueueIsFirst(p: Peer, h: HandleId)
    requires Inv(p) && Single(p) && h in p.queues
    ensures h == Only0(h.id) && h.id != SESSION && h.id !in p.reg.owed
  {
    HandleIdOk(p, h);
    hide Inv;
  }

  // ----- handle calls -----

  lemma WritingAccounted(p: Peer, h: HandleId, data: seq<byte>)
    requires Accountable(p) && h in p.handles && Usable(p, h)
    ensures AllAccounted(PollWrite(p, h, data).peer)
  {
    hide Single, WireOk, AllAccounted, PollActivate, Inv;
    QueueIsFirst(p, h);
    ActivateWire(p, h);
    var act := PollActivate(p, h);
    if act.reply.Parked? {
      SameFramesAccounted(p, act.peer);
    } else {
      SendAccounted(p, act.peer, h, data);
    }
  }

  lemma SendAccounted(p: Peer, m: Peer, h: HandleId, data: seq<byte>)
    requires AllAccounted(p) && h in p.queues && h == Only0(h.id) && h.id !in p.reg.owed && Usable(m, h)
    requires m.queues == p.queues && m.reg.owed == p.reg.owed && m.drv == p.drv && m.hist == p.hist
    ensures AllAccounted(SendData(m, h, data).peer)
  {
    hide AllAccounted;
    var q := SendData(m, h, data).peer;
    if Withheld(m, h) {
      SameFramesAccounted(p, q);
    } else {
      var sh := m.reg.heap[m.handles[h]];
      var k := Portion(m.reg.cfg, sh.send, |data|);
      var body := if 0 <= k <= |data| then data[..k] else [];
      GrownAccounted(p, q, h, SendFrame(DataFrame(h.id, body, sh.synPending)));
    }
  }

  lemma ReadingAccounted(p: Peer, h: HandleId, n: nat, tune: bool)
    requires Accountable(p) && h in p.handles && Usable(p, h)
    ensures AllAccounted(PollRead(p, h, n, tune).peer)
  {
    hide Single, WireOk, AllAccounted, SendWindowUpdate, Inv;
    QueueIsFirst(p, h);
    GrantAccounted(p, h, tune);
    var m := SendWindowUpdate(p, h, tune);
    SameFramesAccounted(m, ReadBuffer(m, h, n, !ChannelsClosed(p) && !QueueFull(p, h)).peer);
  }

  lemma GrantAccounted(p: Peer, h: HandleId, tune: bool)
    requires AllAccounted(p) && Usable(p, h) && h == Only0(h.id) && h.id !in p.reg.owed
    ensures AllAccounted(SendWindowUpdate(p, h, tune)) && Usable(SendWindowUpdate(p, h, tune), h)
  {
    hide AllAccounted, NextGrant;
    var q := SendWindowUpdate(p, h, tune);
    if q == p { return; }
    var g := NextGrant(p.reg.cfg, p.reg.accumulated, p.reg.heap[p.handles[h]], tune).value;
    assert Log(p.hist.written, h.id) + [] == Log(p.hist.written, h.id);
    GrownAccounted(p, q, h, SendFrame(CreditFrame(h.id, g.credit)));
  }

  lemma ShuttingAccounted(p: Peer, h: HandleId)
    requires Accountable(p) && h in p.handles && Usable(p, h)
    ensures AllAccounted(PollClose(p, h).peer)
  {
    hide Single, WireOk, AllAccounted, Inv;
    QueueIsFirst(p, h);
    var q := PollClose(p, h).peer;
    if q.queues == p.queues {
      SameFramesAccounted(p, q);
    } else {
      assert Log(p.hist.written, h.id) + [] == Log(p.hist.written, h.id);
      GrownAccounted(p, q, h, CloseStream(h.id));
    }
  }

  lemma OpeningAccounted(p: Peer, h: HandleId)
    requires Accountable(p) && CanOpen(p, h) && h.k == 0
    ensures AllAccounted(NewStream(p, h))
  {
    OpenIsFirst(p, h);
    hide Inv, Single, WireOk, L.Bytes, Only, AllAccounted, Path;
    var q := NewStream(p, h);
    forall id: StreamId | id != SESSION ensures Path(q.hist.sent, q, id) == Path(p.hist.sent, p, id) { OpenedPath(p, h, id); }
    SamePathsAccounted(p, q);
  }

  lemma OpenedPath(p: Peer, h: HandleId, id: StreamId)
    requires h !in p.queues
    ensures var q := NewStream(p, h); q.hist.sent == p.hist.sent && Path(q.hist.sent, q, id) == Path(p.hist.sent, p, id)
  {
    hide Attach, Only, CommandFrames;
    var q := NewStream(p, h);
    AttachOwed(p.reg, h.id, if RefOf(p.reg, h.id).Some? then RefOf(p.reg, h.id).value else p.reg.nextRef);
    assert QueuedFor(q.queues, id) == QueuedFor(p.queues, id) by { NoCommands(); }
    assert Waiting(q, id) == Waiting(p, id);
  }

  lemma NoCommands()
    ensures CommandFrames([]) == []
  {
  }

  // ----- driver actions -----

  lemma PingingAccounted(p: Peer, n: int)
    requires Accountable(p)
    ensures var q := p.(drv := p.drv.(awaitingPong := Some(n)), hist := p.hist.(sent := p.hist.sent + [PingFrame(n)]));
            AllAccounted(q)
  {
    hide Inv, Single, WireOk, L.Bytes, Only;
    var q := p.(drv := p.drv.(awaitingPong := Some(n)), hist := p.hist.(sent := p.hist.sent + [PingFrame(n)]));
    forall id: StreamId | id != SESSION ensures Path(q.hist.sent, q, id) == Path(p.hist.sent, p, id) {
      PingPath(p, p.hist.sent, n, id);
      assert Waiting(q, id) == Waiting(p, id);
    }
    SamePathsAccounted(p, q);
  }

  lemma EmittingAccounted(p: Peer)
    requires Accountable(p) && Emit(p).frame.Some?
    ensures AllAccounted(PeerRuns.Noted(Emit(p)))
  {
    NothingBacklogged(p);
    hide Inv, Single, WireOk, L.Bytes, Path, Emit;
    var q := PeerRuns.Noted(Emit(p));
    forall id: StreamId | id != SESSION ensures Path(q.hist.sent, q, id) == Path(p.hist.sent, p, id) {
      EmitPath(p, p.hist.sent, id);
    }
    EmitWrites(p);
    SamePathsAccounted(p, q);
  }

  lemma EmitWrites(p: Peer)
    ensures var q := PeerRuns.Noted(Emit(p));
            q.hist.written == p.hist.written && q.hist.sent == p.hist.sent + OptFrame(Emit(p).frame)
  {
  }

  lemma NothingBacklogged(p: Peer)
    requires Inv(p) && !ChannelsClosed(p)
    ensures p.drv.backlog == [] && |p.reg.owed| <= 1 && PROTOCOL_ERROR.header.id == SESSION
  {
    R.NoBacklog(p);
    R.AtMostOneOwed(p);
  }

  lemma FlushingAccounted(p: Peer, id: StreamId)
    requires Accountable(p) && id in p.reg.owed && p.drv.pendingWrite.None?
    ensures AllAccounted(FlushOwed(p, id))
  {
    hide Inv, WireOk, L.Bytes, Path, Single;
    var q := FlushOwed(p, id);
    forall i: StreamId | i != SESSION ensures Path(q.hist.sent, q, i) == Path(p.hist.sent, p, i) { OwedPath(p, p.hist.sent, id, i); }
    SamePathsAccounted(p, q);
  }

  lemma TakingAccounted(p: Peer, h: HandleId)
    requires Accountable(p) && OutboundIdle(p) && h in p.queues && |p.queues[h].cmds| > 0
    ensures AllAccounted(TakeCommand(p, h))
  {
    QueueIsFirst(p, h);
    hide Inv, WireOk, L.Bytes, Path, Single;
    var q := TakeCommand(p, h);
    forall i: StreamId | i != SESSION ensures Path(q.hist.sent, q, i) == Path(p.hist.sent, p, i) { TakePath(p, p.hist.sent, h, i); }
    SamePathsAccounted(p, q);
  }

  /** An empty queue goes, and perhaps a close frame is staged: it carries no byte. */
  lemma ReapingAccounted(p: Peer, h: HandleId)
    requires Accountable(p) && Enabled(p, Reaping(h))
    ensures AllAccounted(OnDropStream(p, h))
  {
    hide Inv, WireOk, Single, L.Bytes, Only, CommandFrames, ReapActive, ReapInactive;
    var q := OnDropStream(p, h);
    forall i: StreamId | i != SESSION ensures Accounted(q, i) {
      assert Accounted(p, i);
      ReapStagesNothing(p, h, i);
      assert QueuedFor(q.queues, i) == QueuedFor(p.queues, i) by { EmptyQueue(p, h, i); }
      var front := Only(p.hist.sent, i) + (Only(p.drv.backlog, i) + Only(OptFrame(p.drv.pendingWrite), i) + QueuedFor(p.queues, i));
      assert Path(p.hist.sent, p, i) == front + OwedFor(p, i);
      assert Path(q.hist.sent, q, i) == front + OwedFor(q, i);
      R.BytesConcat(front, OwedFor(p, i));
      R.BytesConcat(front, OwedFor(q, i));
    }
  }

  lemma EmptyQueue(p: Peer, h: HandleId, i: StreamId)
    requires h in p.queues && p.queues[h].cmds == []
    ensures QueuedFor(p.queues - {h}, i) == QueuedFor(p.queues, i)
  {
  }

  lemma StagedIsEmpty(reg: Registry, id: StreamId, i: StreamId)
    requires id in reg.streams && reg.streams[id] in reg.heap && reg.owed == map[]
    ensures i in ReapActive(reg, id).owed ==> ReapActive(reg, id).owed[i].body == []
  {
  }

  lemma ReapStagesNothing(p: Peer, h: HandleId, i: StreamId)
    requires Enabled(p, Reaping(h))
    ensures var q := OnDropStream(p, h);
            && q.queues == p.queues - {h} && q.drv == p.drv && q.hist.sent == p.hist.sent && q.hist.written == p.hist.written
            && L.Bytes(OwedFor(q, i)) == L.Bytes(OwedFor(p, i)) == []
  {
    hide ReapActive;
    var q := OnDropStream(p, h);
    if h.id in p.reg.streams { StagedIsEmpty(p.reg, h.id, i); }
    if i in q.reg.owed {
      assert q.reg.owed[i].body == [];
      assert OwedFor(q, i) == [] || OwedFor(q, i)[1..] == [];
    }
  }

  lemma ReceivingAccounted(p: Peer, f: Frame)
    requires Accountable(p) && Enabled(p, Receiving(f))
    ensures AllAccounted(Receive(p, f))
  {
    hide Inv, Single, WireOk, AllAccounted, OnFrame;
    FrameKeepsOwed(p, f);
    SameFramesAccounted(p, Receive(p, f));
  }

  // ----- every step -----

  /** What waits stays well formed, whatever frame arrives. */
  lemma AnyFrameWire(p: Peer, f: Frame)
    requires Accountable(p) && Enabled(p, Receiving(f))
    ensures var q := Receive(p, f);
            && Single(q) && WireOk(q) && !ChannelsClosed(q)
            && (q.drv.pendingTerminate.Some? ==> q.drv.pendingTerminate.value == PROTOCOL_ERROR)
  {
    hide Inv, Single, WireOk, AllAccounted;
    FrameKeepsOwed(p, f);
    var q := Receive(p, f);
    var m := p.(reg := q.reg);
    IdleReapedWire(p, m);
    AnyReaction(m, q, OnFrame(p, f).action, f);
  }

  lemma AnyReaction(m: Peer, q: Peer, a: Action, f: Frame)
    requires Single(m) && WireOk(m) && q == m.(drv := React(m.drv, a)) && m.drv.phase.Active? && WellFormed(f)
    requires a.Pong? ==> a.nonce == f.header.length
    requires m.drv.pendingTerminate.Some? ==> m.drv.pendingTerminate.value == PROTOCOL_ERROR
    ensures Single(q) && WireOk(q) && !ChannelsClosed(q)
    ensures q.drv.pendingTerminate.Some? ==> q.drv.pendingTerminate.value == PROTOCOL_ERROR
  {
    hide StreamFrame, Sound;
  }

  lemma AnyEmissionWire(p: Peer)
    requires Single(p) && WireOk(p) && (p.drv.pendingTerminate.Some? ==> p.drv.pendingTerminate.value == PROTOCOL_ERROR)
    ensures var q := PeerRuns.Noted(Emit(p));
            && Single(q) && WireOk(q) && q.drv.phase == p.drv.phase
            && (q.drv.pendingTerminate.Some? ==> q.drv.pendingTerminate.value == PROTOCOL_ERROR)
            && (Emit(p).frame.Some? ==> WellFormed(Emit(p).frame.value))
  {
    hide AllSound;
  }

  /** The steps of a peer that has not closed, each id opened at most once. */
  predicate Ordinary(s: Step) { !s.Closing? && (s.Opening? ==> s.h.k == 0) }

  /** What a step keeps besides the account. */
  ghost predicate Orderly(p: Peer) {
    && Single(p) && WireOk(p) && !ChannelsClosed(p)
    && (p.drv.pendingTerminate.Some? ==> p.drv.pendingTerminate.value == PROTOCOL_ERROR)
  }

  lemma CallOrderly(p: Peer, s: Step)
    requires Accountable(p) && Enabled(p, s) && Ordinary(s) && (s.Opening? || s.Writing? || s.Reading? || s.Shutting?)
    ensures Orderly(Act(p, s).peer) && AllAccounted(Act(p, s).peer)
  {
    hide Inv, Single, WireOk, AllAccounted, PollRead, PollWrite, PollClose;
    match s
    case Opening(h) => OpeningWire(p, h); OpeningAccounted(p, h); hide NewStream; OpeningDriver(p, h);
    case Writing(h, data) => WritingWire(p, h, data); WritingAccounted(p, h, data); C.WriteKeepsDriver(p, h, data);
    case Reading(h, n, tune) => ReadingWire(p, h, n, tune); ReadingAccounted(p, h, n, tune); C.ReadKeepsDriver(p, h, n, tune);
    case Shutting(h) => ShuttingWire(p, h); ShuttingAccounted(p, h); C.CloseKeepsDriver(p, h);
  }

  lemma OpeningDriver(p: Peer, h: HandleId)
    ensures NewStream(p, h).drv == p.drv && NewStream(p, h).hist.sent == p.hist.sent
  {
  }

  lemma HandleOrderly(p: Peer, s: Step)
    requires Accountable(p) && Enabled(p, s) && (s.Releasing? || s.HangingUp? || s.Adopting?)
    ensures Orderly(Act(p, s).peer) && AllAccounted(Act(p, s).peer)
  {
    hide Inv, Single, WireOk, AllAccounted;
    var q := Act(p, s).peer;
    SameFramesAccounted(p, q);
    match s
    case Releasing(h) => ReleaseWire(p, h);
    case HangingUp(h) => RequeueWire(p, q, h);
    case Adopting(h) => RequeueWire(p, q, h);
  }

  lemma DriverOrderly(p: Peer, s: Step)
    requires Accountable(p) && Enabled(p, s) && (s.FlushingOwed? || s.Taking? || s.Reaping? || s.Receiving?)
    ensures Orderly(Act(p, s).peer) && AllAccounted(Act(p, s).peer)
  {
    hide Inv, Single, WireOk, AllAccounted, OnDropStream, Receive;
    match s
    case FlushingOwed(id) => OwedWire(p, id); FlushingAccounted(p, id);
    case Taking(h) => TakingWire(p, h); TakingAccounted(p, h);
    case Reaping(h) => ReapingWire(p, h); ReapingAccounted(p, h); ReapStagesNothing(p, h, 0);
    case Receiving(f) => AnyFrameWire(p, f); ReceivingAccounted(p, f);
  }

  lemma SendingOrderly(p: Peer, s: Step)
    requires Accountable(p) && Enabled(p, s) && (s.Pinging? || s.Emitting?)
    ensures Orderly(Apply(p, s).peer) && AllAccounted(Apply(p, s).peer)
    ensures Apply(p, s).frame.Some? && WellFormed(Apply(p, s).frame.value)
  {
    hide Inv, AllAccounted, Single;
    if s.Pinging? {
      PingingAccounted(p, s.nonce);
      PingSingle(p, s.nonce);
    } else {
      AnyEmissionWire(p);
      EmittingAccounted(p);
    }
  }

  lemma PingSingle(p: Peer, n: int)
    requires Single(p)
    ensures Single(p.(drv := p.drv.(awaitingPong := Some(n)), hist := p.hist.(sent := p.hist.sent + [PingFrame(n)])))
  {
  }

  /** Every step of a peer that has not closed keeps its account, unless it panics. */
  lemma StepAccountable(p: Peer, s: Step)
    requires Accountable(p) && Enabled(p, s) && Ordinary(s) && !Apply(p, s).peer.drv.phase.Panicked?
    ensures Accountable(Apply(p, s).peer)
  {
    hide Inv, Single, WireOk, AllAccounted, Orderly;
    PeerRuns.StepKeeps(p, s);
    if s.Pinging? || s.Emitting? {
      SendingOrderly(p, s);
    } else {
      SendsNothing(p, s);
      if s.Opening? || s.Writing? || s.Reading? || s.Shutting? {
        CallOrderly(p, s);
      } else if s.Releasing? || s.HangingUp? || s.Adopting? {
        HandleOrderly(p, s);
      } else {
        DriverOrderly(p, s);
      }
    }
    hide Apply, Act;
    OrderlyMeans(Apply(p, s).peer);
  }

  lemma OrderlyMeans(p: Peer)
    requires Inv(p) && Orderly(p) && AllAccounted(p) && !p.drv.phase.Panicked?
    ensures Accountable(p)
  {
    hide Inv, Single, WireOk, AllAccounted;
  }

  lemma SendsNothing(p: Peer, s: Step)
    requires Enabled(p, s) && !ChannelsClosed(p) && !s.Closing? && !s.Pinging? && !s.Emitting?
    ensures Apply(p, s).peer == Act(p, s).peer
  {
    hide PollWrite, PollRead, PollClose, NewStream, OnDropStream, Receive;
    var e := Act(p, s);
    assert e.peer.hist.sent + [] == e.peer.hist.sent;
  }

  /** So does every run. */
  lemma {:induction false} RunAccountable(p: Peer, steps: seq<Step>, q: Peer)
    requires Accountable(p) && PeerRuns.Run(p, steps, q) && !q.drv.phase.Panicked?
    requires forall i :: 0 <= i < |steps| ==> Ordinary(steps[i])
    ensures Accountable(q)
    decreases |steps|
  {
    hide Enabled, Apply, Accountable;
    if steps != [] {
      var next := Apply(p, steps[0]).peer;
      if next.drv.phase.Panicked? {
        PanicIsLast(next, steps[1..], q);
      } else {
        StepAccountable(p, steps[0]);
        RunAccountable(next, steps[1..], q);
      }
    }
  }

  lemma PanicIsLast(p: Peer, steps: seq<Step>, q: Peer)
    requires p.drv.phase.Panicked? && PeerRuns.Run(p, steps, q)
    ensures q == p
  {
  }
}
