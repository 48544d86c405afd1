/** Every run of two connected peers, as long as neither decides to terminate, keeps
    the invariant of the whole system; and only a full stream table makes a peer
    terminate. */
module TwoPeersSafety {
  import opened Frames
  import opened Basics
  import opened StreamModel
  import opened PeerModel
  import opened PeerInvariants
  import PeerRuns
  import L = LaneModel
  import opened LaneView
  import opened TwoPeers
  import opened TwoPeersWire
  import opened TwoPeersPings
  import opened TwoPeersRuns

  // ----- putting one step together -----

  /** A step of one peer that leaves its driver as it is, or only moves the frame it
      is about to write. */
  lemma QuietStep(s: Sys, q: Peer)
    requires SysInv(s) && PeerOk(q) && LanesOk(s.(a := q))
    requires q.drv == s.a.drv.(pendingWrite := q.drv.pendingWrite) && q.hist.sent == s.a.hist.sent
    requires ChannelsClosed(s.a) ==> SameCommands(s.a, q)
    ensures SysInv(s.(a := q))
  {
    hide PeerOk, LanesOk, AllSound, GoodbyeLast;
    QuietPings(s, q);
    hide PingsOk;
    QuietGoodbye(s.a, s.a.hist.sent, q);
  }

  ghost predicate SameCommands(p: Peer, q: Peer) {
    q.queues.Keys == p.queues.Keys && forall h :: h in p.queues ==> q.queues[h].cmds == p.queues[h].cmds
  }

  lemma NothingSent(p: Peer, step: Step)
    requires Enabled(p, step) && Act(p, step).frame.None?
    ensures Apply(p, step).peer == Act(p, step).peer
  {
    hide Act;
    var e := Act(p, step);
    assert e.peer.hist.sent + [] == e.peer.hist.sent;
  }

  /** The calls of a handle, and letting go of it. */
  predicate HandleStep(step: Step) {
    step.Opening? || step.Writing? || step.Reading? || step.Shutting? || step.Releasing? || step.HangingUp? || step.Adopting?
  }

  lemma HandleStepDriver(p: Peer, step: Step)
    requires HandleStep(step) && Enabled(p, step)
    ensures Act(p, step).frame.None? && Act(p, step).peer.drv == p.drv && Act(p, step).peer.hist.sent == p.hist.sent
    ensures ChannelsClosed(p) ==> SameCommands(p, Act(p, step).peer)
  {
    hide Fresh, Attach, RefOf, TryClaimSlot, Portion, NextGrant, Mark, UpdateState, PollWrite;
    if step.Writing? { WriteStepDriver(p, step.h, step.data); }
  }

  lemma WriteStepDriver(p: Peer, h: HandleId, data: seq<byte>)
    requires Usable(p, h)
    ensures var q := PollWrite(p, h, data).peer;
            q.drv == p.drv && q.hist.sent == p.hist.sent && (ChannelsClosed(p) ==> SameCommands(p, q))
  {
    ActivateStepDriver(p, h);
    hide PollActivate, SendData;
    var act := PollActivate(p, h);
    if !act.reply.Parked? { SendStepDriver(act.peer, h, data); }
  }

  lemma ActivateStepDriver(p: Peer, h: HandleId)
    requires Usable(p, h)
    ensures var q := PollActivate(p, h).peer; q.drv == p.drv && q.hist == p.hist && q.queues == p.queues
  {
  }

  lemma SendStepDriver(p: Peer, h: HandleId, data: seq<byte>)
    requires Usable(p, h)
    ensures var q := SendData(p, h, data).peer;
            q.drv == p.drv && q.hist.sent == p.hist.sent && (ChannelsClosed(p) ==> q.queues == p.queues)
  {
    hide Portion;
  }

  lemma HandleStepWire(s: Sys, step: Step)
    requires SysInv(s) && HandleStep(step) && Enabled(s.a, step) && (step.Opening? ==> step.h.k == 0)
    ensures Single(Act(s.a, step).peer) && WireOk(Act(s.a, step).peer)
  {
    hide Inv, Single, WireOk, LanesOk, GoodbyeLast, PingsOk;
    match step
    case Opening(h) => OpeningWire(s.a, h);
    case Writing(h, data) => HandleReady(s.a, h); WritingWire(s.a, h, data);
    case Reading(h, n, tune) => HandleReady(s.a, h); ReadingWire(s.a, h, n, tune);
    case Shutting(h) => HandleReady(s.a, h); ShuttingWire(s.a, h);
    case Releasing(h) => ReleaseWire(s.a, h);
    case HangingUp(h) => RequeueWire(s.a, Hangup(s.a, h), h);
    case Adopting(h) => RequeueWire(s.a, Adopt(s.a, h), h);
  }

  lemma HandleStepLanes(s: Sys, step: Step)
    requires SysInv(s) && HandleStep(step) && Enabled(s.a, step) && (step.Opening? ==> step.h.k == 0)
    ensures LanesOk(s.(a := Act(s.a, step).peer))
  {
    hide Inv, Single, WireOk, LanesOk, GoodbyeLast, PingsOk;
    match step
    case Opening(h) => OpeningLanes(s, h);
    case Writing(h, data) => WritingLanes(s, h, data);
    case Reading(h, n, tune) => ReadingLanes(s, h, n, tune);
    case Shutting(h) => ShuttingLanes(s, h);
    case Releasing(h) => ReleasingLanes(s, h);
    case HangingUp(h) => RequeueLanes(s, Hangup(s.a, h), h);
    case Adopting(h) => RequeueLanes(s, Adopt(s.a, h), h);
  }

  lemma HandleStepKeeps(s: Sys, step: Step)
    requires SysInv(s) && HandleStep(step) && Enabled(s.a, step) && (step.Opening? ==> step.h.k == 0)
    ensures Apply(s.a, step).frame.None? && SysInv(s.(a := Apply(s.a, step).peer))
  {
    HandleStepDriver(s.a, step);
    NothingSent(s.a, step);
    HandleStepWire(s, step);
    HandleStepLanes(s, step);
    hide Inv, Single, WireOk, LanesOk, GoodbyeLast, PingsOk, Act, Apply, HandleStep;
    PeerRuns.StepKeeps(s.a, step);
    NotPanicked(s.a, step);
    hide Enabled;
    QuietStep(s, Apply(s.a, step).peer);
  }

  lemma NotPanicked(p: Peer, step: Step)
    requires Enabled(p, step)
    ensures !p.drv.phase.Panicked?
  {
  }

  // ----- the driver's steps -----

  /** Moving or reaping, without sending. */
  predicate MoveStep(step: Step) { step.FlushingOwed? || step.Taking? || step.Reaping? }

  lemma MoveStepDriver(p: Peer, step: Step)
    requires MoveStep(step) && Enabled(p, step)
    ensures Act(p, step).frame.None? && !ChannelsClosed(p) && Act(p, step).peer.hist.sent == p.hist.sent
    ensures Act(p, step).peer.drv == p.drv.(pendingWrite := Act(p, step).peer.drv.pendingWrite)
  {
    hide FreeRecord, CloseOwed, HeldByHandle;
  }

  lemma MoveStepWire(s: Sys, step: Step)
    requires SysInv(s) && MoveStep(step) && Enabled(s.a, step)
    ensures Single(Act(s.a, step).peer) && WireOk(Act(s.a, step).peer)
    ensures LanesOk(s.(a := Act(s.a, step).peer))
  {
    hide Inv, Single, WireOk, LanesOk, GoodbyeLast, PingsOk;
    match step
    case FlushingOwed(id) => OwedWire(s.a, id); OwedLanes(s, id);
    case Taking(h) => TakingWire(s.a, h); TakingLanes(s, h);
    case Reaping(h) => ReapingWire(s.a, h); ReapingLanes(s, h);
  }

  lemma MoveStepKeeps(s: Sys, step: Step)
    requires SysInv(s) && MoveStep(step) && Enabled(s.a, step)
    ensures Apply(s.a, step).frame.None? && SysInv(s.(a := Apply(s.a, step).peer))
  {
    MoveStepDriver(s.a, step);
    NothingSent(s.a, step);
    MoveStepWire(s, step);
    hide Inv, Single, WireOk, LanesOk, GoodbyeLast, PingsOk, Act, Apply, MoveStep;
    PeerRuns.StepKeeps(s.a, step);
    NotPanicked(s.a, step);
    hide Enabled;
    QuietStep(s, Apply(s.a, step).peer);
  }

  lemma NotedWire(e: Emission)
    requires Single(e.peer) && WireOk(e.peer)
    ensures Single(PeerRuns.Noted(e)) && WireOk(PeerRuns.Noted(e))
  {
    hide Sound;
  }

  lemma SoundAppend(link: seq<Frame>, f: Frame)
    requires AllSound(link) && Sound(f)
    ensures AllSound(link + [f])
  {
    hide Sound;
  }

  /** A frame goes out: the pieces put together. */
  lemma SendStep(s: Sys, q: Peer, f: Frame)
    requires SysInv(s) && PeerOk(q) && Sound(f)
    requires var t := s.(a := q, ab := s.ab + [f]);
             LanesOk(t) && AllPings(t) && GoodbyeLast(q, s.a.hist.sent + [f])
    requires q.hist.sent == s.a.hist.sent + [f]
    ensures SysInv(s.(a := q, ab := s.ab + [f]))
  {
    hide PeerOk, LanesOk, GoodbyeLast, PingsOk, Sound, AllSound;
    SendLink(s.a, s.ab, q, f);
    SoundAppend(s.ab, f);
    hide LinkOk;
  }

  lemma EmittedPings(s: Sys)
    requires AllPings(s) && WireOk(s.a) && s.a.drv.backlog == [] && !s.a.drv.terminating && Emit(s.a).frame.Some?
    ensures AllPings(s.(a := PeerRuns.Noted(Emit(s.a)), ab := s.ab + [Emit(s.a).frame.value]))
  {
    var q := PeerRuns.Noted(Emit(s.a));
    assert s.a.drv.pendingTerminate.None?;
    hide AllPings;
    if s.a.drv.pendingPong.Some? {
      SendPongPings(s, q, s.a.drv.pendingPong.value);
    } else {
      SendSilentPings(s, q, Emit(s.a).frame.value);
    }
  }

  lemma EmittingKeeps(s: Sys)
    requires SysInv(s) && !s.a.drv.terminating && Enabled(s.a, Emitting)
    ensures var e := Apply(s.a, Emitting); SysInv(s.(a := e.peer, ab := s.ab + OptFrame(e.frame)))
  {
    hide Inv, Single, WireOk, LanesOk, GoodbyeLast, PingsOk;
    var q := PeerRuns.Noted(Emit(s.a));
    var f := Emit(s.a).frame.value;
    PeerRuns.StepKeeps(s.a, Emitting);
    EmittingWire(s.a);
    NotedWire(Emit(s.a));
    EmittingLanes(s);
    NoBacklog(s.a);
    EmittedPings(s);
    SendGoodbye(s.a, s.a.hist.sent, q, f);
    SendStep(s, q, f);
  }

  lemma PingSound(n: int)
    requires 0 <= n <= U32_MAX
    ensures Sound(PingFrame(n))
  {
  }

  lemma PingWire(p: Peer, n: int)
    requires Single(p) && WireOk(p)
    ensures var q := p.(drv := p.drv.(awaitingPong := Some(n))); Single(q) && WireOk(q)
  {
    hide Sound;
  }

  lemma PingingKeeps(s: Sys, n: int)
    requires SysInv(s) && Enabled(s.a, Pinging(n))
    ensures var e := Apply(s.a, Pinging(n)); SysInv(s.(a := e.peer, ab := s.ab + OptFrame(e.frame)))
  {
    hide Inv, Single, WireOk, LanesOk, GoodbyeLast, PingsOk;
    var e := Emission(s.a.(drv := s.a.drv.(awaitingPong := Some(n))), Some(PingFrame(n)));
    var q := PeerRuns.Noted(e);
    PeerRuns.StepKeeps(s.a, Pinging(n));
    PingWire(s.a, n);
    NotedWire(e);
    PingingLanes(s, n, q);
    NoBacklog(s.a);
    SendPingPings(s, q, n);
    PingSound(n);
    SendGoodbye(s.a, s.a.hist.sent, q, PingFrame(n));
    SendStep(s, q, PingFrame(n));
  }

  // ----- the closing future's steps -----

  lemma FlushingKeeps(s: Sys)
    requires SysInv(s) && Enabled(s.a, FlushingOne)
    ensures var e := Apply(s.a, FlushingOne); SysInv(s.(a := e.peer, ab := s.ab + OptFrame(e.frame)))
  {
    hide Inv, Single, LanesOk, GoodbyeLast, PingsOk;
    assert s.a.drv.pendingPong.None?;
    hide WireOk;
    var q := PeerRuns.Noted(FlushBacklog(s.a));
    PeerRuns.StepKeeps(s.a, FlushingOne);
    BacklogWire(s.a);
    NotedWire(FlushBacklog(s.a));
    FlushingLanes(s);
    FlushPings(s, q);
    FlushGoodbye(s.a, s.a.hist.sent, q);
    SendStep(s, q, s.a.drv.backlog[0]);
  }

  /** A step that changes the backlog and sends nothing: the pieces put together. */
  lemma StageStep(s: Sys, q: Peer)
    requires SysInv(s) && PeerOk(q) && LanesOk(s.(a := q)) && AllPings(s.(a := q))
    requires q.hist.sent == s.a.hist.sent && GoodbyeLast(q, q.hist.sent)
    ensures SysInv(s.(a := q))
  {
    hide PeerOk, LanesOk, GoodbyeLast, PingsOk, Sound;
  }

  lemma DrainedKeeps(s: Sys)
    requires SysInv(s) && Enabled(s.a, DrainDone)
    ensures Apply(s.a, DrainDone).frame.None? && SysInv(s.(a := Apply(s.a, DrainDone).peer))
  {
    hide Inv, Single, WireOk, LanesOk, GoodbyeLast, PingsOk;
    var q := FinishDrain(s.a);
    NothingSent(s.a, DrainDone);
    PeerRuns.StepKeeps(s.a, DrainDone);
    BacklogWire(s.a);
    DrainedLanes(s);
    BacklogPings(s, q, TERM);
    BacklogGoodbye(s.a, s.a.hist.sent, q, TERM);
    StageStep(s, q);
  }

  lemma DrainingKeeps(s: Sys, h: HandleId)
    requires SysInv(s) && Enabled(s.a, DrainingOne(h))
    ensures Apply(s.a, DrainingOne(h)).frame.None? && SysInv(s.(a := Apply(s.a, DrainingOne(h)).peer))
  {
    hide Inv, Single, LanesOk, GoodbyeLast, PingsOk;
    var q := DrainCommand(s.a, h);
    var f := CommandFrame(s.a.queues[h].cmds[0]);
    assert StreamFrame(f);
    hide WireOk, Later;
    NothingSent(s.a, DrainingOne(h));
    PeerRuns.StepKeeps(s.a, DrainingOne(h));
    TakingWire(s.a, h);
    DrainingLanes(s, h);
    BacklogPings(s, q, f);
    BacklogGoodbye(s.a, s.a.hist.sent, q, f);
    StageStep(s, q);
  }

  /** The stream frames that closing puts behind a pong. */
  function Staged(p: Peer, order: seq<StreamId>): seq<Frame>
    requires KeyOrder(p.reg.owed, order)
  {
    OptFrame(p.drv.pendingWrite) + OwedFrames(p.reg.owed, order)
  }

  lemma OwedFramesStream(p: Peer, order: seq<StreamId>)
    requires WireOk(p) && forall id :: id in order ==> id in p.reg.owed
    ensures forall f :: f in OwedFrames(p.reg.owed, order) ==> StreamFrame(f)
  {
  }

  lemma StagedFrames(p: Peer, order: seq<StreamId>)
    requires WireOk(p) && !p.drv.terminating && KeyOrder(p.reg.owed, order)
    ensures BeginClose(p, order).drv.backlog == OptPong(p.drv.pendingPong) + Staged(p, order)
    ensures forall i :: 0 <= i < |Staged(p, order)| ==> Silent(Staged(p, order)[i])
    ensures NoGoodbye(BeginClose(p, order).drv.backlog)
  {
    OwedFramesStream(p, order);
    hide KeyOrder, StopReceiving;
    var A, B, C := OptPong(p.drv.pendingPong), OptFrame(p.drv.pendingWrite), OwedFrames(p.reg.owed, order);
    assert [] + A + B + C == A + (B + C);
    forall i | 0 <= i < |Staged(p, order)| ensures StreamFrame(Staged(p, order)[i]) {
      assert Staged(p, order)[i] in B || Staged(p, order)[i] in C;
    }
  }

  lemma ClosingKeeps(s: Sys, order: seq<StreamId>)
    requires SysInv(s) && !s.a.drv.terminating && Enabled(s.a, Closing(order))
    ensures Apply(s.a, Closing(order)).frame.None? && SysInv(s.(a := Apply(s.a, Closing(order)).peer))
  {
    hide Inv, Single, WireOk, LanesOk, GoodbyeLast, PingsOk, KeyOrder, StopReceiving, Silent;
    var q := BeginClose(s.a, order);
    NothingSent(s.a, Closing(order));
    PeerRuns.StepKeeps(s.a, Closing(order));
    ClosingWire(s.a, order);
    ClosingLanes(s, order);
    NoBacklog(s.a);
    StagedFrames(s.a, order);
    ClosePings(s, q, Staged(s.a, order));
    CloseGoodbye(s.a, s.a.hist.sent, q);
    StageStep(s, q);
  }

  // ----- deliveries -----

  /** The one reason to terminate: the remote opens a stream and no slot is left. */
  predicate TableFull(p: Peer, f: Frame) {
    && f.header.tag.Data? && f.header.flags.syn && !f.header.flags.rst && f.header.id !in p.reg.streams
    && |p.reg.streams| >= p.reg.cfg.maxStreams
  }

  lemma FrontPath(s: Sys, id: StreamId)
    requires s.ba != [] && s.ba[0].header.id == id
    ensures Path(s.ba, s.b, id) != [] && Path(s.ba, s.b, id)[0] == s.ba[0]
  {
  }

  /** A stream frame at the front of the link fits the windows it meets. */
  lemma FrontFits(s: Sys, id: StreamId)
    requires LanesOk(s) && s.ba != [] && s.ba[0].header.id == id && id != SESSION
    ensures var x := EndOf(s.a, id);
            && (x.stage == L.Live ==> |L.BodyOf(s.ba[0])| <= x.recv && x.send + L.CreditOf(s.ba[0]) <= U32_MAX)
            && (x.stage != L.Live ==> x.recv == DEFAULT_CREDIT && (L.IsSyn(s.ba[0]) ==> |L.BodyOf(s.ba[0])| <= DEFAULT_CREDIT))
  {
    assert LaneOk(s, id);
    FrontPath(s, id);
    hide EndOf, Path, L.Dir;
    var x, y, P, Q := EndOf(s.a, id), EndOf(s.b, id), Path(s.ab, s.a, id), Path(s.ba, s.b, id);
    L.DataFits(x, y, P, Q);
    if x.stage == L.Live { L.CreditFits(x, y, P, Q); }
  }

  lemma StreamFrameAccepted(p: Peer, f: Frame)
    requires RegistryOk(p.reg) && RegistryInHeap(p.reg) && !p.drv.terminating
    requires f.header.id != SESSION && (f.header.tag.Data? || f.header.tag.WindowUpdate?)
    requires var x := EndOf(p, f.header.id);
             && (x.stage == L.Live ==> |L.BodyOf(f)| <= x.recv && x.send + L.CreditOf(f) <= U32_MAX)
             && (x.stage != L.Live ==> x.recv == DEFAULT_CREDIT && (L.IsSyn(f) ==> |L.BodyOf(f)| <= DEFAULT_CREDIT))
    ensures !OnFrame(p, f).action.Panic?
    ensures OnFrame(p, f).action.Terminate? <==> TableFull(p, f)
  {
  }

  lemma RegistryParts(p: Peer)
    requires Inv(p)
    ensures RegistryOk(p.reg) && RegistryInHeap(p.reg)
  {
    hide RecordsOk, HandlesOk, NoLeak, SlotsOk, WaitersInactive, WaitersOpened, FinsTold, BudgetOk, QueuesOk;
  }

  /** Between conforming peers no arithmetic overflows and no window is overrun; a
      peer terminates exactly when a new stream finds its table full. */
  lemma DeliveryAccepted(s: Sys)
    requires SysInv(s) && s.ba != [] && !s.a.drv.terminating
    ensures RegistryInHeap(s.a.reg)
    ensures !OnFrame(s.a, s.ba[0]).action.Panic?
    ensures OnFrame(s.a, s.ba[0]).action.Terminate? <==> TableFull(s.a, s.ba[0])
  {
    hide Inv, Single, WireOk, LanesOk, GoodbyeLast, PingsOk;
    var f := s.ba[0];
    RegistryParts(s.a);
    assert Sound(f);
    if f.header.tag.Data? || f.header.tag.WindowUpdate? {
      FrontFits(s, f.header.id);
      hide EndOf, OnFrame;
      StreamFrameAccepted(s.a, f);
    } else if f.header.tag.Ping? && f.header.flags.ack {
      PongIsAwaited(s);
    }
  }

  lemma ReceivedDriver(p: Peer, f: Frame)
    requires RegistryInHeap(p.reg) && Accepted(p, f) && !p.drv.terminating
    ensures var q := Receive(p, f);
            && q.drv == React(p.drv, OnFrame(p, f).action) && q.queues == p.queues && q.hist == p.hist
            && (f.header.tag.Data? || f.header.tag.WindowUpdate? ==> q.drv == p.drv)
            && (f.header.tag.Ping? || f.header.tag.GoAway? ==> q == p.(drv := q.drv))
  {
    hide Mark, WakeBoth, Admit;
  }

  /** A frame is taken off the link: the pieces put together. */
  lemma TakeOffStep(s: Sys, q: Peer)
    requires SysInv(s) && PeerOk(q) && s.ba != []
    requires var t := s.(a := q, ba := s.ba[1..]); LanesOk(t) && AllPings(t)
    requires q.hist.sent == s.a.hist.sent && GoodbyeLast(q, q.hist.sent)
    ensures SysInv(s.(a := q, ba := s.ba[1..]))
  {
    hide PeerOk, LanesOk, PingsOk, Sound, GoodbyeLast;
    DropLink(s.b, s.ba);
  }

  lemma AcceptedStays(p: Peer, f: Frame)
    requires RegistryInHeap(p.reg) && Accepted(p, f) && !p.drv.terminating && !p.drv.phase.Panicked?
    ensures !Receive(p, f).drv.terminating && !Receive(p, f).drv.phase.Panicked?
  {
    hide OnFrame;
  }

  lemma ReceiptSendsNothing(p: Peer, f: Frame)
    requires Enabled(p, Receiving(f))
    ensures Apply(p, Receiving(f)).peer == Receive(p, f) && Apply(p, Receiving(f)).frame.None?
  {
  }

  lemma ReceivedOk(s: Sys)
    requires SysInv(s) && s.ba != [] && Enabled(s.a, Receiving(s.ba[0])) && !s.a.drv.terminating && Accepted(s.a, s.ba[0])
    ensures PeerOk(Receive(s.a, s.ba[0])) && Receive(s.a, s.ba[0]) == Apply(s.a, Receiving(s.ba[0])).peer
  {
    hide Inv, Single, WireOk, LanesOk, GoodbyeLast, PingsOk, OnFrame, Receive, Apply, Act, Sound, Accepted, Enabled;
    var f := s.ba[0];
    assert Sound(f);
    NotPanicked(s.a, Receiving(f));
    RegistryParts(s.a);
    AcceptedStays(s.a, f);
    ReceiptSendsNothing(s.a, f);
    PeerRuns.StepKeeps(s.a, Receiving(f));
    ReceivingWire(s.a, f);
  }

  lemma StreamDelivery(s: Sys)
    requires SysInv(s) && s.ba != [] && Enabled(s.a, Receiving(s.ba[0])) && !s.a.drv.terminating && Accepted(s.a, s.ba[0])
    requires s.ba[0].header.tag.Data? || s.ba[0].header.tag.WindowUpdate?
    ensures SysInv(s.(a := Receive(s.a, s.ba[0]), ba := s.ba[1..]))
  {
    var f := s.ba[0];
    var q := Receive(s.a, f);
    ReceivedOk(s);
    ReceivedDriver(s.a, f);
    FrameLanes(s, f);
    hide PeerOk, LanesOk, GoodbyeLast, Enabled, Accepted, Receive, Sound;
    QuietPings(s, q);
    DropPings(s.(a := q));
    QuietGoodbye(s.a, s.a.hist.sent, q);
    TakeOffStep(s, q);
  }

  lemma SessionViews(p: Peer, q: Peer)
    requires PeerOk(p) && !ChannelsClosed(p)
    requires q == p.(drv := q.drv) && q.drv.backlog == p.drv.backlog && q.drv.pendingWrite == p.drv.pendingWrite
    requires q.drv.phase == p.drv.phase || (q.drv.phase.HungUp? && q.drv == p.drv.(phase := q.drv.phase))
    ensures forall id :: id != SESSION ==> Waiting(q, id) == Waiting(p, id) && Quiet(EndOf(p, id), EndOf(q, id))
  {
    hide Single, WireOk, EndOf, Waiting, L.Opens, L.Claims, L.ShutsIdle, L.LetsGo, L.Stops, L.Takes, L.LeavesIdle, L.LeavesQuietly;
    if q.drv.phase == p.drv.phase {
      DriverView(p, q);
      forall id | id != SESSION ensures Waiting(q, id) == Waiting(p, id) && Quiet(EndOf(p, id), EndOf(q, id)) {
        assert SameView(p, q, id);
      }
    } else {
      HandlesQueued(p);
      hide Inv;
      forall id | id != SESSION ensures Waiting(q, id) == Waiting(p, id) && Quiet(EndOf(p, id), EndOf(q, id)) {
        HangUpView(p, q.drv.phase.code, id);
      }
    }
  }

  lemma HandlesQueued(p: Peer)
    requires Inv(p)
    ensures forall h :: h in p.handles ==> h in p.queues
  {
    hide RecordsOk, RegistryOk, HandlesOk, NoLeak, SlotsOk, WaitersInactive, WaitersOpened, FinsTold, BudgetOk;
  }

  /** What a ping, a pong or a goodbye does to the driver. */
  lemma SessionReacts(p: Peer, f: Frame)
    requires RegistryInHeap(p.reg) && Accepted(p, f) && !p.drv.terminating && f.header.id == SESSION
    ensures var drv := Receive(p, f).drv;
            && (f.header.tag.GoAway? ==> drv == p.drv.(phase := HungUp(f.header.length)))
            && (f.header.tag.Ping? && f.header.flags.ack ==> drv == p.drv.(awaitingPong := None))
            && (f.header.tag.Ping? && !f.header.flags.ack ==> drv == p.drv.(pendingPong := Some(f.header.length)))
  {
  }

  lemma SessionPings(s: Sys)
    requires RegistryInHeap(s.a.reg) && AllPings(s) && s.ba != [] && !s.a.drv.terminating && Accepted(s.a, s.ba[0])
    requires s.ba[0].header.tag.Ping? || s.ba[0].header.tag.GoAway?
    requires s.ba[0].header.id == SESSION
    ensures AllPings(s.(a := Receive(s.a, s.ba[0]), ba := s.ba[1..]))
  {
    hide AllPings, Receive, Accepted;
    var f := s.ba[0];
    var q := Receive(s.a, f);
    SessionReacts(s.a, f);
    if f.header.tag.GoAway? {
      QuietPings(s, q);
      DropPings(s.(a := q));
    } else if f.header.flags.ack {
      PongPings(s, q);
    } else {
      PingPings(s, q);
    }
  }

  lemma Listening(p: Peer, f: Frame)
    requires Enabled(p, Receiving(f))
    ensures p.drv.phase.Active?
  {
  }

  lemma SessionDriver(p: Peer, f: Frame)
    requires RegistryInHeap(p.reg) && Accepted(p, f) && !p.drv.terminating
    requires f.header.tag.Ping? || f.header.tag.GoAway?
    ensures var q := Receive(p, f);
            && q == p.(drv := q.drv) && q.drv.backlog == p.drv.backlog && q.drv.pendingWrite == p.drv.pendingWrite
            && (q.drv.phase == p.drv.phase || (q.drv.phase.HungUp? && q.drv == p.drv.(phase := q.drv.phase)))
  {
  }

  lemma SessionDelivery(s: Sys)
    requires SysInv(s) && s.ba != [] && Enabled(s.a, Receiving(s.ba[0])) && !s.a.drv.terminating && Accepted(s.a, s.ba[0])
    requires s.ba[0].header.tag.Ping? || s.ba[0].header.tag.GoAway?
    ensures SysInv(s.(a := Receive(s.a, s.ba[0]), ba := s.ba[1..]))
  {
    var f := s.ba[0];
    var q := Receive(s.a, f);
    assert f.header.id == SESSION by { assert Sound(f); }
    assert s.a.drv.phase.Active? by { Listening(s.a, f); }
    hide Inv, Single, WireOk, LanesOk, GoodbyeLast, PingsOk, Enabled, Accepted, Receive, Sound, EndOf;
    ReceivedOk(s);
    SessionDriver(s.a, f);
    SessionPings(s);
    SessionViews(s.a, q);
    SessionLanes(s, f, q);
    QuietGoodbye(s.a, s.a.hist.sent, q);
    TakeOffStep(s, q);
  }

  lemma DeliveryKeeps(s: Sys)
    requires SysInv(s) && !s.a.drv.terminating && s.ba != [] && Enabled(s.a, Receiving(s.ba[0]))
    requires !TableFull(s.a, s.ba[0])
    ensures var e := Apply(s.a, Receiving(s.ba[0])); e.frame.None? && SysInv(s.(a := e.peer, ba := s.ba[1..]))
  {
    hide SysInv, TableFull, Enabled, OnFrame, Receive, Apply, Act;
    DeliveryAccepted(s);
    ReceivedOk(s);
    ReceiptSendsNothing(s.a, s.ba[0]);
    if s.ba[0].header.tag.Data? || s.ba[0].header.tag.WindowUpdate? {
      StreamDelivery(s);
    } else {
      SessionDelivery(s);
    }
  }

  lemma DroppingKeeps(s: Sys)
    requires SysInv(s) && s.ba != [] && s.a.drv.phase.Flushing?
    ensures SysInv(s.(ba := s.ba[1..]))
  {
    DroppingLanes(s);
    hide PeerOk, LanesOk, GoodbyeLast, PingsOk;
    DropPings(s);
    TakeOffStep(s, s.a);
  }
}
