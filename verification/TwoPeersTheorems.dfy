/** What every run of two connected peers guarantees to the users of the streams:
    in-order delivery, conserved credit, complete reads, and a graceful close. */
module TwoPeersTheorems {
  import opened Frames
  import opened Basics
  import opened StreamModel
  import opened PeerModel
  import opened PeerInvariants
  import PeerRuns
  import L = LaneModel
  import opened LaneView
  import opened TwoPeers
  import opened TwoPeersPings
  import opened TwoPeersRuns
  import opened TwoPeersSafety

  // ----- runs -----

  predicate UsableConfig(cfg: Config) { ConfigOk(cfg) && cfg.splitSend <= MAX_BODY }

  /** Two peers that have just been connected. */
  predicate Start(s: Sys) {
    && UsableConfig(s.a.reg.cfg) && UsableConfig(s.b.reg.cfg)
    && s == Sys(NewPeer(s.a.reg.cfg), NewPeer(s.b.reg.cfg), [], [])
  }

  /** Every interleaving of the two sides' steps and deliveries in which neither
      side has decided to terminate. */
  ghost predicate Run(states: seq<Sys>) {
    && states != [] && Start(states[0])
    && (forall i :: 0 <= i < |states| ==> Calm(states[i]))
    && (forall i :: 0 <= i < |states| - 1 ==> Next(states[i], states[i + 1]))
  }

  function Last(states: seq<Sys>): Sys
    requires states != []
  {
    states[|states| - 1]
  }

  lemma OwnKeeps(s: Sys, step: Step, t: Sys)
    requires SysInv(s) && Calm(s) && StepA(s, Own(step), t)
    ensures SysInv(t) && !t.a.drv.terminating
  {
    hide SysInv, Enabled, Apply, Act;
    KeepsCalm(s.a, step);
    assert s.ab + [] == s.ab;
    if HandleStep(step) {
      HandleStepKeeps(s, step);
    } else if MoveStep(step) {
      MoveStepKeeps(s, step);
    } else {
      match step
      case Pinging(n) => PingingKeeps(s, n);
      case Emitting => EmittingKeeps(s);
      case Closing(order) => ClosingKeeps(s, order);
      case DrainingOne(h) => DrainingKeeps(s, h);
      case DrainDone => DrainedKeeps(s);
      case FlushingOne => FlushingKeeps(s);
    }
  }

  /** Only reading a frame can make a peer decide to terminate. */
  lemma KeepsCalm(p: Peer, step: Step)
    requires Enabled(p, step) && !step.Receiving? && !p.drv.terminating
    ensures !Apply(p, step).peer.drv.terminating
  {
    hide BeginClose, PollWrite, PollRead, PollClose, OnDropStream, NewStream, Emit;
    match step
    case Opening(_) => HandleStepDriver(p, step);
    case Writing(_, _) => HandleStepDriver(p, step);
    case Reading(_, _, _) => HandleStepDriver(p, step);
    case Shutting(_) => HandleStepDriver(p, step);
    case Reaping(_) => MoveStepDriver(p, step);
    case Closing(order) => ClosingCalm(p, order);
    case Emitting => EmittingCalm(p);
    case _ =>
  }

  lemma ClosingCalm(p: Peer, order: seq<StreamId>)
    requires KeyOrder(p.reg.owed, order) && !p.drv.terminating
    ensures !BeginClose(p, order).drv.terminating
  {
  }

  lemma EmittingCalm(p: Peer)
    requires !p.drv.terminating
    ensures !Emit(p).peer.drv.terminating
  {
  }

  /** A delivery never overflows an integer or overruns a window, and makes a peer
      terminate exactly when it opens a stream for which no slot is left. */
  lemma DeliveryTerminatesIffTableFull(s: Sys, t: Sys)
    requires SysInv(s) && Calm(s) && StepA(s, Delivery, t)
    ensures t.a.drv.terminating <==> TableFull(s.a, s.ba[0])
    ensures !t.a.drv.phase.Panicked?
  {
    hide SysInv, TableFull, Enabled, OnFrame, Apply, Act, Receive;
    DeliveryAccepted(s);
    ReactionTerminates(s.a, s.ba[0]);
  }

  lemma ReactionTerminates(p: Peer, f: Frame)
    requires Enabled(p, Receiving(f)) && !p.drv.terminating && !OnFrame(p, f).action.Panic?
    ensures Apply(p, Receiving(f)).peer.drv.terminating <==> OnFrame(p, f).action.Terminate?
    ensures !Apply(p, Receiving(f)).peer.drv.phase.Panicked?
  {
  }

  lemma StepKeeps(s: Sys, m: Move, t: Sys)
    requires SysInv(s) && Calm(s) && StepA(s, m, t) && !t.a.drv.terminating
    ensures SysInv(t)
  {
    hide SysInv, Enabled, Apply, Act, TableFull;
    match m
    case Own(step) =>
      OwnKeeps(s, step, t);
    case Delivery =>
      DeliveryTerminatesIffTableFull(s, t);
      DeliveryKeeps(s);
    case Dropping =>
      DroppingKeeps(s);
  }

  lemma FlipKeeps(s: Sys)
    requires SysInv(s)
    ensures SysInv(Flip(s))
  {
    hide PeerOk, AllSound, PingsOk, GoodbyeLast, LinkOk, L.EndOk, L.Dir, EndOf, Path, Accounted;
    forall id | id != SESSION ensures LaneOk(Flip(s), id) {
      assert LaneOk(s, id);
    }
  }

  lemma NextKeeps(s: Sys, t: Sys)
    requires SysInv(s) && Calm(s) && Calm(t) && Next(s, t)
    ensures SysInv(t)
  {
    hide SysInv, StepA;
    if m :| StepA(s, m, t) {
      StepKeeps(s, m, t);
    } else {
      var m :| StepA(Flip(s), m, Flip(t));
      FlipKeeps(s);
      StepKeeps(Flip(s), m, Flip(t));
      FlipKeeps(Flip(t));
      assert Flip(Flip(t)) == t;
    }
  }

  lemma NewPeerWire(cfg: Config)
    requires UsableConfig(cfg)
    ensures PeerOk(NewPeer(cfg)) && GoodbyeLast(NewPeer(cfg), []) && NewPeer(cfg).hist.sent == []
    ensures forall id :: EndOf(NewPeer(cfg), id) == EndOf(NewPeer(cfg), 1) && Path([], NewPeer(cfg), id) == []
  {
    PeerRuns.NewPeerOk(cfg);
    hide Inv;
  }

  lemma StartKeeps(s: Sys)
    requires Start(s)
    ensures SysInv(s)
  {
    NewPeerWire(s.a.reg.cfg);
    NewPeerWire(s.b.reg.cfg);
    var x, y := EndOf(s.a, 1), EndOf(s.b, 1);
    StartEnds(s.a.reg.cfg);
    StartEnds(s.b.reg.cfg);
    StartLane(x, y);
    hide PeerOk, EndOf, Path, L.LaneInv, GoodbyeLast;
    forall id | id != SESSION ensures LaneOk(s, id) && Accounted(s.a, id) && Accounted(s.b, id) {
      assert Path([], s.a, id) == [] && Path([], s.b, id) == [];
    }
  }

  lemma StartEnds(cfg: Config)
    ensures EndOf(NewPeer(cfg), 1)
            == L.End(L.Absent, Open, DEFAULT_CREDIT, DEFAULT_CREDIT, DEFAULT_CREDIT, [], false, false, false,
                     false, false, false, false, true, true, [], [])
  {
  }

  lemma StartLane(x: L.End, y: L.End)
    requires x == y == L.End(L.Absent, Open, DEFAULT_CREDIT, DEFAULT_CREDIT, DEFAULT_CREDIT, [], false, false, false,
                             false, false, false, false, true, true, [], [])
    ensures L.LaneInv(x, y, [], [])
  {
  }

  lemma {:induction false} RunKeeps(states: seq<Sys>)
    requires Run(states)
    ensures SysInv(Last(states))
    decreases |states|
  {
    hide SysInv, Next, Start, Calm;
    if |states| == 1 {
      StartKeeps(states[0]);
    } else {
      var init := states[..|states| - 1];
      assert Run(init);
      RunKeeps(init);
      NextKeeps(Last(init), Last(states));
    }
  }

  /** The system seen from its other side. */
  lemma {:induction false} FlipRun(states: seq<Sys>)
    requires Run(states)
    ensures var flipped := seq(|states|, i requires 0 <= i < |states| => Flip(states[i]));
            Run(flipped) && Last(flipped) == Flip(Last(states))
  {
    var flipped := seq(|states|, i requires 0 <= i < |states| => Flip(states[i]));
    hide StepA;
    forall i | 0 <= i < |flipped| - 1 ensures Next(flipped[i], flipped[i + 1]) {
      assert Next(states[i], states[i + 1]);
      assert Flip(Flip(states[i])) == states[i] && Flip(Flip(states[i + 1])) == states[i + 1];
    }
  }

  // ----- main results, for the direction from `a` to `b` -----

  /** The whole state of the stream `id` at a peer. */
  function Stream(p: Peer, id: StreamId): Shared { RecordFor(p.reg, id) }

  /** The frames of `id` between the peers: on the link, then in the sender's hands. */
  function UnderWay(link: seq<Frame>, p: Peer, id: StreamId): seq<Frame> { Path(link, p, id) }

  /** A peer that has not called `close`. */
  predicate Connected(p: Peer) { !ChannelsClosed(p) }

  lemma LaneOf(states: seq<Sys>, id: StreamId)
    requires Run(states) && id != SESSION
    ensures SysInv(Last(states)) && LaneOk(Last(states), id) && Accounted(Last(states).a, id)
  {
    RunKeeps(states);
    hide Run, PeerOk, LaneOk, PingsOk, Accounted;
  }

  /** Nothing is lost, duplicated or reordered: the bytes written are the bytes
      read, then those buffered, then those under way. */
  lemma DeliveredInOrder(states: seq<Sys>, id: StreamId)
    requires Run(states) && id != SESSION
    requires var b := Last(states).b; id !in b.hist.reaped && Connected(b)
    ensures var s := Last(states);
            Log(s.a.hist.written, id)
            == Log(s.b.hist.read, id) + Stream(s.b, id).buffer + L.Bytes(UnderWay(s.ab, s.a, id))
  {
    LaneOf(states, id);
    hide Run, SysInv, L.EndOk, L.Balance, L.SynOrder, L.Entry, L.EndOrder, L.Bounds, L.Started, Path, RecordFor, Log;
  }

  /** The receiver's window is the sender's window, plus the bytes under way, plus
      the credit on its way back. */
  lemma CreditConserved(states: seq<Sys>, id: StreamId)
    requires Run(states) && id != SESSION
    requires var s := Last(states);
             && id !in s.a.hist.reaped && id !in s.b.hist.reaped && Connected(s.a) && Connected(s.b)
    ensures var s := Last(states);
            Stream(s.b, id).recv
            == Stream(s.a, id).send + |L.Bytes(UnderWay(s.ab, s.a, id))| + L.Credit(UnderWay(s.ba, s.b, id))
  {
    LaneOf(states, id);
    hide Run, SysInv, L.EndOk, L.Delivery, L.SynOrder, L.Entry, L.EndOrder, L.Bounds, L.Started, Path, RecordFor, Log;
  }

  /** No stream stalls for want of credit: while a reader that could grant credit is
      parked, and nothing is under way in either direction, the writer has credit, so
      it is not parked. */
  lemma NoCreditStall(states: seq<Sys>, id: StreamId)
    requires Run(states) && id != SESSION
    requires var s := Last(states);
             && id !in s.a.hist.reaped && id !in s.b.hist.reaped && Connected(s.a) && Connected(s.b)
             && L.Bytes(UnderWay(s.ab, s.a, id)) == [] && L.Credit(UnderWay(s.ba, s.b, id)) == 0
    requires var sh := Stream(Last(states).b, id); sh.reader && !sh.readNothing && sh.readRoom
    ensures Stream(Last(states).a, id).send > 0 && !Stream(Last(states).a, id).writer
  {
    CreditConserved(states, id);
    RunKeeps(states);
    hide Run, SysInv, Path, L.Bytes, L.Credit, RecordFor;
    SystemPeers(Last(states));
    ParkedRecord(Last(states).a, id);
    ParkedRecord(Last(states).b, id);
  }

  lemma SystemPeers(s: Sys)
    requires SysInv(s)
    ensures Inv(s.a) && Inv(s.b)
  {
    hide Inv, LanesOk, PingsOk, GoodbyeLast;
  }

  /** Every record of a peer, and the one a stream would start with, parks for a reason. */
  lemma ParkedRecord(p: Peer, id: StreamId)
    requires Inv(p)
    ensures var sh := RecordFor(p.reg, id); ParkedOk(sh) && sh.maxRecv >= DEFAULT_CREDIT && sh.send >= 0
  {
    hide RegistryOk, HandlesOk, QueuesOk, NoLeak, SlotsOk, WaitersInactive, WaitersOpened, BudgetOk, FinsTold, StateOk;
  }

  /** Between conforming peers, no step ever panics on its window arithmetic, and
      the only reason to terminate is a new stream that finds the table full. */
  lemma TerminatesIffTableFull(states: seq<Sys>, m: Move, t: Sys)
    requires Run(states) && StepA(Last(states), m, t)
    ensures t.a.drv.terminating <==> m.Delivery? && TableFull(Last(states).a, Last(states).ba[0])
    ensures !t.a.drv.phase.Panicked?
  {
    RunKeeps(states);
    var s := Last(states);
    assert Calm(s);
    assert PeerOk(s.a);
    match m
    case Own(step) =>
      hide Run, TableFull, SysInv, Enabled, Apply, Act;
      OwnKeeps(s, step, t);
      assert PeerOk(t.a) by { SystemPeer(t); }
    case Delivery =>
      hide Run, TableFull, SysInv, Enabled, Apply, Act;
      DeliveryTerminatesIffTableFull(s, t);
    case Dropping =>
      hide Run, TableFull, SysInv;
  }

  lemma SystemPeer(s: Sys)
    requires SysInv(s)
    ensures PeerOk(s.a)
  {
  }

  /** A read that asks for bytes and gets the end of the stream has been given all
      that the other side ever wrote, and ever will. */
  lemma EofMeansEverythingRead(states: seq<Sys>, h: HandleId, n: nat, tune: bool)
    requires Run(states) && Enabled(Last(states).b, Reading(h, n, tune)) && n > 0 && Connected(Last(states).b)
    requires PollRead(Last(states).b, h, n, tune).reply == Eof
    ensures var s := Last(states);
            && Log(s.b.hist.read, h.id) == Log(s.a.hist.written, h.id)
            && (h.id in s.a.hist.reaped || !CanWrite(Stream(s.a, h.id).state))
  {
    RunKeeps(states);
    var s := Last(states);
    FlipKeeps(s);
    hide Run;
    EofAtHandle(Flip(s), h, n, tune);
    LaneOf(states, h.id);
    hide SysInv, Enabled, PollRead, L.EndOk, L.Dir;
    EofOfLane(s, h.id);
  }

  lemma EofOfLane(s: Sys, id: StreamId)
    requires LaneOk(s, id) && EndOf(s.b, id).gotEnd && id !in s.b.hist.reaped && Connected(s.b) && Stream(s.b, id).buffer == []
    ensures Log(s.b.hist.read, id) == Log(s.a.hist.written, id)
    ensures id in s.a.hist.reaped || !CanWrite(Stream(s.a, id).state)
  {
  }

  lemma FlippedLane(s: Sys, id: StreamId)
    requires LaneOk(s, id)
    ensures L.LaneInv(EndOf(s.b, id), EndOf(s.a, id), Path(s.ba, s.b, id), Path(s.ab, s.a, id))
  {
    hide L.EndOk, L.Dir, EndOf, Path;
  }

  /** What the end of the stream says about the handle's own record. */
  lemma EofAtHandle(s: Sys, h: HandleId, n: nat, tune: bool)
    requires SysInv(s) && Enabled(s.a, Reading(h, n, tune)) && n > 0 && Connected(s.a)
    requires PollRead(s.a, h, n, tune).reply == Eof
    ensures h.id != SESSION && h.id !in s.a.hist.reaped
    ensures Stream(s.a, h.id).buffer == [] && EndOf(s.a, h.id).gotEnd
  {
    hide Inv, Single, WireOk, LanesOk, GoodbyeLast, PingsOk, AllSound, LinkOk;
    HandleReady(s.a, h);
    HandleView(s.a, h);
    LaneEndOk(s, h.id);
    hide SysInv;
    EofReply(s.a, h, n, tune);
  }

  lemma EofReply(p: Peer, h: HandleId, n: nat, tune: bool)
    requires Usable(p, h) && n > 0 && Connected(p) && PollRead(p, h, n, tune).reply == Eof
    requires RecordFor(p.reg, h.id) == p.reg.heap[p.handles[h]] && L.EndOk(EndOf(p, h.id))
    ensures RecordFor(p.reg, h.id).buffer == [] && EndOf(p, h.id).gotEnd
  {
  }

  /** Before the receiver has a record the first frame to arrive opens the stream if
      and only if the sender did not close its handle before the stream was active. */
  lemma FirstFrameOpens(states: seq<Sys>)
    requires Run(states) && Last(states).ab != []
    requires var s := Last(states); var id := s.ab[0].header.id;
             id != SESSION && id !in s.b.reg.streams && id !in s.b.hist.reaped && Connected(s.b)
    ensures var s := Last(states); var f := s.ab[0];
            (L.IsSyn(f) <==> f.header.id !in s.a.hist.early) && (!L.IsSyn(f) ==> L.BodyOf(f) == [])
  {
    var s := Last(states);
    var id := s.ab[0].header.id;
    hide Run, SysInv, LaneOk, Path, L.LaneInv, RecordFor, Accounted;
    LaneOf(states, id);
    FrontPath(Flip(s), id);
    FlippedLane(s, id);
    L.FirstFrameOpens(EndOf(s.b, id), EndOf(s.a, id), Path(s.ba, s.b, id), Path(s.ab, s.a, id));
  }

  // ----- closing -----

  predicate GoodbyeIsLast(fs: seq<Frame>) {
    fs != [] && fs[|fs| - 1] == TERM && NoGoodbye(fs[..|fs| - 1])
  }

  /** Once a closing peer has flushed its backlog, every byte it accepted for any
      stream has been sent, in order, and its goodbye is the last frame. */
  lemma CloseSendsEverything(states: seq<Sys>, id: StreamId)
    requires Run(states) && id != SESSION
    requires var a := Last(states).a; a.drv.phase.Flushing? && a.drv.backlog == []
    ensures var a := Last(states).a;
            L.Bytes(Only(a.hist.sent, id)) == Log(a.hist.written, id) && GoodbyeIsLast(a.hist.sent)
  {
    var s := Last(states);
    hide Run, SysInv, WireOk, Accounted, GoodbyeLast, GoodbyeIsLast;
    RunKeeps(states);
    SenderOf(s, id);
    FlushedPeer(s.a, id);
  }

  lemma SenderOf(s: Sys, id: StreamId)
    requires SysInv(s) && id != SESSION
    ensures Accounted(s.a, id) && GoodbyeLast(s.a, s.a.hist.sent) && WireOk(s.a)
  {
    hide LaneOk, Inv, Single, WireOk, Accounted, GoodbyeLast, PingsOk, AllSound, LinkOk;
  }

  lemma FlushedPeer(p: Peer, id: StreamId)
    requires Accounted(p, id) && GoodbyeLast(p, p.hist.sent) && WireOk(p)
    requires p.drv.phase.Flushing? && p.drv.backlog == []
    ensures L.Bytes(Only(p.hist.sent, id)) == Log(p.hist.written, id)
    ensures GoodbyeIsLast(p.hist.sent)
  {
    hide WireOk, NoGoodbye, L.Bytes, Log, Only, Waiting;
    assert p.hist.sent + [] == p.hist.sent;
    NothingWaits(p, id);
    assert Only(p.hist.sent, id) + [] == Only(p.hist.sent, id);
  }

  lemma NothingWaits(p: Peer, id: StreamId)
    requires WireOk(p) && p.drv.phase.Flushing? && p.drv.backlog == []
    requires forall h :: h in p.queues ==> p.queues[h].cmds == []
    ensures Waiting(p, id) == []
  {
    hide Sound, StreamFrame, AllSound;
  }

  /** When a still connected peer is about to read the other's goodbye, all that
      was ever written to a stream it has not reaped is in its hands. */
  lemma GoodbyeComesAfterTheData(states: seq<Sys>, id: StreamId)
    requires Run(states) && id != SESSION
    requires var s := Last(states);
             s.ab != [] && s.ab[0].header.tag.GoAway? && Connected(s.b) && id !in s.b.hist.reaped
    ensures var s := Last(states);
            && s.ab == [TERM]
            && Log(s.a.hist.written, id) == Log(s.b.hist.read, id) + Stream(s.b, id).buffer
  {
    DeliveredInOrder(states, id);
    RunKeeps(states);
    var s := Last(states);
    hide Run, PingsOk, LanesOk, AllSound, Inv, Single, WireOk, GoodbyeLast, LinkOk, RecordFor, Log;
    NothingBehindGoodbye(s.a, s.ab);
    hide SysInv;
    NothingUnderWay(s.a, s.ab, id);
  }

  lemma NothingUnderWay(p: Peer, link: seq<Frame>, id: StreamId)
    requires WireOk(p) && p.drv.phase.Flushing? && p.drv.backlog == [] && link == [TERM] && id != SESSION
    requires forall h :: h in p.queues ==> p.queues[h].cmds == []
    ensures L.Bytes(UnderWay(link, p, id)) == []
  {
    NothingWaits(p, id);
    hide Waiting, WireOk;
    assert Only([TERM], id) == [] by { assert [TERM][1..] == []; }
  }
}
