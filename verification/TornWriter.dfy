/** A connection whose socket reports one error in the middle of a frame: the next frame is
    started over the rest of it, the connection closes as after a good end, and what was
    accepted has not reached the remote (mux/mux/src/connection/active.rs and
    mux/mux/src/frame/io.rs). */
module TornWriter {
  import opened Basics
  import opened Frames
  import opened PeerModel
  import opened StreamModel
  import opened TwoPeersWitnesses
  import opened ActiveDriver
  import L = LaneModel
  import LaneView
  import T = TwoPeersTheorems
  import C = Codec
  import X = FrameExchange
  import Io = FrameIo
  import F = ClosingFuture
  import E = Endpoint
  import S = ConnectionStates

  const ID: StreamId := 5

  const ANSWERS: seq<Io.Answer> := [Io.Take(1), Io.Fault, Io.Take(14), Io.Take(1), Io.Later, Io.Take(14)]

  const PINGS: seq<Option<int>> := [None, Some(0)]

  function DataOut(): Frame { DataFrame(ID, [0], true) }

  function Handle(): HandleId { LaneView.Only0(ID) }

  // ----- the peer, pass by pass -----

  /** One byte has been accepted, and is in the channel. */
  function Accepted(cfg: Config): Peer { OnePeer(cfg, ID, Written(ID), [SendFrame(DataOut())], false, None, WroteOne(ID)) }

  /** It is staged. */
  function Staged(cfg: Config): Peer { OnePeer(cfg, ID, Written(ID), [], true, Some(DataOut()), WroteOne(ID)) }

  function Pinged(cfg: Config): Peer {
    var p := Staged(cfg);
    p.(drv := p.drv.(awaitingPong := Some(0)), hist := p.hist.(sent := [PingFrame(0)]))
  }

  function Gone(cfg: Config): Peer {
    var p := Pinged(cfg);
    p.(drv := p.drv.(pendingWrite := None), hist := p.hist.(sent := [PingFrame(0), DataOut()]))
  }

  // ----- the scenes -----

  function Scene0(cfg: Config): Scene { Scene(Accepted(cfg), Io.WInit, ANSWERS, [], Io.RInit, [], false) }

  function Scene1(cfg: Config): Scene { Scene0(cfg).(peer := Staged(cfg)) }

  function Scene2(cfg: Config): Scene { Scene0(cfg).(peer := Pinged(cfg), write := Io.Starting(PingFrame(0))) }

  function Scene3(cfg: Config): Scene {
    Scene(Gone(cfg), Io.Starting(DataOut()), [Io.Take(14), Io.Take(1), Io.Later, Io.Take(14)], C.FrameBytes(PingFrame(0))[..1],
          Io.RInit, [], false)
  }

  /** At the end the writer is ready again, and one answer is left. */
  ghost predicate AtEnd(cfg: Config, t: Scene) {
    && t.peer == Gone(cfg) && t.write.WInit? && t.script == [Io.Take(14)]
    && t.written == C.FrameBytes(PingFrame(0))[..1] + C.FrameBytes(DataOut())
  }

  // ----- what decides a pass -----

  lemma Idling(script: seq<Io.Answer>)
    ensures Io.WriteOut(Io.WInit, script) == Io.Written(Io.Done, Io.WInit, script, [])
  {
  }

  lemma Sending(s: Scene, ping: Option<int>, came: Option<ActivePoll>, t: Scene)
    requires Passed(s, ping, came, t) && Io.WriteStateOk(s.write)
    requires !Io.WriteOut(s.write, s.script).reply.NotYet? && E.Sends(E.Adopted(s.peer), ping).Some?
    ensures var o := Io.WriteOut(s.write, s.script); var (step, f) := E.Sends(E.Adopted(s.peer), ping).value;
            && came.None? && WellFormed(f) && E.Does(E.Adopted(s.peer), step, t.peer)
            && t == s.(peer := t.peer, write := Io.Starting(f), script := o.script, written := s.written + o.bytes)
  {
    hide E.Adopted, E.Sends, E.Does, Io.WriteOut, Io.Starting;
  }

  lemma Serving(s: Scene, ping: Option<int>, came: Option<ActivePoll>, t: Scene)
    requires Passed(s, ping, came, t) && s.write.WInit? && E.Sends(E.Adopted(s.peer), ping).None? && E.Servable(E.Adopted(s.peer))
    ensures came.None? && Serves(E.Adopted(s.peer), t.peer) && t == s.(peer := t.peer)
  {
    hide E.Adopted, E.Sends, E.Servable, Serves, Io.WriteOut;
    Idling(s.script);
    assert s.written + [] + [] == s.written;
  }

  lemma Waiting(s: Scene, ping: Option<int>, came: Option<ActivePoll>, t: Scene, o: Io.Written)
    requires Passed(s, ping, came, t) && Io.WriteStateOk(s.write) && Io.WriteOut(s.write, s.script) == o && o.state.WInit?
    requires E.Sends(E.Adopted(s.peer), ping).None? && !E.Servable(E.Adopted(s.peer))
    requires s.read.RInit? && s.arriving == [] && !s.ended && o.script != [] && o.script[0].Later?
    ensures came == Some(Waits) && t.peer == E.Adopted(s.peer) && t.write.WInit? && t.script == o.script[1..] && t.written == s.written + o.bytes
  {
    hide E.Adopted, E.Sends, E.Servable, Io.WriteOut, E.Does;
    Idling(o.script);
    assert s.written + o.bytes + [] == s.written + o.bytes;
    var round, m :| Went(s.(peer := E.Adopted(s.peer)), ping, round, m) && Ended(m, round, came, t);
    var got :| ReadEnds(m, got, came, t);
    if got.Some? { NotNothing(Incoming(m), got.value, Incoming(t)); }
    assert |m.script| - |t.script| <= 1;
  }

  // ----- the passes -----

  /** The command is staged. */
  lemma Pass0(cfg: Config, came: Option<ActivePoll>, t: Scene)
    requires Passed(Scene0(cfg), None, came, t)
    ensures came.None? && t == Scene1(cfg)
  {
    AdoptedNow(cfg);
    ReadyToServe(cfg);
    hide Passed, E.Adopted, E.Sends, E.Servable, Serves, OnePeer;
    Serving(Scene0(cfg), None, came, t);
    StagesOnly(cfg, t.peer);
  }

  function Queued(cfg: Config): Peer { OnePeer(cfg, ID, Written(ID), [SendFrame(DataOut())], true, None, WroteOne(ID)) }

  lemma AdoptedNow(cfg: Config)
    ensures E.Adopted(Accepted(cfg)) == Queued(cfg)
  {
    var h := Handle();
    assert E.Adopted(Accepted(cfg)).queues == map[h := Queue([SendFrame(DataOut())], true, true)];
  }

  lemma ReadyToServe(cfg: Config)
    ensures E.Sends(Queued(cfg), None).None? && E.Servable(Queued(cfg))
  {
    assert Handle() in Queued(cfg).queues;
  }

  lemma StagesOnly(cfg: Config, q: Peer)
    requires Serves(Queued(cfg), q)
    ensures q == Staged(cfg)
  {
    var step: Step :| (step.FlushingOwed? || step.Taking? || step.Reaping?) && E.Does(Queued(cfg), step, q);
    OnlyTaking(cfg, step);
    hide Enabled, Apply, OnePeer;
    TakesData(cfg);
  }

  lemma OnlyTaking(cfg: Config, step: Step)
    requires Enabled(Queued(cfg), step) && (step.FlushingOwed? || step.Taking? || step.Reaping?)
    ensures step == Taking(Handle())
  {
  }

  lemma TakesData(cfg: Config)
    ensures Enabled(Queued(cfg), Taking(Handle())) && Apply(Queued(cfg), Taking(Handle())).peer == Staged(cfg)
  {
    assert [SendFrame(DataOut())][1..] == [];
    assert TakeCommand(Queued(cfg), Handle()).queues == Staged(cfg).queues;
    TakesIt(Queued(cfg), Handle(), Staged(cfg));
  }

  /** A ping goes first. */
  lemma Pass1(cfg: Config, came: Option<ActivePoll>, t: Scene)
    requires Passed(Scene1(cfg), Some(0), came, t)
    ensures came.None? && t == Scene2(cfg)
  {
    AlreadyAdopted(cfg);
    Idling(ANSWERS);
    PingIsDue(cfg);
    hide Passed, E.Adopted, E.Sends, OnePeer, Io.Starting, Io.WriteOut;
    Sending(Scene1(cfg), Some(0), came, t);
    PingsOnce(cfg, t.peer);
  }

  lemma AlreadyAdopted(cfg: Config)
    ensures E.Adopted(Staged(cfg)) == Staged(cfg) && E.Adopted(Pinged(cfg)) == Pinged(cfg) && E.Adopted(Gone(cfg)) == Gone(cfg)
  {
    E.AllAdopted(Staged(cfg));
    E.AllAdopted(Pinged(cfg));
    E.AllAdopted(Gone(cfg));
  }

  lemma PingIsDue(cfg: Config)
    ensures E.Sends(Staged(cfg), Some(0)) == Some((Pinging(0), PingFrame(0)))
  {
  }

  lemma PingsOnce(cfg: Config, q: Peer)
    requires E.Does(Staged(cfg), Pinging(0), q)
    ensures q == Pinged(cfg)
  {
    assert [] + [PingFrame(0)] == [PingFrame(0)];
  }

  /** One byte of the ping goes out, then there is an error: the data frame is started over
      the rest. */
  lemma Pass2(cfg: Config, came: Option<ActivePoll>, t: Scene)
    requires Passed(Scene2(cfg), None, came, t)
    ensures came.None? && t == Scene3(cfg) && Tears(Scene2(cfg), None)
  {
    AlreadyAdopted(cfg);
    var rest := [Io.Take(14), Io.Take(1), Io.Later, Io.Take(14)];
    assert [Io.Take(1), Io.Fault] + rest == ANSWERS;
    Io.OneByteThenFault(PingFrame(0), rest);
    NextIsData(cfg);
    hide Passed, E.Adopted, E.Sends, OnePeer, Io.Starting, Io.WriteOut;
    Sending(Scene2(cfg), None, came, t);
    SendsData(cfg, t.peer);
    assert [] + C.FrameBytes(PingFrame(0))[..1] == C.FrameBytes(PingFrame(0))[..1];
  }

  lemma NextIsData(cfg: Config)
    ensures E.Sends(Pinged(cfg), None) == Some((Emitting, DataOut()))
  {
  }

  lemma SendsData(cfg: Config, q: Peer)
    requires E.Does(Pinged(cfg), Emitting, q)
    ensures q == Gone(cfg)
  {
    assert [PingFrame(0)] + [DataOut()] == [PingFrame(0), DataOut()];
  }

  /** The data frame goes out, and nothing is left to do. */
  lemma Pass3(cfg: Config, came: Option<ActivePoll>, t: Scene)
    requires Passed(Scene3(cfg), None, came, t)
    ensures came == Some(Waits) && AtEnd(cfg, t)
  {
    AlreadyAdopted(cfg);
    var rest := [Io.Later, Io.Take(14)];
    assert [Io.Take(14)] + [Io.Take(1)] + rest == Scene3(cfg).script;
    Io.TakenWhole(DataOut(), rest);
    NothingToDo(cfg);
    hide Passed, E.Adopted, E.Sends, E.Servable, OnePeer, Io.Starting, Io.WriteOut;
    Waiting(Scene3(cfg), None, came, t, Io.Written(Io.Done, Io.WInit, rest, C.FrameBytes(DataOut())));
    assert rest[1..] == [Io.Take(14)];
  }

  lemma NothingToDo(cfg: Config)
    ensures E.Sends(Gone(cfg), None).None? && !E.Servable(Gone(cfg))
  {
  }

  /** So the whole poll is decided. */
  lemma AllPasses(cfg: Config, scenes: seq<Scene>, came: ActivePoll, last: Scene)
    requires Traced(PINGS, scenes, Scene0(cfg), came, last)
    ensures came.Waits? && AtEnd(cfg, last) && Torn(PINGS, scenes)
  {
    hide Passed, Tears, Scene0, Scene1, Scene2, Scene3, AtEnd;
    var n := |scenes|;
    var firsts := scenes[..n - 1];
    assert firsts[0] == scenes[0] == Scene0(cfg) && scenes[n - 2] == firsts[n - 2];
    Pass0(cfg, if n == 2 then Some(came) else None, scenes[1]);
    assert n > 2 && Passed(firsts[0], PingAt(PINGS, 0), None, firsts[1]);
    Pass1(cfg, if n == 3 then Some(came) else None, scenes[2]);
    assert n > 3 && Passed(firsts[1], PingAt(PINGS, 1), None, firsts[2]);
    Pass2(cfg, if n == 4 then Some(came) else None, scenes[3]);
    assert n > 4 && Passed(firsts[2], PingAt(PINGS, 2), None, firsts[3]);
    Pass3(cfg, if n == 5 then Some(came) else None, scenes[4]);
    assert n == 5;
    assert Tears(scenes[2], PingAt(PINGS, 2));
  }

  // ----- what the remote makes of it -----

  function OnTheWire(): seq<byte> {
    C.FrameBytes(PingFrame(0))[..1] + C.FrameBytes(DataOut()) + C.FrameBytes(TERM)
  }

  /** A ping that nobody sent, and then a byte that is no frame type. */
  lemma RemoteIsLost()
    ensures var received := C.DecodeStream(OnTheWire());
            && |received.frames| == 1 && received.frames[0].header.tag.Ping? && received.ending == C.Refused(C.BadType(ID))
            && L.Bytes(LaneView.Only(received.frames, ID)) == []
  {
    hide C.ParseFrame, OnTheWire;
    var s := OnTheWire();
    WireBytes();
    PingFirst(s);
    var rest := s[14..];
    NoFrame(rest);
    var f := C.ParseFrame(s).frame;
    assert C.DecodeStream(rest) == C.Stream([], C.Refused(C.BadType(5)));
    assert C.DecodeStream(s).frames == [f] + [];
    assert [f] + [] == [f];
    NoBytes(f);
  }

  lemma WireBytes()
    ensures |OnTheWire()| == 30 && OnTheWire()[0] == 2 && OnTheWire()[14] == 5
  {
    hide C.ToBytes;
    var d := C.FrameBytes(DataOut());
    IdBytes();
    assert d == C.HeaderBytes(DataOut().header) + [0];
    assert d[13] == C.ToBytes(ID, 8)[7];
  }

  lemma PingFirst(s: seq<byte>)
    requires |s| >= 14 && s[0] == 2
    ensures C.ParseFrame(s).Whole? && C.ParseFrame(s).used == 14
    ensures var f := C.ParseFrame(s).frame; f.header.tag.Ping? && f.body == []
  {
    assert s[..14][0] == 2;
  }

  lemma NoFrame(s: seq<byte>)
    requires |s| >= 14 && s[0] == 5
    ensures C.ParseFrame(s) == C.BadType(5)
  {
    assert s[..14][0] == 5;
  }

  lemma IdBytes()
    ensures C.ToBytes(ID, 8)[7] == 5
  {
  }

  lemma NoBytes(f: Frame)
    requires f.body == []
    ensures L.Bytes(LaneView.Only([f], ID)) == []
  {
    assert [f][1..] == [];
    assert LaneView.Only([f], ID) == [] || LaneView.Only([f], ID) == [f];
  }

  // ----- the run -----

  lemma Opens(cfg: Config)
    ensures var p := OnePeer(cfg, ID, Inactive(ID), [], false, None, Opened(ID));
            CanOpen(NewPeer(cfg), Handle()) && NewStream(NewPeer(cfg), Handle()) == p && Usable(p, Handle())
  {
    OpensOne(cfg, ID);
    var q := NewStream(NewPeer(cfg), Handle());
    assert q.hist.sent + [] == q.hist.sent;
  }

  lemma Writes(cfg: Config)
    requires cfg.maxStreams >= 1 && cfg.splitSend >= 1
    ensures PollWrite(OnePeer(cfg, ID, Inactive(ID), [], false, None, Opened(ID)), Handle(), [0]).peer == Accepted(cfg)
  {
    hide PollWrite;
    WritesOne(cfg, ID);
    var q := PollWrite(OnePeer(cfg, ID, Inactive(ID), [], false, None, Opened(ID)), Handle(), [0]).peer;
    assert q.hist.sent + [] == q.hist.sent;
  }

  lemma NothingHandedOver(cfg: Config, order: seq<StreamId>)
    requires KeyOrder(Gone(cfg).reg.owed, order)
    ensures Gone(cfg).reg.cfg == cfg && BeginClose(Gone(cfg), order).drv.backlog == [] && forall h :: h in Gone(cfg).queues ==> Gone(cfg).queues[h].cmds == []
  {
    assert order == [];
  }

  lemma PolledOnce(cfg: Config, input: seq<byte>, d: Drive, came: ActivePoll)
    requires Polled(Scene0(cfg), input, PINGS, d, came)
    ensures came.Waits? && AtEnd(cfg, d.last)
  {
    hide Traced, Drove, Explains, Scene0, AtEnd;
    AllPasses(cfg, d.scenes, came, d.last);
  }

  /** The goodbye goes out behind the rest. */
  lemma LastFlush(b: F.Begun, f: F.Closing, drained: seq<Frame>, r: F.Result)
    requires f.Came(b, drained, r) && F.AllEmpty(b.channels) && b.stage.ClosingStreamReceiver? && b.pending == [] && b.write.WInit? && b.script == [Io.Take(14)]
    requires !f.waitForReply
    ensures r.Closed? && f.io.socket.written == b.written + C.FrameBytes(TERM)
  {
    Idling(b.script);
    Io.TakenWhole(TERM, []);
    assert [Io.Take(14)] + [] + [] == b.script;
    hide Io.WriteOut, Io.Starting;
    assert [] + [] + [TERM] == [TERM] && [TERM][1..] == [];
    assert F.FlushAll(Io.WInit, [TERM], b.script) == Io.Written(Io.Done, Io.WInit, [], [] + C.FrameBytes(TERM));
    assert [] + C.FrameBytes(TERM) == C.FrameBytes(TERM);
  }

  /** Open a stream and write one byte. */
  method Begin(cfg: Config) returns (c: S.Connection)
    requires T.UsableConfig(cfg) && cfg.splitSend >= 1
    ensures c.Valid() && c.state.Active? && SceneOf(c.active, c.io) == Scene0(cfg)
    ensures fresh(c) && fresh(c.active) && fresh(c.io) && fresh(c.io.socket)
  {
    hide PollWrite, NewStream, OnePeer;
    var socket := new Io.Socket(ANSWERS, [], false);
    c := new S.Connection(cfg, socket);
    Opens(cfg);
    var ok := c.NewStream(Handle());
    var reply := c.Write(Handle(), [0]);
    Writes(cfg);
  }

  /** Be polled while active. */
  method Drive(cfg: Config, c: S.Connection)
    requires c.Valid() && c.state.Active? && SceneOf(c.active, c.io) == Scene0(cfg)
    modifies c, c.active, c.io, c.io.socket
    ensures c.Valid() && c.state.Active? && AtEnd(cfg, SceneOf(c.active, c.io))
  {
    hide Polled, Scene0, AtEnd, S.Connection.Valid;
    ghost var input := c.Arrived();
    var r, came;
    ghost var d, order;
    r, came, d, order := c.Poll(PINGS);
    PolledOnce(cfg, input, d, came);
  }

  /** Close, and be polled until the socket comes back. */
  method Finish(cfg: Config, c: S.Connection) returns (r: S.Result)
    requires c.Valid() && c.state.Active? && AtEnd(cfg, SceneOf(c.active, c.io)) && !cfg.closeSync
    modifies c, c.active, c.io, c.io.socket
    ensures c.Valid() && r.Done? && c.state == S.Life.Closed(true) && c.accepted == Gone(cfg).hist.written
    ensures c.io.socket.written == OnTheWire()
  {
    hide OnePeer, Polled, BeginClose, F.Closing.Came, KeyOrder, Linked, S.Owes;
    ghost var order := c.Close();
    NothingHandedOver(cfg, order);
    var f := c.state.future;
    ghost var b := f.Now();
    var came;
    ghost var d;
    r, came, d, order := c.Poll([]);
    ghost var drained :| f.Came(b, drained, S.FutureResult(r));
    LastFlush(b, f, drained, S.FutureResult(r));
  }

  /** Open a stream, write one byte, be polled, close, be polled again: the connection is
      done and gives the socket back, and the byte has not come through. */
  method LoseByte(cfg: Config) returns (c: S.Connection, r: S.Result)
    requires T.UsableConfig(cfg) && !cfg.closeSync && cfg.splitSend >= 1
    ensures c.Valid() && r.Done? && c.state == S.Life.Closed(true) && Log(c.accepted, ID) == [0]
    ensures !c.io.intact && c.io.socket.written == OnTheWire()
    ensures L.Bytes(LaneView.Only(C.DecodeStream(c.io.socket.written).frames, ID)) == []
  {
    hide Scene0, AtEnd, S.Connection.Valid, OnTheWire, C.DecodeStream, LaneView.Only, L.Bytes;
    c := Begin(cfg);
    Drive(cfg, c);
    r := Finish(cfg, c);
    RemoteIsLost();
    c.SocketBackMeansDelivered(ID);
  }
}
