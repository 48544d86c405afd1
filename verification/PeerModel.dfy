/** One peer as a value: the stream registry, the handles with their command
    queues, and the driver's own fields (mux/mux/src/connection/active.rs and the
    handle calls of mux/mux/src/connection/stream.rs). A `Ref` stands for one
    `Arc<Mutex<Shared>>`: `heap` holds the records, and the registry and the
    handles hold references to them. */
module PeerModel {
  import opened Frames
  import opened Basics
  import opened StreamModel

  type Ref = nat

  /** The k-th handle opened for a stream id. */
  datatype HandleId = HandleId(id: StreamId, k: nat)

  datatype Command = SendFrame(frame: Frame) | CloseStream(id: StreamId)

  /** A handle's command channel as the driver sees it, until its end of queue
      has been reported. */
  datatype Queue = Queue(cmds: seq<Command>, adopted: bool, senderAlive: bool)

  /** A sender parks once ten commands plus its own reserved slot are taken. */
  const QUEUE_BUFFER := 10

  datatype Registry = Registry(
    cfg: Config, heap: map<Ref, Shared>, nextRef: nat,
    streams: map<StreamId, Ref>, inactive: map<StreamId, Ref>,
    owed: map<StreamId, Frame>, slotWaiters: set<HandleId>, accumulated: int)

  datatype Phase = Active | HungUp(code: int) | Draining | Flushing | Panicked

  datatype Driver = Driver(
    phase: Phase, awaitingPong: Option<int>, pendingPong: Option<int>,
    pendingTerminate: Option<Frame>, terminating: bool, pendingWrite: Option<Frame>, backlog: seq<Frame>)

  /** What has happened so far; no step reads it. `early` holds the ids whose
      handle was closed before the stream was active. */
  datatype History = History(
    sent: seq<Frame>, everOpened: set<HandleId>, early: set<StreamId>, reaped: set<StreamId>,
    written: map<StreamId, seq<byte>>, read: map<StreamId, seq<byte>>)

  datatype Peer = Peer(
    reg: Registry, handles: map<HandleId, Ref>, queues: map<HandleId, Queue>, drv: Driver, hist: History)

  function Log(m: map<StreamId, seq<byte>>, id: StreamId): seq<byte> {
    if id in m then m[id] else []
  }

  function NewPeer(cfg: Config): Peer {
    Peer(Registry(cfg, map[], 0, map[], map[], map[], {}, 0), map[], map[],
         Driver(Active, None, None, None, false, None, []), History([], {}, {}, {}, map[], map[]))
  }

  // ----- the registry -----

  function ActiveSlots(reg: Registry): int { |reg.streams| + |reg.owed| }

  function RefOf(reg: Registry, id: StreamId): Option<Ref> {
    if id in reg.streams then Some(reg.streams[id])
    else if id in reg.inactive then Some(reg.inactive[id])
    else None
  }

  function SetShared(reg: Registry, r: Ref, sh: Shared): Registry { reg.(heap := reg.heap[r := sh]) }

  function Attach(reg: Registry, id: StreamId, r: Ref): Registry {
    if r in reg.heap then SetShared(reg, r, reg.heap[r].(claimed := true))
    else reg.(heap := reg.heap[r := Fresh(id).(claimed := true)], nextRef := reg.nextRef + 1, inactive := reg.inactive[id := r])
  }

  /** Claim a slot for an inactive record, becoming the stream's opener. */
  function TryClaimSlot(reg: Registry, id: StreamId, r: Ref): Option<Registry>
    requires r in reg.heap
  {
    if ActiveSlots(reg) >= reg.cfg.maxStreams then None
    else Some(reg.(inactive := reg.inactive - {id}, streams := reg.streams[id := r],
                   heap := reg.heap[r := reg.heap[r].(activated := true, synPending := true)]))
  }

  /** A SYN for an id not held: promote the local inactive record, or create one. */
  function Admit(reg: Registry, id: StreamId): Registry {
    if id in reg.inactive && reg.inactive[id] in reg.heap then
      var r := reg.inactive[id];
      reg.(heap := reg.heap[r := reg.heap[r].(activated := true)], inactive := reg.inactive - {id}, streams := reg.streams[id := r])
    else
      reg.(heap := reg.heap[reg.nextRef := Fresh(id).(activated := true)], nextRef := reg.nextRef + 1,
           streams := reg.streams[id := reg.nextRef])
  }

  /** Forget a record: its window beyond the default goes back to the budget. */
  function FreeRecord(reg: Registry, r: Ref): Registry
    requires r in reg.heap
  {
    reg.(heap := reg.heap - {r}, accumulated := reg.accumulated - (reg.heap[r].maxRecv - DEFAULT_CREDIT))
  }

  // ----- handle calls -----

  predicate ChannelsClosed(p: Peer) { p.drv.phase.Draining? || p.drv.phase.Flushing? }

  predicate QueueFull(p: Peer, h: HandleId) requires h in p.queues { |p.queues[h].cmds| > QUEUE_BUFFER }

  function Push(p: Peer, h: HandleId, c: Command): Peer
    requires h in p.queues
  {
    p.(queues := p.queues[h := p.queues[h].(cmds := p.queues[h].cmds + [c])])
  }

  predicate CanOpen(p: Peer, h: HandleId) {
    p.drv.phase.Active? && h !in p.hist.everOpened && h.id != SESSION
  }

  function NewStream(p: Peer, h: HandleId): Peer {
    var known := RefOf(p.reg, h.id);
    var r := if known.Some? then known.value else p.reg.nextRef;
    p.(reg := Attach(p.reg, h.id, r),
       handles := p.handles[h := r],
       queues := p.queues[h := Queue([], false, true)],
       hist := p.hist.(everOpened := p.hist.everOpened + {h}))
  }

  /** A handle whose record and queue can be used. */
  predicate Usable(p: Peer, h: HandleId) {
    h in p.handles && p.handles[h] in p.reg.heap && h in p.queues
  }

  datatype Reply = Done | Wrote(n: int) | Got(bytes: seq<byte>) | Eof | Parked | WriteZero

  datatype Called = Called(peer: Peer, reply: Reply)

  function PollActivate(p: Peer, h: HandleId): Called
    requires Usable(p, h)
  {
    var r := p.handles[h];
    if p.reg.heap[r].activated then Called(p, Done)
    else if h.id in p.reg.streams && p.reg.streams[h.id] in p.reg.heap then
      var s := p.reg.streams[h.id];
      var reg := SetShared(p.reg.(inactive := p.reg.inactive - {h.id}), s, p.reg.heap[s].(activated := true));
      Called(p.(reg := reg, handles := p.handles[h := s]), Done)
    else
      match TryClaimSlot(p.reg, h.id, r)
      case Some(reg) => Called(p.(reg := reg), Done)
      case None =>
        if ChannelsClosed(p) then Called(p, Done)
        else Called(p.(reg := p.reg.(slotWaiters := p.reg.slotWaiters + {h})), Parked)
  }

  function Portion(cfg: Config, send: int, wanted: int): int {
    Min(Min(send, Min(wanted, U32_MAX)), Min(cfg.splitSend, U32_MAX))
  }

  function PollWrite(p: Peer, h: HandleId, data: seq<byte>): Called
    requires Usable(p, h)
  {
    var act := PollActivate(p, h);
    if act.reply.Parked? then act else SendData(act.peer, h, data)
  }

  function SendData(p: Peer, h: HandleId, data: seq<byte>): Called
    requires Usable(p, h)
  {
    var r := p.handles[h];
    var sh := p.reg.heap[r];
    if ChannelsClosed(p) then Called(p, WriteZero)
    else if QueueFull(p, h) then Called(p, Parked)
    else if !CanWrite(sh.state) then Called(p, WriteZero)
    else if sh.send == 0 then Called(p.(reg := SetShared(p.reg, r, sh.(writer := true))), Parked)
    else
      var k := Portion(p.reg.cfg, sh.send, |data|);
      var body := if 0 <= k <= |data| then data[..k] else [];
      var q := p.(reg := SetShared(p.reg, r, sh.(send := sh.send - k, synPending := false)),
                  hist := p.hist.(written := p.hist.written[h.id := Log(p.hist.written, h.id) + body]));
      Called(Push(q, h, SendFrame(DataFrame(h.id, body, sh.synPending))), Wrote(k))
  }

  function SendWindowUpdate(p: Peer, h: HandleId, tune: bool): Peer
    requires Usable(p, h)
  {
    var r := p.handles[h];
    var sh := p.reg.heap[r];
    if !CanRead(sh.state) || ChannelsClosed(p) || QueueFull(p, h) then p
    else
      match NextGrant(p.reg.cfg, p.reg.accumulated, sh, tune)
      case None => p
      case Some(g) =>
        var reg := SetShared(p.reg, r, Granted(sh, g)).(accumulated := p.reg.accumulated + (g.newMax - sh.maxRecv));
        Push(p.(reg := reg), h, SendFrame(CreditFrame(h.id, g.credit)))
  }

  function ReadBuffer(p: Peer, h: HandleId, n: nat, room: bool): Called
    requires Usable(p, h)
  {
    var r := p.handles[h];
    var sh := p.reg.heap[r];
    var k := Min(n, |sh.buffer|);
    if k > 0 then
      Called(p.(reg := SetShared(p.reg, r, sh.(buffer := sh.buffer[k..])),
                hist := p.hist.(read := p.hist.read[h.id := Log(p.hist.read, h.id) + sh.buffer[..k]])),
             Got(sh.buffer[..k]))
    else if !p.reg.cfg.readAfterClose && ChannelsClosed(p) then Called(p, Eof)
    else if !CanRead(sh.state) then Called(p, Eof)
    else Called(p.(reg := SetShared(p.reg, r, sh.(reader := true, readNothing := n == 0, readRoom := room))), Parked)
  }

  function PollRead(p: Peer, h: HandleId, n: nat, tune: bool): Called
    requires Usable(p, h)
  {
    ReadBuffer(SendWindowUpdate(p, h, tune), h, n, !ChannelsClosed(p) && !QueueFull(p, h))
  }

  function PollClose(p: Peer, h: HandleId): Called
    requires Usable(p, h)
  {
    var r := p.handles[h];
    var sh := p.reg.heap[r];
    if sh.state.Closed? then Called(p, Done)
    else if !sh.activated then
      Called(p.(reg := SetShared(p.reg, r, Mark(sh, InactiveClose)), hist := p.hist.(early := p.hist.early + {h.id})), Done)
    else if ChannelsClosed(p) then Called(p, WriteZero)
    else if QueueFull(p, h) then Called(p, Parked)
    else Called(Push(p, h, CloseStream(h.id)).(reg := SetShared(p.reg, r, Mark(sh, LocalFin))), Done)
  }

  /** Dropping a handle lets go of the record first and of the sender second. */
  function Release(p: Peer, h: HandleId): Peer { p.(handles := p.handles - {h}) }

  function Hangup(p: Peer, h: HandleId): Peer
    requires h in p.queues
  {
    p.(queues := p.queues[h := p.queues[h].(senderAlive := false)])
  }

  // ----- the driver -----

  function Adopt(p: Peer, h: HandleId): Peer
    requires h in p.queues
  {
    p.(queues := p.queues[h := p.queues[h].(adopted := true)])
  }

  function CommandFrame(c: Command): Frame {
    match c
    case SendFrame(f) => f
    case CloseStream(id) => FinFrame(id)
  }

  function Later(p: Peer, h: HandleId): map<HandleId, Queue>
    requires h in p.queues && |p.queues[h].cmds| > 0
  {
    p.queues[h := p.queues[h].(cmds := p.queues[h].cmds[1..])]
  }

  datatype Emission = Emission(peer: Peer, frame: Option<Frame>)

  /** What the driver puts on a socket that accepts a frame: a termination first,
      then a pong, then the outbound stream frame. */
  function Emit(p: Peer): Emission {
    if p.drv.pendingTerminate.Some? then
      Emission(p.(drv := p.drv.(pendingTerminate := None)), p.drv.pendingTerminate)
    else if p.drv.pendingPong.Some? then
      Emission(p.(drv := p.drv.(pendingPong := None)), Some(PongFrame(p.drv.pendingPong.value)))
    else if p.drv.pendingWrite.Some? then
      Emission(p.(drv := p.drv.(pendingWrite := None)), p.drv.pendingWrite)
    else Emission(p, None)
  }

  function FlushOwed(p: Peer, id: StreamId): Peer
    requires id in p.reg.owed
  {
    p.(reg := p.reg.(owed := p.reg.owed - {id}, slotWaiters := {}), drv := p.drv.(pendingWrite := Some(p.reg.owed[id])))
  }

  function TakeCommand(p: Peer, h: HandleId): Peer
    requires h in p.queues && |p.queues[h].cmds| > 0
  {
    p.(queues := Later(p, h), drv := p.drv.(pendingWrite := Some(CommandFrame(p.queues[h].cmds[0]))))
  }

  /** The close frame owed for a stream reaped in state `s`. */
  function CloseOwed(id: StreamId, s: State): Option<Frame> {
    match s
    case Open => Some(RstFrame(id))
    case RecvClosed => Some(FinFrame(id))
    case SendClosed => None
    case Closed => None
  }

  /** `Arc::strong_count` above one: some handle still holds the record. */
  predicate HeldByHandle(handles: map<HandleId, Ref>, r: Ref) { exists h :: h in handles && handles[h] == r }

  /** The last handle of an active stream is gone. */
  function ReapActive(reg: Registry, id: StreamId): Registry
    requires id in reg.streams && reg.streams[id] in reg.heap
  {
    var r := reg.streams[id];
    var close := CloseOwed(id, reg.heap[r].state);
    var left := FreeRecord(reg, r).(streams := reg.streams - {id});
    if close.Some? then left.(owed := left.owed[id := close.value]) else left.(slotWaiters := {})
  }

  function ReapInactive(reg: Registry, id: StreamId): Registry
    requires id in reg.inactive && reg.inactive[id] in reg.heap
  {
    FreeRecord(reg, reg.inactive[id]).(inactive := reg.inactive - {id})
  }

  /** The end of queue `h` was reported: reap the stream unless a sibling handle lives. */
  function OnDropStream(p: Peer, h: HandleId): Peer
    requires RegistryInHeap(p.reg)
  {
    var id := h.id;
    var p := p.(queues := p.queues - {h});
    if id in p.reg.streams && HeldByHandle(p.handles, p.reg.streams[id]) then p
    else if id in p.reg.inactive && HeldByHandle(p.handles, p.reg.inactive[id]) then p
    else if id in p.reg.streams then
      p.(reg := ReapActive(p.reg, id), hist := p.hist.(reaped := p.hist.reaped + {id}))
    else if id in p.reg.inactive then p.(reg := ReapInactive(p.reg, id))
    else p
  }

  datatype Action = Continue | Pong(nonce: int) | Answered | Leave(code: int) | Terminate | Panic

  datatype Handled = Handled(reg: Registry, action: Action)

  function PeerReset(reg: Registry, id: StreamId): Registry {
    if id in reg.streams && reg.streams[id] in reg.heap then
      SetShared(reg, reg.streams[id], WakeBoth(Mark(reg.heap[reg.streams[id]], RemoteRst)))
    else reg
  }

  function Received(sh: Shared, f: Frame): Shared {
    var s := if f.header.flags.fin then Mark(sh, RemoteFin) else sh;
    s.(recv := s.recv - |f.body|, buffer := s.buffer + f.body, reader := false)
  }

  function Deliver(reg: Registry, f: Frame): Handled
    requires f.header.id in reg.streams && reg.streams[f.header.id] in reg.heap
  {
    var r := reg.streams[f.header.id];
    if |f.body| > reg.heap[r].recv then Handled(reg, Terminate)
    else Handled(SetShared(reg, r, Received(reg.heap[r], f)), Continue)
  }

  ghost predicate RegistryInHeap(reg: Registry) {
    && (forall id :: id in reg.streams ==> reg.streams[id] in reg.heap)
    && (forall id :: id in reg.inactive ==> reg.inactive[id] in reg.heap)
  }

  function OnData(reg: Registry, f: Frame): Handled
    requires RegistryInHeap(reg)
  {
    var id := f.header.id;
    if f.header.flags.rst then Handled(PeerReset(reg, id), Continue)
    else if id == SESSION then Handled(reg, Terminate)
    else if id !in reg.streams then
      if !f.header.flags.syn then Handled(reg, Continue)
      else if |f.body| > DEFAULT_CREDIT then Handled(reg, Terminate)
      else if |reg.streams| >= reg.cfg.maxStreams then Handled(reg, Terminate)
      else Deliver(Admit(reg, id), f)
    else Deliver(reg, f)
  }

  function OnWindowUpdate(reg: Registry, f: Frame): Handled
    requires RegistryInHeap(reg)
  {
    var id := f.header.id;
    if id !in reg.streams then Handled(reg, Continue)
    else
      var r := reg.streams[id];
      var sh := reg.heap[r];
      if sh.send + f.header.length > U32_MAX then Handled(reg, Panic)
      else Handled(SetShared(reg, r, sh.(send := sh.send + f.header.length, writer := false)), Continue)
  }

  function OnPing(p: Peer, f: Frame): Action {
    if f.header.flags.ack then
      if p.drv.awaitingPong == Some(f.header.length) then Answered else Terminate
    else if f.header.id == SESSION || f.header.id in p.reg.streams then Pong(f.header.length)
    else Continue
  }

  function OnFrame(p: Peer, f: Frame): Handled
    requires RegistryInHeap(p.reg)
  {
    if p.drv.terminating then Handled(p.reg, Continue)
    else
      match f.header.tag
      case Data => OnData(p.reg, f)
      case WindowUpdate => OnWindowUpdate(p.reg, f)
      case Ping => Handled(p.reg, OnPing(p, f))
      case GoAway => Handled(p.reg, Leave(f.header.length))
  }

  function React(drv: Driver, a: Action): Driver {
    match a
    case Continue => drv
    case Pong(nonce) => drv.(pendingPong := Some(nonce))
    case Answered => drv.(awaitingPong := None)
    case Leave(code) => drv.(phase := HungUp(code))
    case Terminate => drv.(terminating := true, pendingTerminate := Some(PROTOCOL_ERROR))
    case Panic => drv.(phase := Panicked)
  }

  /** Read one frame off the socket and note what it asks for. */
  function Receive(p: Peer, f: Frame): Peer
    requires RegistryInHeap(p.reg)
  {
    var h := OnFrame(p, f);
    p.(reg := h.reg, drv := React(p.drv, h.action))
  }

  // ----- leaving the active state -----

  function OptFrame(f: Option<Frame>): seq<Frame> { if f.Some? then [f.value] else [] }

  function OptPong(n: Option<int>): seq<Frame> { if n.Some? then [PongFrame(n.value)] else [] }

  /** The owed frames in the order the map yields its keys. */
  function OwedFrames(owed: map<StreamId, Frame>, order: seq<StreamId>): seq<Frame>
    requires forall id :: id in order ==> id in owed
  {
    if order == [] then [] else [owed[order[0]]] + OwedFrames(owed, order[1..])
  }

  ghost predicate KeyOrder(owed: map<StreamId, Frame>, order: seq<StreamId>) {
    && (forall id :: id in order <==> id in owed)
    && |order| == |owed|
  }

  /** Every registered stream stops receiving, and everyone parked is woken. */
  function StopReceiving(reg: Registry): Registry {
    reg.(slotWaiters := {}, heap := map r | r in reg.heap :: WakeBoth(Mark(reg.heap[r], LeftActive)))
  }

  /** `close`: shut the command channels and keep what still has to go out. */
  function BeginClose(p: Peer, order: seq<StreamId>): Peer
    requires KeyOrder(p.reg.owed, order)
  {
    p.(reg := StopReceiving(p.reg),
       queues := map h | h in p.queues :: p.queues[h].(adopted := true),
       drv := p.drv.(phase := Draining, pendingTerminate := None, pendingPong := None, pendingWrite := None,
                     backlog := OptFrame(p.drv.pendingTerminate) + OptPong(p.drv.pendingPong)
                                + OptFrame(p.drv.pendingWrite) + OwedFrames(p.reg.owed, order)))
  }

  function DrainCommand(p: Peer, h: HandleId): Peer
    requires h in p.queues && |p.queues[h].cmds| > 0
  {
    p.(queues := Later(p, h), drv := p.drv.(backlog := p.drv.backlog + [CommandFrame(p.queues[h].cmds[0])]))
  }

  function FinishDrain(p: Peer): Peer {
    p.(drv := p.drv.(phase := Flushing, backlog := p.drv.backlog + [TERM]))
  }

  function FlushBacklog(p: Peer): Emission {
    if p.drv.backlog == [] then Emission(p, None)
    else Emission(p.(drv := p.drv.(backlog := p.drv.backlog[1..])), Some(p.drv.backlog[0]))
  }

  // ----- steps -----

  /** One atomic step: a handle call, one action of a driver iteration, or one
      action of the closing future. */
  datatype Step =
    | Opening(h: HandleId)
    | Writing(h: HandleId, data: seq<byte>)
    | Reading(h: HandleId, n: nat, tune: bool)
    | Shutting(h: HandleId)
    | Releasing(h: HandleId)
    | HangingUp(h: HandleId)
    | Adopting(h: HandleId)
    | Pinging(nonce: int)
    | Emitting
    | FlushingOwed(id: StreamId)
    | Taking(h: HandleId)
    | Reaping(h: HandleId)
    | Receiving(f: Frame)
    | Closing(order: seq<StreamId>)
    | DrainingOne(h: HandleId)
    | DrainDone
    | FlushingOne

  /** The driver looks at commands and at ends of queues only with nothing
      pending to write and no owed close frame staged. */
  predicate OutboundIdle(p: Peer) { p.drv.pendingWrite.None? && p.reg.owed == map[] }

  ghost predicate Enabled(p: Peer, s: Step) {
    && !p.drv.phase.Panicked?
    && RegistryInHeap(p.reg)
    && match s
       case Opening(h) => CanOpen(p, h)
       case Writing(h, _) => Usable(p, h)
       case Reading(h, _, _) => Usable(p, h)
       case Shutting(h) => Usable(p, h)
       case Releasing(h) => h in p.handles
       case HangingUp(h) => h in p.queues && h !in p.handles
       case Adopting(h) => p.drv.phase.Active? && h in p.queues
       case Pinging(n) => p.drv.phase.Active? && p.drv.awaitingPong.None? && 0 <= n <= U32_MAX
       case Emitting => p.drv.phase.Active? && Emit(p).frame.Some?
       case FlushingOwed(id) => p.drv.phase.Active? && p.drv.pendingWrite.None? && id in p.reg.owed
       case Taking(h) =>
         p.drv.phase.Active? && OutboundIdle(p) && h in p.queues && p.queues[h].adopted && |p.queues[h].cmds| > 0
       case Reaping(h) =>
         && p.drv.phase.Active? && OutboundIdle(p) && h in p.queues && p.queues[h].adopted
         && p.queues[h].cmds == [] && !p.queues[h].senderAlive
       case Receiving(f) =>
         p.drv.phase.Active? && (p.drv.pendingWrite.None? ==> p.reg.owed == map[]) && WellFormed(f)
       case Closing(order) =>
         && (p.drv.phase.Active? || (p.drv.phase == HungUp(0) && p.reg.cfg.closeSync))
         && KeyOrder(p.reg.owed, order)
       case DrainingOne(h) => p.drv.phase.Draining? && h in p.queues && |p.queues[h].cmds| > 0
       case DrainDone => p.drv.phase.Draining? && forall h :: h in p.queues ==> p.queues[h].cmds == []
       case FlushingOne => p.drv.phase.Flushing? && p.drv.backlog != []
  }

  /** A step, with whatever it puts on the wire noted in the history. */
  function Apply(p: Peer, s: Step): Emission
    requires Enabled(p, s)
  {
    var e := Act(p, s);
    Emission(e.peer.(hist := e.peer.hist.(sent := e.peer.hist.sent + OptFrame(e.frame))), e.frame)
  }

  function Act(p: Peer, s: Step): Emission
    requires Enabled(p, s)
  {
    match s
    case Opening(h) => Emission(NewStream(p, h), None)
    case Writing(h, data) => Emission(PollWrite(p, h, data).peer, None)
    case Reading(h, n, tune) => Emission(PollRead(p, h, n, tune).peer, None)
    case Shutting(h) => Emission(PollClose(p, h).peer, None)
    case Releasing(h) => Emission(Release(p, h), None)
    case HangingUp(h) => Emission(Hangup(p, h), None)
    case Adopting(h) => Emission(Adopt(p, h), None)
    case Pinging(n) => Emission(p.(drv := p.drv.(awaitingPong := Some(n))), Some(PingFrame(n)))
    case Emitting => Emit(p)
    case FlushingOwed(id) => Emission(FlushOwed(p, id), None)
    case Taking(h) => Emission(TakeCommand(p, h), None)
    case Reaping(h) => Emission(OnDropStream(p, h), None)
    case Receiving(f) => Emission(Receive(p, f), None)
    case Closing(order) => Emission(BeginClose(p, order), None)
    case DrainingOne(h) => Emission(DrainCommand(p, h), None)
    case DrainDone => Emission(FinishDrain(p), None)
    case FlushingOne => FlushBacklog(p)
  }
}
