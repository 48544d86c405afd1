/** What the answers of a peer say: the number a write returns, the bytes a read returns,
    when a call parks, ends or fails, and how pings are answered
    (mux/mux/src/connection/stream.rs and active.rs). */
module PeerAnswers {
  import opened Basics
  import opened Frames
  import opened StreamModel
  import opened PeerModel
  import opened PeerInvariants
  import PeerRuns

  /** The record of a live handle. */
  function RecordOf(p: Peer, h: HandleId): Shared
    requires Usable(p, h)
  {
    p.reg.heap[p.handles[h]]
  }

  /** Only the bytes logged for `id` change: they grow by `more`. */
  ghost predicate LogGrows(before: map<StreamId, seq<byte>>, after: map<StreamId, seq<byte>>, id: StreamId, more: seq<byte>) {
    Log(after, id) == Log(before, id) + more && forall i: StreamId :: i != id ==> Log(after, i) == Log(before, i)
  }

  /** A slot is held, or free. */
  predicate CanActivate(p: Peer, h: HandleId)
    requires Usable(p, h)
  {
    RecordOf(p, h).activated || |p.reg.streams| + |p.reg.owed| < p.reg.cfg.maxStreams
  }

  // ----- writing -----

  /** The reply is the number of bytes taken, from the front of what was offered: as many
      as the window and the split size allow, and all of them if both do. */
  ghost predicate Took(p: Peer, h: HandleId, data: seq<byte>, n: int, q: Peer)
    requires Usable(p, h)
  {
    var sh := RecordOf(p, h);
    && 0 <= n <= |data| && n <= sh.send && n <= p.reg.cfg.splitSend
    && (data != [] && p.reg.cfg.splitSend >= 1 ==> n > 0)
    && (|data| <= sh.send && |data| <= p.reg.cfg.splitSend ==> n == |data|)
    && (n < |data| ==> n == sh.send || n == p.reg.cfg.splitSend)
    && LogGrows(p.hist.written, q.hist.written, h.id, data[..n])
    && q.queues == p.queues[h := p.queues[h].(cmds := p.queues[h].cmds + [SendFrame(DataFrame(h.id, data[..n], sh.synPending || !sh.activated))])]
    && Usable(q, h) && RecordOf(q, h).send == sh.send - n && RecordOf(q, h).activated && !RecordOf(q, h).synPending
  }

  /** When a write is refused, fails or takes bytes, and what it takes. */
  ghost predicate WriteAnswers(p: Peer, h: HandleId, data: seq<byte>, c: Called)
    requires Usable(p, h)
  {
    var sh := RecordOf(p, h);
    && (c.reply.Wrote? <==> !ChannelsClosed(p) && CanActivate(p, h) && !QueueFull(p, h) && CanWrite(sh.state) && sh.send > 0)
    && (!c.reply.Wrote? ==> c.peer.hist == p.hist && c.peer.queues == p.queues)
    && match c.reply
       case Wrote(n) => Took(p, h, data, n, c.peer)
       case WriteZero => ChannelsClosed(p) || (!CanWrite(sh.state) && CanActivate(p, h))
       case Parked =>
         && !ChannelsClosed(p)
         && (if !CanActivate(p, h) then h in c.peer.reg.slotWaiters
             else QueueFull(p, h) || (CanWrite(sh.state) && sh.send == 0 && Usable(c.peer, h) && RecordOf(c.peer, h).writer))
       case _ => false
  }

  lemma WriteMeans(p: Peer, h: HandleId, data: seq<byte>)
    requires Inv(p) && h in p.handles && Usable(p, h)
    ensures WriteAnswers(p, h, data, PollWrite(p, h, data))
  {
    WindowOf(p, h);
    Activates(p, h);
    hide Inv, PollActivate, SendData, WriteAnswers, CanActivate;
    var act := PollActivate(p, h);
    if act.reply.Parked? {
      NoSlotMeans(p, h, data, act);
    } else {
      SendMeans(p, act.peer, h, data);
    }
  }

  lemma NoSlotMeans(p: Peer, h: HandleId, data: seq<byte>, c: Called)
    requires Usable(p, h) && !CanActivate(p, h) && !ChannelsClosed(p) && c.reply.Parked? && h in c.peer.reg.slotWaiters
    requires c.peer.hist == p.hist && c.peer.queues == p.queues
    ensures WriteAnswers(p, h, data, c)
  {
    hide CanActivate;
  }

  lemma WindowOf(p: Peer, h: HandleId)
    requires Inv(p) && h in p.handles
    ensures Usable(p, h) && 0 <= RecordOf(p, h).send <= U32_MAX && 0 <= p.reg.cfg.splitSend
  {
    PeerRuns.HandleRecord(p, h);
    hide RecordsOk, RegistryOk, HandlesOk, QueuesOk, NoLeak, SlotsOk, WaitersInactive, WaitersOpened, FinsTold, Total, Spare, Build;
  }

  /** Activation changes nothing but the slot and the SYN that is owed. */
  lemma Activates(p: Peer, h: HandleId)
    requires Inv(p) && h in p.handles && Usable(p, h)
    ensures var c := PollActivate(p, h);
            && c.peer.handles == p.handles && c.peer.queues == p.queues && c.peer.hist == p.hist && c.peer.drv == p.drv && c.peer.reg.cfg == p.reg.cfg
            && Usable(c.peer, h)
            && (if CanActivate(p, h) then
                  && c.reply == Done
                  && RecordOf(c.peer, h) == RecordOf(p, h).(activated := true, synPending := RecordOf(p, h).synPending || !RecordOf(p, h).activated)
                else if ChannelsClosed(p) then c == Called(p, Done)
                else c.reply == Parked && h in c.peer.reg.slotWaiters)
  {
    if !RecordOf(p, h).activated { PeerRuns.AdoptionNeverHappens(p, h); }
    hide Inv;
  }

  /** `m` is `p` once the stream is active, or cannot be. */
  ghost predicate Ready(p: Peer, m: Peer, h: HandleId)
    requires Usable(p, h)
  {
    && Usable(m, h) && m.handles == p.handles && m.queues == p.queues && m.hist == p.hist && m.drv == p.drv && m.reg.cfg == p.reg.cfg
    && 0 <= RecordOf(p, h).send <= U32_MAX && 0 <= p.reg.cfg.splitSend
    && if CanActivate(p, h) then
         RecordOf(m, h) == RecordOf(p, h).(activated := true, synPending := RecordOf(p, h).synPending || !RecordOf(p, h).activated)
       else ChannelsClosed(p)
  }

  lemma SendMeans(p: Peer, m: Peer, h: HandleId, data: seq<byte>)
    requires Usable(p, h) && Ready(p, m, h)
    ensures WriteAnswers(p, h, data, SendData(m, h, data))
  {
    hide Portion, LogGrows, Log, Took;
    var sh := RecordOf(p, h);
    if !ChannelsClosed(p) && !QueueFull(p, h) && CanWrite(sh.state) && sh.send > 0 {
      SendTakes(p, m, h, data);
    }
  }

  lemma SendTakes(p: Peer, m: Peer, h: HandleId, data: seq<byte>)
    requires Usable(p, h) && Ready(p, m, h)
    requires !ChannelsClosed(p) && !QueueFull(p, h) && CanWrite(RecordOf(p, h).state) && RecordOf(p, h).send > 0 && CanActivate(p, h)
    ensures var c := SendData(m, h, data); c.reply.Wrote? && Took(p, h, data, c.reply.n, c.peer)
  {
    hide Portion, LogGrows, Log, CanActivate, SendData;
    var sh := RecordOf(p, h);
    PortionMeans(p.reg.cfg, sh.send, |data|);
    var k := Portion(p.reg.cfg, sh.send, |data|);
    SendChanges(m, h, data, k);
    Logged(p.hist.written, h.id, data[..k]);
  }

  lemma SendChanges(m: Peer, h: HandleId, data: seq<byte>, k: int)
    requires Usable(m, h) && k == Portion(m.reg.cfg, RecordOf(m, h).send, |data|) && 0 <= k <= |data|
    requires !ChannelsClosed(m) && !QueueFull(m, h) && CanWrite(RecordOf(m, h).state) && RecordOf(m, h).send > 0
    ensures var c := SendData(m, h, data); var q := c.peer;
            && c.reply == Wrote(k) && Usable(q, h) && RecordOf(q, h) == RecordOf(m, h).(send := RecordOf(m, h).send - k, synPending := false)
            && q.hist.written == m.hist.written[h.id := Log(m.hist.written, h.id) + data[..k]]
            && q.queues == m.queues[h := m.queues[h].(cmds := m.queues[h].cmds + [SendFrame(DataFrame(h.id, data[..k], RecordOf(m, h).synPending))])]
  {
    hide Portion, Log;
  }

  lemma PortionMeans(cfg: Config, send: int, wanted: int)
    requires 0 <= send <= U32_MAX && 0 <= cfg.splitSend && 0 <= wanted
    ensures var k := Portion(cfg, send, wanted);
            && 0 <= k <= wanted && k <= send && k <= cfg.splitSend && (k == wanted || k == send || k == cfg.splitSend)
            && (send > 0 && wanted > 0 && cfg.splitSend > 0 ==> k > 0)
  {
  }

  lemma Logged(log: map<StreamId, seq<byte>>, id: StreamId, more: seq<byte>)
    ensures LogGrows(log, log[id := Log(log, id) + more], id, more)
  {
  }

  // ----- reading -----

  /** A read gives the front of the buffer, as much as was asked for and is there. With
      nothing to give it ends if nothing can come any more, and is parked otherwise. */
  ghost predicate ReadAnswers(p: Peer, h: HandleId, n: nat, c: Called)
    requires Usable(p, h)
  {
    var sh := RecordOf(p, h);
    var over := !CanRead(sh.state) || (ChannelsClosed(p) && !p.reg.cfg.readAfterClose);
    && Usable(c.peer, h) && c.peer.hist.written == p.hist.written
    && (c.reply.Got? <==> n > 0 && sh.buffer != [])
    && match c.reply
       case Got(bytes) =>
         && sh.buffer == bytes + RecordOf(c.peer, h).buffer && |bytes| <= n && (|bytes| < n ==> RecordOf(c.peer, h).buffer == [])
         && LogGrows(p.hist.read, c.peer.hist.read, h.id, bytes)
       case Eof => over && c.peer.hist == p.hist && RecordOf(c.peer, h).buffer == sh.buffer
       case Parked => !over && c.peer.hist == p.hist && RecordOf(c.peer, h).buffer == sh.buffer && RecordOf(c.peer, h).reader
       case _ => false
  }

  lemma ReadMeans(p: Peer, h: HandleId, n: nat, tune: bool)
    requires Usable(p, h)
    ensures ReadAnswers(p, h, n, PollRead(p, h, n, tune))
  {
    GrantLeaves(p, h, tune);
    hide SendWindowUpdate, ReadBuffer, LogGrows;
    BufferMeans(SendWindowUpdate(p, h, tune), h, n, !ChannelsClosed(p) && !QueueFull(p, h));
  }

  lemma BufferMeans(p: Peer, h: HandleId, n: nat, room: bool)
    requires Usable(p, h)
    ensures ReadAnswers(p, h, n, ReadBuffer(p, h, n, room))
  {
    var buffer := RecordOf(p, h).buffer;
    var k := Min(n, |buffer|);
    assert k >= 0 && buffer == buffer[..k] + buffer[k..];
  }

  lemma GrantLeaves(p: Peer, h: HandleId, tune: bool)
    requires Usable(p, h)
    ensures var q := SendWindowUpdate(p, h, tune);
            && Usable(q, h) && q.handles == p.handles && q.hist == p.hist && q.drv == p.drv && q.reg.cfg == p.reg.cfg
            && RecordOf(q, h).buffer == RecordOf(p, h).buffer && RecordOf(q, h).state == RecordOf(p, h).state
  {
    hide NextGrant;
  }

  /** A read queues a window update exactly if the stream can still receive, the channel has
      room, and half of the window was free before the read. It carries the credit by
      which the window grows, and what the read takes is not yet part of that. */
  lemma ReadGrants(p: Peer, h: HandleId, n: nat, tune: bool)
    requires Inv(p) && h in p.handles && Usable(p, h)
    ensures var q := PollRead(p, h, n, tune).peer; var sh := RecordOf(p, h);
            var due := CanRead(sh.state) && !ChannelsClosed(p) && !QueueFull(p, h) && sh.maxRecv - sh.recv - |sh.buffer| >= sh.maxRecv / 2;
            && Usable(q, h) && var now := RecordOf(q, h);
            && q.queues[h].cmds == p.queues[h].cmds + (if due then [SendFrame(CreditFrame(h.id, now.recv - sh.recv))] else [])
            && (if due then now.recv + |sh.buffer| == now.maxRecv else now.recv == sh.recv && now.maxRecv == sh.maxRecv)
            && q.reg.accumulated - p.reg.accumulated == now.maxRecv - sh.maxRecv
  {
    hide Inv, SendWindowUpdate, ReadBuffer;
    GrantIsSent(p, h, tune);
    GrantLeaves(p, h, tune);
    TakingKeepsWindows(SendWindowUpdate(p, h, tune), h, n, !ChannelsClosed(p) && !QueueFull(p, h));
  }

  lemma TakingKeepsWindows(p: Peer, h: HandleId, n: nat, room: bool)
    requires Usable(p, h)
    ensures var q := ReadBuffer(p, h, n, room).peer;
            && Usable(q, h) && q.queues == p.queues && q.reg.accumulated == p.reg.accumulated
            && RecordOf(q, h).recv == RecordOf(p, h).recv && RecordOf(q, h).maxRecv == RecordOf(p, h).maxRecv
  {
  }

  lemma GrantIsSent(p: Peer, h: HandleId, tune: bool)
    requires Inv(p) && h in p.handles && Usable(p, h)
    ensures var q := SendWindowUpdate(p, h, tune); var sh := RecordOf(p, h);
            var due := CanRead(sh.state) && !ChannelsClosed(p) && !QueueFull(p, h) && sh.maxRecv - sh.recv - |sh.buffer| >= sh.maxRecv / 2;
            && Usable(q, h) && var now := RecordOf(q, h);
            && q.queues[h].cmds == p.queues[h].cmds + (if due then [SendFrame(CreditFrame(h.id, now.recv - sh.recv))] else [])
            && (if due then now.recv + |now.buffer| == now.maxRecv else q == p)
            && q.reg.accumulated - p.reg.accumulated == now.maxRecv - sh.maxRecv
  {
    hide Inv, NextGrant;
    GrantOf(p, h, tune);
  }

  lemma GrantOf(p: Peer, h: HandleId, tune: bool)
    requires Inv(p) && h in p.handles && Usable(p, h)
    ensures var sh := RecordOf(p, h); var g := NextGrant(p.reg.cfg, p.reg.accumulated, sh, tune);
            && (g.Some? <==> sh.maxRecv - sh.recv - |sh.buffer| >= sh.maxRecv / 2)
            && (g.Some? ==> sh.recv + g.value.credit + |sh.buffer| == g.value.newMax)
  {
    PeerRuns.HandleRecord(p, h);
    var sh := RecordOf(p, h);
    PeerRuns.ExcessBound(p, p.handles[h]);
    GrantDoubles(p.reg.cfg, p.reg.accumulated, sh, tune);
    hide Inv, NextGrant;
    if NextGrant(p.reg.cfg, p.reg.accumulated, sh, tune).Some? { GrantKeepsWindows(p.reg.cfg, p.reg.accumulated, sh, tune); }
  }

  // ----- closing -----

  /** A close that is done leaves the sending half closed and the receiving half as it
      was: with nothing to send while the stream is inactive or closed both ways, and with a
      close command behind all else otherwise. */
  ghost predicate ShutAnswers(p: Peer, h: HandleId, c: Called)
    requires Usable(p, h)
  {
    var sh := RecordOf(p, h);
    var loud := sh.activated && !sh.state.Closed?;
    && (c.reply.Done? <==> !loud || (!ChannelsClosed(p) && !QueueFull(p, h)))
    && match c.reply
       case Done =>
         && Usable(c.peer, h) && !CanWrite(RecordOf(c.peer, h).state) && (CanRead(RecordOf(c.peer, h).state) <==> CanRead(sh.state))
         && c.peer.queues == if loud then p.queues[h := p.queues[h].(cmds := p.queues[h].cmds + [CloseStream(h.id)])] else p.queues
       case WriteZero => loud && ChannelsClosed(p) && c.peer == p
       case Parked => loud && QueueFull(p, h) && c.peer == p
       case _ => false
  }

  lemma ShutMeans(p: Peer, h: HandleId)
    requires Usable(p, h)
    ensures ShutAnswers(p, h, PollClose(p, h))
  {
  }

  // ----- pings and goodbyes -----

  /** A ping is answered with its own number, by the next frame that is not a termination;
      of several pings the last counts. */
  lemma PingIsAnswered(p: Peer, n: int)
    requires Enabled(p, Receiving(PingFrame(n))) && !p.drv.terminating
    ensures var q := Receive(p, PingFrame(n));
            && q.reg == p.reg && q.drv == p.drv.(pendingPong := Some(n))
            && (q.drv.pendingTerminate.None? ==> Emit(q).frame == Some(PongFrame(n)) && Emit(q).peer == p.(drv := p.drv.(pendingPong := None)))
  {
  }

  /** The reply that is awaited settles the ping; any other one is a protocol error. */
  lemma PongSettles(p: Peer, n: int)
    requires Enabled(p, Receiving(PongFrame(n))) && !p.drv.terminating
    ensures var q := Receive(p, PongFrame(n));
            && q.reg == p.reg
            && q.drv == if p.drv.awaitingPong == Some(n) then p.drv.(awaitingPong := None)
                        else p.drv.(terminating := true, pendingTerminate := Some(PROTOCOL_ERROR))
  {
  }

  /** From ping to settled ping: two peers, neither terminating, and the frames delivered. */
  lemma PingRoundTrip(p: Peer, q: Peer, n: int)
    requires Enabled(p, Pinging(n)) && !p.drv.terminating && !q.drv.terminating && q.drv.pendingTerminate.None?
    requires Enabled(q, Receiving(PingFrame(n))) && (p.drv.pendingWrite.None? ==> p.reg.owed == map[])
    ensures var sent := Apply(p, Pinging(n)); var answered := Apply(q, Receiving(PingFrame(n))).peer;
            && sent.frame == Some(PingFrame(n)) && sent.peer.drv.awaitingPong == Some(n)
            && Enabled(answered, Emitting) && Apply(answered, Emitting).frame == Some(PongFrame(n))
            && Enabled(sent.peer, Receiving(PongFrame(n)))
            && Apply(sent.peer, Receiving(PongFrame(n))).peer.drv == p.drv.(awaitingPong := None)
  {
    PingIsAnswered(q, n);
    var sent := Apply(p, Pinging(n)).peer;
    PongSettles(sent, n);
    hide OnFrame;
  }

  /** A goodbye ends the active state with its own code. */
  lemma GoodbyeLeaves(p: Peer, code: int)
    requires Enabled(p, Receiving(GoAwayFrame(code))) && !p.drv.terminating
    ensures Receive(p, GoAwayFrame(code)) == p.(drv := p.drv.(phase := HungUp(code)))
  {
  }

  /** Once terminating, a peer takes notice of no frame. */
  lemma TerminatingIgnores(p: Peer, f: Frame)
    requires Enabled(p, Receiving(f)) && p.drv.terminating
    ensures Receive(p, f) == p
  {
  }

  // ----- what a frame from the remote does -----

  /** The window that a data frame for `id` has to fit into. */
  function WindowFor(reg: Registry, id: StreamId): int {
    var r := RefOf(reg, id);
    if r.Some? && r.value in reg.heap then reg.heap[r.value].recv else DEFAULT_CREDIT
  }

  /** What a remote must not send: data for the session, data beyond the window, an opening
      frame beyond the default credit or for which there is no slot, and the reply to a ping
      that is not awaited. */
  predicate Offends(p: Peer, f: Frame) {
    var id := f.header.id;
    match f.header.tag
    case Data =>
      && !f.header.flags.rst
      && (id != SESSION && id !in p.reg.streams ==> f.header.flags.syn)
      && (id == SESSION || |f.body| > WindowFor(p.reg, id)
          || (id !in p.reg.streams && (|f.body| > DEFAULT_CREDIT || |p.reg.streams| >= p.reg.cfg.maxStreams)))
    case Ping => f.header.flags.ack && p.drv.awaitingPong != Some(f.header.length)
    case WindowUpdate => false
    case GoAway => false
  }

  /** A frame ends the connection exactly if it offends, leaves the active state exactly if
      it is a goodbye, and panics exactly if its credit overflows an active stream's window. */
  lemma ReceiveMeans(p: Peer, f: Frame)
    requires Inv(p) && Enabled(p, Receiving(f)) && !p.drv.terminating
    ensures var q := Receive(p, f); var tag := f.header.tag;
            && (q.drv.terminating <==> Offends(p, f))
            && q.drv.pendingTerminate == (if Offends(p, f) then Some(PROTOCOL_ERROR) else p.drv.pendingTerminate)
            && (q.drv.phase.Panicked? <==> tag.WindowUpdate? && f.header.id in p.reg.streams
                                           && p.reg.heap[p.reg.streams[f.header.id]].send + f.header.length > U32_MAX)
            && (q.drv.phase.HungUp? <==> tag.GoAway?) && (tag.GoAway? ==> q.drv.phase == HungUp(f.header.length))
            && q.drv.pendingPong == (if tag.Ping? && !f.header.flags.ack && (f.header.id == SESSION || f.header.id in p.reg.streams)
                                     then Some(f.header.length) else p.drv.pendingPong)
            && q.drv.awaitingPong == (if tag.Ping? && f.header.flags.ack && p.drv.awaitingPong == Some(f.header.length)
                                      then None else p.drv.awaitingPong)
  {
    hide RecordsOk, HandlesOk, QueuesOk, NoLeak, SlotsOk, WaitersInactive, WaitersOpened, FinsTold, BudgetOk, ConfigOk;
    if f.header.tag.Data? { DataMeans(p, f); }
  }

  lemma DataMeans(p: Peer, f: Frame)
    requires RegistryOk(p.reg) && RegistryInHeap(p.reg) && f.header.tag.Data?
    ensures var a := OnData(p.reg, f).action; a == if Offends(p, f) then Terminate else Continue
  {
  }

  // ----- what goes out, and in which order -----

  /** What is staged to go out, the session's frames first. */
  function Staged(drv: Driver): seq<Frame> {
    OptFrame(drv.pendingTerminate) + OptPong(drv.pendingPong) + OptFrame(drv.pendingWrite)
  }

  /** The driver sends what is staged from the front, until nothing is. */
  lemma StagedInOrder(p: Peer)
    ensures Staged(p.drv) == OptFrame(Emit(p).frame) + Staged(Emit(p).peer.drv)
    ensures Emit(p).frame.None? <==> Staged(p.drv) == []
  {
    var terminate, pong, write := OptFrame(p.drv.pendingTerminate), OptPong(p.drv.pendingPong), OptFrame(p.drv.pendingWrite);
    if terminate != [] {
      assert terminate + pong + write == terminate + ([] + pong + write);
    } else if pong != [] {
      assert [] + pong + write == pong + ([] + [] + write);
    } else {
      assert [] + [] + write == write + ([] + [] + []);
    }
  }

  /** A close hands over the same frames in the same order, with the owed ones behind. */
  lemma StagedIsHandedOver(p: Peer, order: seq<StreamId>)
    requires KeyOrder(p.reg.owed, order)
    ensures BeginClose(p, order).drv.backlog == Staged(p.drv) + OwedFrames(p.reg.owed, order)
  {
    hide KeyOrder, StopReceiving, OwedFrames;
  }

  /** A close keeps what is buffered, and which streams can still be written. */
  lemma CloseKeepsRecords(p: Peer, order: seq<StreamId>, r: Ref)
    requires KeyOrder(p.reg.owed, order) && r in p.reg.heap
    ensures var q := BeginClose(p, order);
            && r in q.reg.heap && q.reg.heap[r].buffer == p.reg.heap[r].buffer
            && CanWrite(q.reg.heap[r].state) == CanWrite(p.reg.heap[r].state) && !CanRead(q.reg.heap[r].state)
            && forall h :: h in p.queues ==> h in q.queues && q.queues[h].cmds == p.queues[h].cmds
  {
  }
}
