/** Once a connection has left the active state nobody is left waiting: readers get
    what is buffered and then the end, writers an error. */
module PeerClosing {
  import opened Basics
  import opened Frames
  import opened StreamModel
  import opened PeerModel
  import opened PeerInvariants
  import opened PeerRuns

  predicate Quiet(sh: Shared) { !CanRead(sh.state) && !sh.reader && !sh.writer }

  /** No record can receive any more, and no task is parked. */
  ghost predicate Deserted(reg: Registry) { reg.slotWaiters == {} && forall r :: r in reg.heap ==> Quiet(reg.heap[r]) }

  lemma StoppingDeserts(reg: Registry)
    ensures Deserted(StopReceiving(reg))
  {
  }

  // ----- what a handle gets from a deserted registry -----

  /** A read drains the buffer and then meets the end, and parks in no case. */
  lemma ReadDrainsThenEnds(p: Peer, h: HandleId, n: nat, tune: bool)
    requires Usable(p, h) && ChannelsClosed(p) && Deserted(p.reg)
    ensures var buffer := p.reg.heap[p.handles[h]].buffer;
            var c := PollRead(p, h, n, tune);
            && c.reply == (if n > 0 && buffer != [] then Got(buffer[..Min(n, |buffer|)]) else Eof)
            && Deserted(c.peer.reg) && c.peer.drv == p.drv
  {
  }

  /** A slot may still change hands, but the write meets a shut channel. */
  lemma WriteMeetsShutChannel(p: Peer, h: HandleId, data: seq<byte>)
    requires Usable(p, h) && ChannelsClosed(p) && Deserted(p.reg)
    ensures var c := PollWrite(p, h, data);
            c.reply == WriteZero && Deserted(c.peer.reg) && c.peer.drv == p.drv && c.peer.hist == p.hist
  {
  }

  lemma CloseMeetsShutChannel(p: Peer, h: HandleId)
    requires Usable(p, h) && ChannelsClosed(p) && Deserted(p.reg)
    ensures var c := PollClose(p, h);
            !c.reply.Parked? && Deserted(c.peer.reg) && c.peer.drv == p.drv
  {
  }

  // ----- every step after the close -----

  lemma StepDeserts(p: Peer, s: Step)
    requires Enabled(p, s) && (ChannelsClosed(p) ==> Deserted(p.reg)) && ChannelsClosed(Apply(p, s).peer)
    ensures Deserted(Apply(p, s).peer.reg)
  {
    hide PollRead, PollWrite, PollClose, BeginClose, Deserted;
    match s
    case Reading(h, n, tune) => StaysShut(p, s); ReadDrainsThenEnds(p, h, n, tune);
    case Writing(h, data) => StaysShut(p, s); WriteMeetsShutChannel(p, h, data);
    case Shutting(h) => StaysShut(p, s); CloseMeetsShutChannel(p, h);
    case Closing(order) => ClosingDeserts(p, order);
    case _ => OthersDesert(p, s);
  }

  lemma ClosingDeserts(p: Peer, order: seq<StreamId>)
    requires KeyOrder(p.reg.owed, order)
    ensures Deserted(BeginClose(p, order).reg)
  {
    hide Deserted, StopReceiving;
    StoppingDeserts(p.reg);
  }

  lemma ReadKeepsDriver(p: Peer, h: HandleId, n: nat, tune: bool)
    requires Usable(p, h)
    ensures PollRead(p, h, n, tune).peer.drv == p.drv && PollRead(p, h, n, tune).peer.hist.sent == p.hist.sent
  {
    hide NextGrant, Granted;
  }

  lemma WriteKeepsDriver(p: Peer, h: HandleId, data: seq<byte>)
    requires Usable(p, h)
    ensures PollWrite(p, h, data).peer.drv == p.drv && PollWrite(p, h, data).peer.hist.sent == p.hist.sent
  {
    hide TryClaimSlot, Portion;
  }

  lemma CloseKeepsDriver(p: Peer, h: HandleId)
    requires Usable(p, h)
    ensures PollClose(p, h).peer.drv == p.drv && PollClose(p, h).peer.hist.sent == p.hist.sent
  {
  }

  /** No handle call shuts the channels. */
  lemma StaysShut(p: Peer, s: Step)
    requires Enabled(p, s) && ChannelsClosed(Apply(p, s).peer) && (s.Reading? || s.Writing? || s.Shutting?)
    ensures ChannelsClosed(p)
  {
    hide PollRead, PollWrite, PollClose;
    match s
    case Reading(h, n, tune) => ReadKeepsDriver(p, h, n, tune);
    case Writing(h, data) => WriteKeepsDriver(p, h, data);
    case Shutting(h) => CloseKeepsDriver(p, h);
  }

  /** The other steps that are left after the close leave the registry alone. */
  lemma OthersDesert(p: Peer, s: Step)
    requires Enabled(p, s) && ChannelsClosed(Apply(p, s).peer)
    requires !s.Reading? && !s.Writing? && !s.Shutting? && !s.Closing?
    ensures ChannelsClosed(p) && Apply(p, s).peer.reg == p.reg
  {
    hide OnFrame, Attach, ReapActive, ReapInactive;
  }

  lemma {:induction false} RunDeserts(p: Peer, steps: seq<Step>, q: Peer)
    requires Run(p, steps, q) && (ChannelsClosed(p) ==> Deserted(p.reg)) && ChannelsClosed(q)
    ensures Deserted(q.reg)
    decreases |steps|
  {
    hide Enabled, Apply, Deserted;
    if steps != [] {
      var next := Apply(p, steps[0]).peer;
      if ChannelsClosed(next) { StepDeserts(p, steps[0]); }
      RunDeserts(next, steps[1..], q);
    }
  }

  /** After a close no task is parked, whatever the handles go on to do, and none of
      them will park: not to read, not to write, and not to close. */
  lemma NobodyWaitsAfterClose(cfg: Config, steps: seq<Step>, p: Peer, h: HandleId, n: nat, data: seq<byte>, tune: bool)
    requires Reached(cfg, steps, p) && ChannelsClosed(p) && Usable(p, h)
    ensures p.reg.slotWaiters == {} && forall r :: r in p.reg.heap ==> !p.reg.heap[r].reader && !p.reg.heap[r].writer
    ensures PollWrite(p, h, data).reply == WriteZero && !PollClose(p, h).reply.Parked?
    ensures var buffer := p.reg.heap[p.handles[h]].buffer;
            PollRead(p, h, n, tune).reply == if n > 0 && buffer != [] then Got(buffer[..Min(n, |buffer|)]) else Eof
  {
    hide PollRead, PollWrite, PollClose, Run;
    RunDeserts(NewPeer(cfg), steps, p);
    ReadDrainsThenEnds(p, h, n, tune);
    WriteMeetsShutChannel(p, h, data);
    CloseMeetsShutChannel(p, h);
  }

  function OtherSetting(p: Peer): Peer {
    p.(reg := p.reg.(cfg := p.reg.cfg.(readAfterClose := !p.reg.cfg.readAfterClose)))
  }

  lemma ActiveReadIgnoresSetting(p: Peer, h: HandleId, n: nat, tune: bool)
    requires Usable(p, h) && !ChannelsClosed(p)
    ensures PollRead(OtherSetting(p), h, n, tune).reply == PollRead(p, h, n, tune).reply
  {
  }

  /** The setting that allows or forbids reading after the close changes no read: what
      is buffered is read first in any case, and then the stream has ended anyway. */
  lemma ReadAfterCloseChangesNothing(cfg: Config, steps: seq<Step>, p: Peer, h: HandleId, n: nat, tune: bool)
    requires Reached(cfg, steps, p) && Usable(p, h)
    ensures PollRead(OtherSetting(p), h, n, tune).reply == PollRead(p, h, n, tune).reply
  {
    hide PollRead, Run;
    if ChannelsClosed(p) {
      RunDeserts(NewPeer(cfg), steps, p);
      ReadDrainsThenEnds(p, h, n, tune);
      ReadDrainsThenEnds(OtherSetting(p), h, n, tune);
    } else {
      ActiveReadIgnoresSetting(p, h, n, tune);
    }
  }

  // ----- cleaning up after an error -----

  /** Every record is closed and forgotten by the registry, and every channel is shut,
      as it is while draining. */
  function Abandon(p: Peer): Peer {
    p.(reg := p.reg.(streams := map[], inactive := map[], slotWaiters := {},
                     heap := map r | r in p.reg.heap :: Ended(p.reg.heap[r])),
       queues := map h | h in p.queues :: p.queues[h].(adopted := true),
       drv := p.drv.(phase := Draining))
  }

  function Ended(sh: Shared): Shared { WakeBoth(sh.(state := UpdateState(sh.state, State.Closed))) }

  lemma AbandonDeserts(p: Peer)
    ensures ChannelsClosed(Abandon(p)) && Deserted(Abandon(p).reg)
  {
  }

  /** An error leaves nobody waiting either: what is buffered can still be read. */
  lemma NobodyWaitsAfterError(p: Peer, h: HandleId, n: nat, data: seq<byte>, tune: bool)
    requires Usable(p, h)
    ensures var q := Abandon(p);
            var buffer := p.reg.heap[p.handles[h]].buffer;
            && Usable(q, h) && q.reg.slotWaiters == {}
            && PollWrite(q, h, data).reply == WriteZero && PollClose(q, h).reply == Done
            && PollRead(q, h, n, tune).reply == if n > 0 && buffer != [] then Got(buffer[..Min(n, |buffer|)]) else Eof
  {
    hide PollRead, PollWrite;
    var q := Abandon(p);
    assert q.reg.heap[p.handles[h]] == Ended(p.reg.heap[p.handles[h]]);
    AbandonDeserts(p);
    ReadDrainsThenEnds(q, h, n, tune);
    WriteMeetsShutChannel(q, h, data);
  }
}
