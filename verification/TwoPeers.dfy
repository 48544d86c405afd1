/** Two peers joined by two FIFO links: every interleaving of handle calls, driver
    actions and frame deliveries. */
module TwoPeers {
  import opened Frames
  import opened Basics
  import opened StreamModel
  import opened PeerModel
  import opened PeerInvariants
  import PeerRuns
  import L = LaneModel
  import opened LaneView

  datatype Sys = Sys(a: Peer, b: Peer, ab: seq<Frame>, ba: seq<Frame>)

  function Flip(s: Sys): Sys { Sys(s.b, s.a, s.ba, s.ab) }

  /** A step of one side: one of its own, the delivery of the next frame, or (once
      its closing future only waits for a reply) dropping it. */
  datatype Move = Own(step: Step) | Delivery | Dropping

  ghost predicate StepA(s: Sys, m: Move, t: Sys) {
    match m
    case Own(step) =>
      && !step.Receiving? && (step.Opening? ==> step.h.k == 0)
      && Enabled(s.a, step)
      && t == Sys(Apply(s.a, step).peer, s.b, s.ab + OptFrame(Apply(s.a, step).frame), s.ba)
    case Delivery =>
      && s.ba != [] && Enabled(s.a, Receiving(s.ba[0]))
      && t == Sys(Apply(s.a, Receiving(s.ba[0])).peer, s.b, s.ab, s.ba[1..])
    case Dropping =>
      && s.ba != [] && s.a.drv.phase.Flushing? && s.a.drv.backlog == []
      && t == s.(ba := s.ba[1..])
  }

  ghost predicate Next(s: Sys, t: Sys) {
    (exists m :: StepA(s, m, t)) || (exists m :: StepA(Flip(s), m, Flip(t)))
  }

  /** Neither side has decided to terminate. */
  predicate Calm(s: Sys) { !s.a.drv.terminating && !s.b.drv.terminating }

  // ----- what is on the wire -----

  predicate Sound(f: Frame) {
    WellFormed(f) && (f.header.id == SESSION <==> f.header.tag.Ping? || f.header.tag.GoAway?)
  }

  predicate AllSound(fs: seq<Frame>) { forall i :: 0 <= i < |fs| ==> Sound(fs[i]) }

  predicate StreamFrame(f: Frame) { Sound(f) && (f.header.tag.Data? || f.header.tag.WindowUpdate?) }

  /** Frames wait in the places the driver expects, all of them well formed. */
  ghost predicate WireOk(p: Peer) {
    && AllSound(p.drv.backlog)
    && (p.drv.pendingWrite.Some? ==> StreamFrame(p.drv.pendingWrite.value))
    && (forall id :: id in p.reg.owed ==> StreamFrame(p.reg.owed[id]))
    && (forall h, i :: h in p.queues && 0 <= i < |p.queues[h].cmds| ==> StreamFrame(CommandFrame(p.queues[h].cmds[i])))
    && (p.drv.pendingPong.Some? ==> 0 <= p.drv.pendingPong.value <= U32_MAX)
    && (!p.drv.terminating ==> p.drv.pendingTerminate.None?)
    && (ChannelsClosed(p) ==> p.drv.pendingWrite.None? && p.drv.pendingPong.None?)
    && p.reg.cfg.splitSend <= MAX_BODY
  }

  ghost predicate PeerOk(p: Peer) { Inv(p) && Single(p) && WireOk(p) && !p.drv.phase.Panicked? }

  function Path(link: seq<Frame>, p: Peer, id: StreamId): seq<Frame> { Only(link, id) + Waiting(p, id) }

  ghost predicate LaneOk(s: Sys, id: StreamId) {
    L.LaneInv(EndOf(s.a, id), EndOf(s.b, id), Path(s.ab, s.a, id), Path(s.ba, s.b, id))
  }

  /** What a peer has sent and will still send for an id is what was written. */
  ghost predicate Accounted(p: Peer, id: StreamId) { L.Bytes(Path(p.hist.sent, p, id)) == Log(p.hist.written, id) }

  ghost predicate LanesOk(s: Sys) {
    forall id :: id != SESSION ==> LaneOk(s, id) && Accounted(s.a, id) && Accounted(s.b, id)
  }

  // ----- pings -----

  function Acks(fs: seq<Frame>): seq<int> {
    if fs == [] then []
    else (if fs[0].header.tag.Ping? && fs[0].header.flags.ack then [fs[0].header.length] else []) + Acks(fs[1..])
  }

  function Requests(fs: seq<Frame>): seq<int> {
    if fs == [] then []
    else (if fs[0].header.tag.Ping? && !fs[0].header.flags.ack then [fs[0].header.length] else []) + Requests(fs[1..])
  }

  function OptNonce(n: Option<int>): seq<int> { if n.Some? then [n.value] else [] }

  /** Where the nonce of an unanswered ping of `a` is. */
  function Tokens(a: Peer, b: Peer, ab: seq<Frame>, ba: seq<Frame>): seq<int> {
    Acks(ba) + Acks(b.drv.backlog) + OptNonce(b.drv.pendingPong) + Requests(ab) + Requests(a.drv.backlog)
  }

  /** There is at most one, and it is the one `a` waits for. */
  predicate PingsOk(a: Peer, b: Peer, ab: seq<Frame>, ba: seq<Frame>) {
    Tokens(a, b, ab, ba) == [] || Tokens(a, b, ab, ba) == OptNonce(a.drv.awaitingPong)
  }

  // ----- goodbye -----

  predicate NoGoodbye(fs: seq<Frame>) { forall i :: 0 <= i < |fs| ==> !fs[i].header.tag.GoAway? }

  /** A goodbye is the last frame of a peer whose queues are empty. */
  ghost predicate GoodbyeLast(p: Peer, sent: seq<Frame>) {
    if p.drv.phase.Flushing? then
      && (forall h :: h in p.queues ==> p.queues[h].cmds == [])
      && sent + p.drv.backlog != [] && NoGoodbye((sent + p.drv.backlog)[..|sent + p.drv.backlog| - 1])
      && (sent + p.drv.backlog)[|sent + p.drv.backlog| - 1] == TERM
    else NoGoodbye(sent) && NoGoodbye(p.drv.backlog)
  }

  /** The frames on a link are the last ones that its sender has sent. */
  predicate LinkOk(p: Peer, link: seq<Frame>) {
    |link| <= |p.hist.sent| && link == p.hist.sent[|p.hist.sent| - |link|..]
  }

  ghost predicate SysInv(s: Sys) {
    && PeerOk(s.a) && PeerOk(s.b) && AllSound(s.ab) && AllSound(s.ba) && LanesOk(s)
    && PingsOk(s.a, s.b, s.ab, s.ba) && PingsOk(s.b, s.a, s.ba, s.ab)
    && GoodbyeLast(s.a, s.a.hist.sent) && GoodbyeLast(s.b, s.b.hist.sent) && LinkOk(s.a, s.ab) && LinkOk(s.b, s.ba)
  }
}
