/** A ping is answered once, by the nonce its sender waits for, and a goodbye is
    the last frame that a peer sends. */
module TwoPeersPings {
  import opened Frames
  import opened Basics
  import opened StreamModel
  import opened PeerModel
  import opened PeerInvariants
  import PeerRuns
  import opened LaneView
  import opened TwoPeers

  // ----- frames without a nonce -----

  lemma {:induction false} AcksConcat(a: seq<Frame>, b: seq<Frame>)
    ensures Acks(a + b) == Acks(a) + Acks(b)
  {
    if a == [] {
      assert a + b == b;
    } else {
      assert (a + b)[1..] == a[1..] + b;
      AcksConcat(a[1..], b);
    }
  }

  lemma {:induction false} RequestsConcat(a: seq<Frame>, b: seq<Frame>)
    ensures Requests(a + b) == Requests(a) + Requests(b)
  {
    if a == [] {
      assert a + b == b;
    } else {
      assert (a + b)[1..] == a[1..] + b;
      RequestsConcat(a[1..], b);
    }
  }

  predicate Silent(f: Frame) { !f.header.tag.Ping? }

  lemma {:induction false} SilentFrames(fs: seq<Frame>)
    requires forall i :: 0 <= i < |fs| ==> Silent(fs[i])
    ensures Acks(fs) == [] && Requests(fs) == []
  {
    if fs != [] { SilentFrames(fs[1..]); }
  }

  lemma OneMore(fs: seq<Frame>, f: Frame)
    ensures Acks(fs + [f]) == Acks(fs) + (if f.header.tag.Ping? && f.header.flags.ack then [f.header.length] else [])
    ensures Requests(fs + [f]) == Requests(fs) + (if f.header.tag.Ping? && !f.header.flags.ack then [f.header.length] else [])
  {
    AcksConcat(fs, [f]);
    RequestsConcat(fs, [f]);
    assert [f][1..] == [];
  }

  lemma FrontAndRest(fs: seq<Frame>)
    requires fs != []
    ensures Acks(fs) == (if fs[0].header.tag.Ping? && fs[0].header.flags.ack then [fs[0].header.length] else []) + Acks(fs[1..])
    ensures Requests(fs) == (if fs[0].header.tag.Ping? && !fs[0].header.flags.ack then [fs[0].header.length] else []) + Requests(fs[1..])
  {
  }

  // ----- nonces -----

  ghost predicate AllPings(s: Sys) { PingsOk(s.a, s.b, s.ab, s.ba) && PingsOk(s.b, s.a, s.ba, s.ab) }

  lemma QuietPings(s: Sys, q: Peer)
    requires AllPings(s) && q.drv == s.a.drv.(pendingWrite := q.drv.pendingWrite, phase := q.drv.phase)
    ensures AllPings(s.(a := q))
  {
  }

  lemma SendSilentPings(s: Sys, q: Peer, f: Frame)
    requires AllPings(s) && Silent(f)
    requires q.drv == s.a.drv.(pendingWrite := q.drv.pendingWrite)
    ensures AllPings(s.(a := q, ab := s.ab + [f]))
  {
    OneMore(s.ab, f);
    hide Acks, Requests;
  }

  lemma SendPongPings(s: Sys, q: Peer, n: int)
    requires AllPings(s) && s.a.drv.pendingPong == Some(n) && s.a.drv.backlog == []
    requires q.drv == s.a.drv.(pendingPong := None)
    ensures AllPings(s.(a := q, ab := s.ab + [PongFrame(n)]))
  {
    OneMore(s.ab, PongFrame(n));
  }

  lemma SendPingPings(s: Sys, q: Peer, n: int)
    requires AllPings(s) && s.a.drv.awaitingPong.None? && s.a.drv.backlog == []
    requires q.drv == s.a.drv.(awaitingPong := Some(n))
    ensures AllPings(s.(a := q, ab := s.ab + [PingFrame(n)]))
  {
    OneMore(s.ab, PingFrame(n));
    assert Tokens(s.a, s.b, s.ab, s.ba) == [];
  }

  lemma BacklogPings(s: Sys, q: Peer, f: Frame)
    requires AllPings(s) && Silent(f)
    requires q.drv == s.a.drv.(phase := q.drv.phase, backlog := s.a.drv.backlog + [f])
    ensures AllPings(s.(a := q))
  {
    OneMore(s.a.drv.backlog, f);
    hide Acks, Requests;
  }

  lemma FlushPings(s: Sys, q: Peer)
    requires AllPings(s) && s.a.drv.backlog != [] && s.a.drv.pendingPong.None?
    requires q.drv == s.a.drv.(backlog := s.a.drv.backlog[1..])
    ensures AllPings(s.(a := q, ab := s.ab + [s.a.drv.backlog[0]]))
  {
    var f := s.a.drv.backlog[0];
    OneMore(s.ab, f);
    FrontAndRest(s.a.drv.backlog);
    hide Acks, Requests;
    var rest := s.a.drv.backlog[1..];
    var ack := if f.header.tag.Ping? && f.header.flags.ack then [f.header.length] else [];
    var ask := if f.header.tag.Ping? && !f.header.flags.ack then [f.header.length] else [];
    Regroup(Acks(s.ba) + Acks(s.b.drv.backlog) + OptNonce(s.b.drv.pendingPong) + Requests(s.ab), ask, Requests(rest));
    Regroup(Acks(s.ba) + Acks(s.b.drv.backlog) + OptNonce(s.b.drv.pendingPong), Requests(s.ab), ask);
    Regroup(Acks(s.ab), ack, Acks(rest));
  }

  lemma Regroup(a: seq<int>, b: seq<int>, c: seq<int>)
    ensures (a + b) + c == a + (b + c)
  {
  }

  /** The pong that waits in the driver goes to the backlog. */
  lemma ClosePings(s: Sys, q: Peer, rest: seq<Frame>)
    requires AllPings(s) && s.a.drv.backlog == [] && (forall i :: 0 <= i < |rest| ==> Silent(rest[i]))
    requires q.drv.backlog == OptPong(s.a.drv.pendingPong) + rest && q.drv.pendingPong.None?
    requires q.drv.awaitingPong == s.a.drv.awaitingPong
    ensures AllPings(s.(a := q))
  {
    SilentFrames(rest);
    AcksConcat(OptPong(s.a.drv.pendingPong), rest);
    RequestsConcat(OptPong(s.a.drv.pendingPong), rest);
    var pong := OptPong(s.a.drv.pendingPong);
    if s.a.drv.pendingPong.Some? { FrontAndRest(pong); assert pong[1..] == []; }
    assert Acks(pong) == OptNonce(s.a.drv.pendingPong) && Requests(pong) == [];
    hide Acks, Requests;
  }

  lemma DropPings(s: Sys)
    requires AllPings(s) && s.ba != []
    ensures AllPings(s.(ba := s.ba[1..]))
  {
    hide Acks, Requests;
    FrontAndRest(s.ba);
  }

  /** The reply that arrives is the one waited for. */
  lemma PongIsAwaited(s: Sys)
    requires AllPings(s) && s.ba != [] && s.ba[0].header.tag.Ping? && s.ba[0].header.flags.ack
    ensures s.a.drv.awaitingPong == Some(s.ba[0].header.length)
  {
    hide Acks, Requests;
    FrontAndRest(s.ba);
    assert Tokens(s.a, s.b, s.ab, s.ba) != [];
    assert Tokens(s.a, s.b, s.ab, s.ba)[0] == s.ba[0].header.length;
  }

  lemma PongPings(s: Sys, q: Peer)
    requires AllPings(s) && s.ba != [] && s.ba[0].header.tag.Ping? && s.ba[0].header.flags.ack
    requires q.drv == s.a.drv.(awaitingPong := None)
    ensures AllPings(s.(a := q, ba := s.ba[1..]))
  {
  }

  /** A ping arrives only while no pong waits to be sent. */
  lemma PingPings(s: Sys, q: Peer)
    requires AllPings(s) && s.ba != [] && s.ba[0].header.tag.Ping? && !s.ba[0].header.flags.ack
    requires q.drv == s.a.drv.(pendingPong := Some(s.ba[0].header.length))
    ensures AllPings(s.(a := q, ba := s.ba[1..])) && s.a.drv.pendingPong.None?
  {
  }

  // ----- goodbyes -----

  /** No step but draining and closing concerns the goodbye. */
  lemma QuietGoodbye(p: Peer, link: seq<Frame>, q: Peer)
    requires GoodbyeLast(p, link) && q.drv.backlog == p.drv.backlog && (q.drv.phase.Flushing? <==> p.drv.phase.Flushing?)
    requires p.drv.phase.Flushing? ==> q.queues.Keys == p.queues.Keys && forall h :: h in p.queues ==> q.queues[h].cmds == p.queues[h].cmds
    ensures GoodbyeLast(q, link)
  {
  }

  lemma SendGoodbye(p: Peer, link: seq<Frame>, q: Peer, f: Frame)
    requires GoodbyeLast(p, link) && !p.drv.phase.Flushing? && !q.drv.phase.Flushing? && q.drv.backlog == p.drv.backlog
    requires !f.header.tag.GoAway?
    ensures GoodbyeLast(q, link + [f])
  {
  }

  lemma BacklogGoodbye(p: Peer, link: seq<Frame>, q: Peer, f: Frame)
    requires GoodbyeLast(p, link) && !p.drv.phase.Flushing? && q.drv.backlog == p.drv.backlog + [f]
    requires if q.drv.phase.Flushing? then f == TERM else !f.header.tag.GoAway?
    requires q.drv.phase.Flushing? ==> forall h :: h in q.queues ==> q.queues[h].cmds == []
    ensures GoodbyeLast(q, link)
  {
  }

  lemma FlushGoodbye(p: Peer, link: seq<Frame>, q: Peer)
    requires GoodbyeLast(p, link) && p.drv.phase.Flushing? && p.drv.backlog != []
    requires q.drv == p.drv.(backlog := p.drv.backlog[1..]) && q.queues == p.queues
    ensures GoodbyeLast(q, link + [p.drv.backlog[0]])
  {
    assert link + p.drv.backlog == (link + [p.drv.backlog[0]]) + q.drv.backlog;
  }

  lemma CloseGoodbye(p: Peer, link: seq<Frame>, q: Peer)
    requires GoodbyeLast(p, link) && !p.drv.phase.Flushing? && !q.drv.phase.Flushing? && NoGoodbye(q.drv.backlog)
    ensures GoodbyeLast(q, link)
  {
  }

  lemma SendLink(p: Peer, link: seq<Frame>, q: Peer, f: Frame)
    requires LinkOk(p, link) && q.hist.sent == p.hist.sent + [f]
    ensures LinkOk(q, link + [f])
  {
  }

  lemma DropLink(p: Peer, link: seq<Frame>)
    requires LinkOk(p, link) && link != []
    ensures LinkOk(p, link[1..])
  {
  }

  /** Behind a goodbye there is nothing: not on the link, not in any queue. */
  lemma NothingBehindGoodbye(p: Peer, link: seq<Frame>)
    requires GoodbyeLast(p, p.hist.sent) && LinkOk(p, link) && link != [] && link[0].header.tag.GoAway?
    ensures p.drv.phase.Flushing? && link == [TERM] && p.drv.backlog == []
    ensures forall h :: h in p.queues ==> p.queues[h].cmds == []
  {
    var all := p.hist.sent + p.drv.backlog;
    var n := |p.hist.sent| - |link|;
    assert all[n] == link[0];
    LateIsLast(all, n);
  }

  lemma LateIsLast(fs: seq<Frame>, n: nat)
    requires n < |fs|
    ensures n < |fs| - 1 ==> fs[..|fs| - 1][n] == fs[n]
  {
  }
}
