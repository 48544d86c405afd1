/** Every step of the two-peer system keeps its invariant. */
module TwoPeersRuns {
  import opened Frames
  import opened Basics
  import opened StreamModel
  import opened PeerModel
  import opened PeerInvariants
  import PeerRuns
  import L = LaneModel
  import opened LaneView
  import opened TwoPeers
  import opened TwoPeersWire
  import opened TwoPeersPaths

  // ----- lane steps -----

  lemma QuietKeeps(x: L.End, z: L.End, y: L.End, P: seq<Frame>, Q: seq<Frame>)
    requires L.LaneInv(x, y, P, Q) && Quiet(x, z)
    ensures L.LaneInv(z, y, P, Q)
  {
    hide L.Dir, L.EndOk, L.Opens, L.Claims, L.ShutsIdle, L.LetsGo, L.Stops, L.Takes, L.LeavesIdle, L.LeavesQuietly;
    if z == x {
    } else if L.Opens(x, z) {
      L.OpensForward(x, z, y, P, Q); L.OpensBackward(x, z, y, P, Q);
    } else if L.Claims(x, z) {
      L.ClaimsForward(x, z, y, P, Q); L.ClaimsBackward(x, z, y, P, Q);
    } else if L.ShutsIdle(x, z) {
      L.ShutsIdleForward(x, z, y, P, Q); L.ShutsIdleBackward(x, z, y, P, Q);
    } else if L.LetsGo(x, z) {
      L.LetsGoForward(x, z, y, P, Q); L.LetsGoBackward(x, z, y, P, Q);
    } else if L.Stops(x, z) {
      L.StopsForward(x, z, y, P, Q); L.StopsBackward(x, z, y, P, Q);
    } else if L.LeavesIdle(x, z) {
      L.LeavesIdleForward(x, z, y, P, Q); L.LeavesIdleBackward(x, z, y, P, Q);
    } else if L.LeavesQuietly(x, z) {
      L.LeavesQuietlyForward(x, z, y, P, Q); L.LeavesQuietlyBackward(x, z, y, P, Q);
    } else {
      var k :| L.Takes(x, z, k);
      L.TakesForward(x, z, y, P, Q, k); L.TakesBackward(x, z, y, P, Q, k);
    }
  }

  lemma LoudKeeps(x: L.End, z: L.End, y: L.End, P: seq<Frame>, Q: seq<Frame>, f: Frame)
    requires L.LaneInv(x, y, P, Q) && Loud(x, z, f)
    ensures L.LaneInv(z, y, P + [f], Q)
  {
    hide L.Dir, L.EndOk, L.OpensWithData, L.Writes, L.Shuts, L.Grants, L.LeavesOpen, L.LeavesHalfClosed;
    if L.OpensWithData(x, z, f) {
      L.OpensWithDataForward(x, z, y, P, Q, f); L.OpensWithDataBackward(x, z, y, P, Q, f);
    } else if L.Writes(x, z, f) {
      L.WritesForward(x, z, y, P, Q, f); L.WritesBackward(x, z, y, P, Q, f);
    } else if L.Shuts(x, z, f) {
      L.ShutsForward(x, z, y, P, Q, f); L.ShutsBackward(x, z, y, P, Q, f);
    } else if L.Grants(x, z, f) {
      L.GrantsForward(x, z, y, P, Q, f); L.GrantsBackward(x, z, y, P, Q, f);
    } else if L.LeavesOpen(x, z, f) {
      L.LeavesOpenForward(x, z, y, P, Q, f); L.LeavesOpenBackward(x, z, y, P, Q, f);
    } else {
      L.LeavesHalfClosedForward(x, z, y, P, Q, f); L.LeavesHalfClosedBackward(x, z, y, P, Q, f);
    }
  }

  lemma ArrivesKeeps(x: L.End, z: L.End, y: L.End, P: seq<Frame>, Q: seq<Frame>, f: Frame)
    requires L.LaneInv(x, y, P, Q) && Arrives(x, z, f, Q)
    ensures L.LaneInv(z, y, P, Q[1..])
  {
    hide L.Dir, L.EndOk, L.TakesReset, L.TakesData, L.TakesSyn, L.TakesCredit, L.Ignores;
    assert Q != [] by { QueueNotEmpty(x, z, f, Q); }
    if L.TakesReset(x, z, f, Q) {
      L.TakesResetForward(x, z, y, P, Q, f); L.TakesResetBackward(x, z, y, P, Q, f);
    } else if L.TakesData(x, z, f, Q) {
      L.TakesDataForward(x, z, y, P, Q, f); L.TakesDataBackward(x, z, y, P, Q, f);
    } else if L.TakesSyn(x, z, f, Q) {
      L.TakesSynForward(x, z, y, P, Q, f); L.TakesSynBackward(x, z, y, P, Q, f);
    } else if L.TakesCredit(x, z, f, Q) {
      L.TakesCreditForward(x, z, y, P, Q, f); L.TakesCreditBackward(x, z, y, P, Q, f);
    } else {
      L.IgnoresForward(x, z, y, P, Q, f); L.IgnoresBackward(x, z, y, P, Q, f);
    }
  }

  lemma QueueNotEmpty(x: L.End, z: L.End, f: Frame, Q: seq<Frame>)
    requires Arrives(x, z, f, Q)
    ensures Q != []
  {
  }

  // ----- from one peer's step to all lanes -----

  lemma StepOfKeeps(x: L.End, z: L.End, y: L.End, link: seq<Frame>, W: seq<Frame>, W2: seq<Frame>, Q: seq<Frame>, id: StreamId)
    requires L.LaneInv(x, y, link + W, Q) && StepOf(x, z, W, W2, id)
    ensures L.LaneInv(z, y, link + W2, Q)
  {
    hide L.LaneInv, Quiet, Loud;
    if W2 == W && Quiet(x, z) {
      QuietKeeps(x, z, y, link + W, Q);
    } else {
      var f := W2[|W|];
      LoudKeeps(x, z, y, link + W, Q, f);
      assert link + W2 == (link + W) + [f];
    }
  }

  lemma QuietWritesNothing(x: L.End, z: L.End)
    requires Quiet(x, z)
    ensures z.written == x.written
  {
    hide L.Opens, L.Claims, L.ShutsIdle, L.LetsGo, L.Stops, L.Takes, L.LeavesIdle, L.LeavesQuietly;
    if z == x {
    } else if L.Opens(x, z) || L.Claims(x, z) || L.ShutsIdle(x, z) || L.LetsGo(x, z) || L.Stops(x, z) {
      StaysWritten(x, z);
    } else if L.LeavesIdle(x, z) || L.LeavesQuietly(x, z) {
      LeavesWritten(x, z);
    } else {
      var k :| L.Takes(x, z, k);
      TakesWritten(x, z, k);
    }
  }

  lemma StaysWritten(x: L.End, z: L.End)
    requires L.Opens(x, z) || L.Claims(x, z) || L.ShutsIdle(x, z) || L.LetsGo(x, z) || L.Stops(x, z)
    ensures z.written == x.written
  {
    hide UpdateState;
  }

  lemma LeavesWritten(x: L.End, z: L.End)
    requires L.LeavesIdle(x, z) || L.LeavesQuietly(x, z)
    ensures z.written == x.written
  {
  }

  lemma TakesWritten(x: L.End, z: L.End, k: int)
    requires L.Takes(x, z, k)
    ensures z.written == x.written
  {
  }

  lemma LoudWritesItsBody(x: L.End, z: L.End, f: Frame)
    requires Loud(x, z, f)
    ensures z.written == x.written + L.BodyOf(f)
  {
    hide L.OpensWithData, L.Writes, L.Shuts, L.Grants, L.LeavesOpen, L.LeavesHalfClosed;
    if L.OpensWithData(x, z, f) || L.Writes(x, z, f) {
      WritesWritten(x, z, f);
    } else {
      OthersWritten(x, z, f);
    }
  }

  lemma WritesWritten(x: L.End, z: L.End, f: Frame)
    requires L.OpensWithData(x, z, f) || L.Writes(x, z, f)
    ensures z.written == x.written + L.BodyOf(f)
  {
  }

  lemma OthersWritten(x: L.End, z: L.End, f: Frame)
    requires L.Shuts(x, z, f) || L.Grants(x, z, f) || L.LeavesOpen(x, z, f) || L.LeavesHalfClosed(x, z, f)
    ensures z.written == x.written && L.BodyOf(f) == []
  {
    hide UpdateState;
  }

  /** What a step writes is what it queues. */
  lemma StepOfBytes(x: L.End, z: L.End, W: seq<Frame>, W2: seq<Frame>, id: StreamId)
    requires StepOf(x, z, W, W2, id)
    ensures exists body :: z.written == x.written + body && L.Bytes(W2) == L.Bytes(W) + body
  {
    hide Quiet, Loud, L.Bytes;
    if W2 == W && Quiet(x, z) {
      QuietWritesNothing(x, z);
      assert z.written == x.written + [] && L.Bytes(W2) == L.Bytes(W) + [];
    } else {
      var f := W2[|W|];
      L.Append(W, f);
      LoudWritesItsBody(x, z, f);
    }
  }

  lemma {:induction false} BytesConcat(P: seq<Frame>, Q: seq<Frame>)
    ensures L.Bytes(P + Q) == L.Bytes(P) + L.Bytes(Q)
  {
    if P == [] {
      assert P + Q == Q;
    } else {
      assert (P + Q)[1..] == P[1..] + Q;
      BytesConcat(P[1..], Q);
    }
  }

  lemma EndWritten(p: Peer, i: StreamId)
    ensures EndOf(p, i).written == Log(p.hist.written, i)
  {
  }

  lemma StepAccounted(p: Peer, q: Peer, id: StreamId, i: StreamId)
    requires Accounted(p, i) && View(p, q, id) && q.hist.sent == p.hist.sent
    ensures Accounted(q, i)
  {
    hide EndOf, Waiting, Only, StepOf, L.Bytes, Log;
    EndWritten(p, i);
    EndWritten(q, i);
    if i == id {
      StepOfBytes(EndOf(p, i), EndOf(q, i), Waiting(p, i), Waiting(q, i), i);
      BytesConcat(Only(p.hist.sent, i), Waiting(p, i));
      BytesConcat(Only(p.hist.sent, i), Waiting(q, i));
    } else {
      assert SameView(p, q, i);
    }
  }

  /** A local step of `a` that is one lane step for one id. */
  lemma ViewKeeps(s: Sys, q: Peer, id: StreamId)
    requires LanesOk(s) && View(s.a, q, id) && q.hist.sent == s.a.hist.sent
    ensures LanesOk(s.(a := q))
  {
    hide L.LaneInv, EndOf, Waiting, Only, StepOf, Accounted;
    forall i | i != SESSION ensures LaneOk(s.(a := q), i) && Accounted(q, i) {
      assert LaneOk(s, i);
      StepAccounted(s.a, q, id, i);
      if i == id {
        StepOfKeeps(EndOf(s.a, i), EndOf(q, i), EndOf(s.b, i), Only(s.ab, i), Waiting(s.a, i), Waiting(q, i), Path(s.ba, s.b, i), id);
      } else {
        assert SameView(s.a, q, i);
      }
    }
  }

  /** If moving `d` to one link is invisible, so is moving it to the other. */
  lemma SameMove(p: Peer, q: Peer, link: seq<Frame>, sent: seq<Frame>, d: seq<Frame>, i: StreamId)
    requires Path(link + d, q, i) == Path(link, p, i)
    ensures Path(sent + d, q, i) == Path(sent, p, i)
  {
    OnlyConcat(link, d, i);
    OnlyConcat(sent, d, i);
    hide Only, Waiting;
    var A, B, X, Y, D := Only(link, i), Only(sent, i), Waiting(q, i), Waiting(p, i), Only(d, i);
    assert D + X == Y by {
      assert (A + D) + X == A + (D + X);
      assert (A + (D + X))[|A|..] == D + X;
      assert (A + Y)[|A|..] == Y;
    }
    assert (B + D) + X == B + (D + X);
  }

  lemma InvisibleKeeps(s: Sys, q: Peer, after: seq<Frame>, d: seq<Frame>)
    requires LanesOk(s) && Invisible(s.a, s.ab, q, after)
    requires after == s.ab + d && q.hist.sent == s.a.hist.sent + d
    ensures LanesOk(s.(a := q, ab := after))
  {
    hide L.LaneInv, EndOf, Path, L.Bytes, Log;
    forall i | i != SESSION ensures LaneOk(s.(a := q, ab := after), i) && Accounted(q, i) {
      EndWritten(s.a, i);
      EndWritten(q, i);
      assert LaneOk(s, i) && Accounted(s.a, i);
      SameMove(s.a, q, s.ab, s.a.hist.sent, d, i);
    }
  }

  lemma SameViewsInvisible(p: Peer, q: Peer, link: seq<Frame>)
    requires forall i :: SameView(p, q, i)
    ensures Invisible(p, link, q, link)
  {
    hide EndOf, Waiting;
    forall id | id != SESSION ensures EndOf(q, id) == EndOf(p, id) && Path(link, q, id) == Path(link, p, id) {
      assert SameView(p, q, id);
    }
  }

  lemma LaneEndOk(s: Sys, id: StreamId)
    requires LanesOk(s) && id != SESSION
    ensures L.EndOk(EndOf(s.a, id))
    ensures EndOf(s.a, id).stage != L.Live && !EndOf(s.a, id).reaped ==> Waiting(s.a, id) == []
  {
    hide EndOf, Waiting, Only, L.EndOk, L.Delivery, L.Balance, L.SynOrder, L.Entry, L.EndOrder, L.Bounds;
    assert LaneOk(s, id);
  }

  // ----- handle calls -----

  lemma OpeningLanes(s: Sys, h: HandleId)
    requires SysInv(s) && Enabled(s.a, Opening(h)) && h.k == 0
    ensures LanesOk(s.(a := NewStream(s.a, h)))
  {
    hide Inv, Single, WireOk, LanesOk, GoodbyeLast, View;
    assert CanOpen(s.a, h);
    OpeningWire(s.a, h);
    OpenView(s.a, h);
    ViewKeeps(s, NewStream(s.a, h), h.id);
  }

  lemma WritingLanes(s: Sys, h: HandleId, data: seq<byte>)
    requires Usable(s.a, h)
    requires SysInv(s) && Enabled(s.a, Writing(h, data))
    ensures LanesOk(s.(a := PollWrite(s.a, h, data).peer))
  {
    hide Inv, Single, WireOk, LanesOk, GoodbyeLast, View, EndOf, Waiting, L.EndOk, PollWrite;
    HandleReady(s.a, h);
    LaneEndOk(s, h.id);
    WriteView(s.a, h, data);
    WriteSent(s.a, h, data);
    ViewKeeps(s, PollWrite(s.a, h, data).peer, h.id);
  }

  lemma WriteSent(p: Peer, h: HandleId, data: seq<byte>)
    requires Usable(p, h)
    ensures PollWrite(p, h, data).peer.hist.sent == p.hist.sent
  {
    hide Portion;
  }

  lemma HandleReady(p: Peer, h: HandleId)
    requires PeerOk(p) && h in p.handles
    ensures Usable(p, h) && h == Only0(h.id) && h.id != SESSION && h in p.queues && !EndOf(p, h.id).reaped
  {
    hide Inv, Single, WireOk;
    HandleView(p, h);
    HandleIdOk(p, h);
  }

  lemma ReadingLanes(s: Sys, h: HandleId, n: nat, tune: bool)
    requires Usable(s.a, h)
    requires SysInv(s) && Enabled(s.a, Reading(h, n, tune))
    ensures LanesOk(s.(a := PollRead(s.a, h, n, tune).peer))
  {
    hide Inv, Single, WireOk, LanesOk, GoodbyeLast, View, EndOf, Waiting, L.EndOk, SendWindowUpdate, ReadBuffer;
    HandleReady(s.a, h);
    LaneEndOk(s, h.id);
    GrantView(s.a, h, tune);
    var m := SendWindowUpdate(s.a, h, tune);
    GrantPeer(s.a, h, tune);
    ViewKeeps(s, m, h.id);
    TakeView(m, h, n, !ChannelsClosed(s.a) && !QueueFull(s.a, h));
    TakeSent(m, h, n, !ChannelsClosed(s.a) && !QueueFull(s.a, h));
    ViewKeeps(s.(a := m), PollRead(s.a, h, n, tune).peer, h.id);
  }

  lemma GrantPeer(p: Peer, h: HandleId, tune: bool)
    requires PeerOk(p) && h in p.handles && Usable(p, h)
    ensures var m := SendWindowUpdate(p, h, tune); Inv(m) && Single(m) && Usable(m, h) && h in m.handles && m.hist == p.hist
  {
    hide Inv, Single, WireOk, QueuesGrow, SendWindowUpdate;
    PeerRuns.GrantingKeeps(p, h, tune);
    HandleIdOk(p, h);
    GrantGrows(p, h, tune);
    GrowKeeps(p, SendWindowUpdate(p, h, tune), h);
  }

  lemma TakeSent(p: Peer, h: HandleId, n: nat, room: bool)
    requires Usable(p, h)
    ensures ReadBuffer(p, h, n, room).peer.hist.sent == p.hist.sent && ReadBuffer(p, h, n, room).peer.drv == p.drv
  {
  }

  lemma ShuttingLanes(s: Sys, h: HandleId)
    requires SysInv(s) && Enabled(s.a, Shutting(h))
    ensures LanesOk(s.(a := PollClose(s.a, h).peer))
  {
    hide Inv, Single, WireOk, LanesOk, GoodbyeLast, View, EndOf, Waiting;
    HandleReady(s.a, h);
    ShutView(s.a, h);
    ViewKeeps(s, PollClose(s.a, h).peer, h.id);
  }

  lemma ReleasingLanes(s: Sys, h: HandleId)
    requires SysInv(s) && Enabled(s.a, Releasing(h))
    ensures LanesOk(s.(a := Release(s.a, h)))
  {
    hide Inv, Single, WireOk, LanesOk, GoodbyeLast, Waiting;
    HandleReady(s.a, h);
    ReleaseView(s.a, h);
    var q := Release(s.a, h);
    hide EndOf;
    assert L.LetsGo(EndOf(s.a, h.id), EndOf(q, h.id));
    ViewKeeps(s, q, h.id);
  }

  lemma RequeueLanes(s: Sys, q: Peer, h: HandleId)
    requires LanesOk(s) && h in s.a.queues && h in q.queues && q.queues[h].cmds == s.a.queues[h].cmds
    requires q == s.a.(queues := s.a.queues[h := q.queues[h]])
    ensures LanesOk(s.(a := q))
  {
    hide LanesOk;
    RequeueView(s.a, q, h);
    SameViewsInvisible(s.a, q, s.ab);
    InvisibleKeeps(s, q, s.ab, []);
  }

  lemma ReapingLanes(s: Sys, h: HandleId)
    requires SysInv(s) && Enabled(s.a, Reaping(h))
    ensures LanesOk(s.(a := OnDropStream(s.a, h)))
  {
    hide Inv, Single, WireOk, LanesOk, GoodbyeLast, View, EndOf, Waiting;
    ReapView(s.a, h);
    ViewKeeps(s, OnDropStream(s.a, h), h.id);
  }

  // ----- driver actions -----

  lemma MoveEnds(p: Peer, q: Peer)
    requires q.reg.heap == p.reg.heap && q.reg.streams == p.reg.streams && q.reg.inactive == p.reg.inactive
    requires q.handles == p.handles && q.queues.Keys == p.queues.Keys && q.hist == p.hist.(sent := q.hist.sent)
    requires (q.drv.phase.Active? <==> p.drv.phase.Active?) && (ChannelsClosed(q) <==> ChannelsClosed(p))
    ensures forall id :: EndOf(q, id) == EndOf(p, id)
  {
  }

  lemma NoBacklog(p: Peer)
    requires Inv(p) && !ChannelsClosed(p)
    ensures p.drv.backlog == []
  {
    hide RecordsOk, RegistryOk, HandlesOk, NoLeak, SlotsOk, WaitersInactive, WaitersOpened, FinsTold, BudgetOk, QueuesOk;
  }

  lemma EmittingEnds(p: Peer)
    ensures forall id :: EndOf(PeerRuns.Noted(Emit(p)), id) == EndOf(p, id)
  {
    hide EndOf;
    MoveEnds(p, PeerRuns.Noted(Emit(p)));
  }

  lemma EmittingInvisible(p: Peer, link: seq<Frame>)
    requires Inv(p) && WireOk(p) && !ChannelsClosed(p) && !p.drv.terminating && Emit(p).frame.Some?
    ensures var e := Emit(p); Invisible(p, link, PeerRuns.Noted(e), link + OptFrame(e.frame))
  {
    hide Inv, WireOk, EndOf, Path, Emit, Invisible, ChannelsClosed;
    var e := Emit(p);
    NoBacklog(p);
    NothingPending(p);
    EmittingEnds(p);
    forall id | id != SESSION ensures Path(link + OptFrame(e.frame), PeerRuns.Noted(e), id) == Path(link, p, id) {
      EmitPath(p, link, id);
    }
    MoveInvisible(p, PeerRuns.Noted(e), link, link + OptFrame(e.frame));
  }

  lemma EmittingLanes(s: Sys)
    requires SysInv(s) && !s.a.drv.terminating && Enabled(s.a, Emitting)
    ensures var e := Emit(s.a); LanesOk(s.(a := PeerRuns.Noted(e), ab := s.ab + OptFrame(e.frame)))
  {
    hide Inv, Single, WireOk, LanesOk, GoodbyeLast, Invisible;
    var e := Emit(s.a);
    EmittingInvisible(s.a, s.ab);
    InvisibleKeeps(s, PeerRuns.Noted(e), s.ab + OptFrame(e.frame), OptFrame(e.frame));
  }

  lemma PingingLanes(s: Sys, n: int, q: Peer)
    requires LanesOk(s) && q == PeerRuns.Noted(Emission(s.a.(drv := s.a.drv.(awaitingPong := Some(n))), Some(PingFrame(n))))
    ensures LanesOk(s.(a := q, ab := s.ab + [PingFrame(n)]))
  {
    MoveEnds(s.a, q);
    hide LanesOk, EndOf;
    forall id | id != SESSION ensures Path(s.ab + [PingFrame(n)], q, id) == Path(s.ab, s.a, id) {
      PingPath(s.a, s.ab, n, id);
      assert Waiting(q, id) == Waiting(s.a, id);
    }
    hide Path;
    InvisibleKeeps(s, q, s.ab + [PingFrame(n)], [PingFrame(n)]);
  }

  lemma MoveInvisible(p: Peer, q: Peer, link: seq<Frame>, after: seq<Frame>)
    requires forall id :: EndOf(q, id) == EndOf(p, id)
    requires forall id :: id != SESSION ==> Path(after, q, id) == Path(link, p, id)
    ensures Invisible(p, link, q, after)
  {
    hide EndOf, Path;
  }

  lemma OwedInvisible(p: Peer, link: seq<Frame>, i: StreamId)
    requires Single(p) && i in p.reg.owed && p.drv.pendingWrite.None? && !ChannelsClosed(p)
    ensures Invisible(p, link, FlushOwed(p, i), link)
  {
    hide Single, EndOf, Path, Invisible;
    var q := FlushOwed(p, i);
    MoveEnds(p, q);
    forall id | id != SESSION ensures Path(link, q, id) == Path(link, p, id) { OwedPath(p, link, i, id); }
    MoveInvisible(p, q, link, link);
  }

  lemma OwedReady(p: Peer, i: StreamId)
    requires i in p.reg.owed && Enabled(p, FlushingOwed(i))
    ensures p.drv.pendingWrite.None? && !ChannelsClosed(p) && FlushOwed(p, i).hist == p.hist
  {
  }

  lemma OwedLanes(s: Sys, i: StreamId)
    requires i in s.a.reg.owed
    requires SysInv(s) && Enabled(s.a, FlushingOwed(i))
    ensures LanesOk(s.(a := FlushOwed(s.a, i)))
  {
    hide Inv, Single, WireOk, LanesOk, GoodbyeLast, Invisible, Enabled, FlushOwed;
    OwedReady(s.a, i);
    OwedInvisible(s.a, s.ab, i);
    InvisibleKeeps(s, FlushOwed(s.a, i), s.ab, []);
  }

  lemma LaterKeys(p: Peer, h: HandleId)
    requires h in p.queues && |p.queues[h].cmds| > 0
    ensures Later(p, h).Keys == p.queues.Keys
  {
  }

  lemma TakeInvisible(p: Peer, link: seq<Frame>, h: HandleId)
    requires Single(p) && WireOk(p) && h in p.queues && h == Only0(h.id) && |p.queues[h].cmds| > 0
    ensures OutboundIdle(p) && !ChannelsClosed(p) ==> Invisible(p, link, TakeCommand(p, h), link)
    ensures ChannelsClosed(p) ==> Invisible(p, link, DrainCommand(p, h), link)
  {
    hide Single, WireOk, EndOf, Path, Invisible, OutboundIdle;
    LaterKeys(p, h);
    hide Later;
    if ChannelsClosed(p) {
      var q := DrainCommand(p, h);
      MoveEnds(p, q);
      forall id | id != SESSION ensures Path(link, q, id) == Path(link, p, id) { DrainPath(p, link, h, id); }
      MoveInvisible(p, q, link, link);
    } else if OutboundIdle(p) {
      var q := TakeCommand(p, h);
      MoveEnds(p, q);
      forall id | id != SESSION ensures Path(link, q, id) == Path(link, p, id) { TakePath(p, link, h, id); }
      MoveInvisible(p, q, link, link);
    }
  }

  lemma TakeReady(p: Peer, h: HandleId)
    requires Enabled(p, Taking(h)) || Enabled(p, DrainingOne(h))
    ensures h in p.queues && |p.queues[h].cmds| > 0
    ensures Enabled(p, Taking(h)) ==> OutboundIdle(p) && !ChannelsClosed(p)
    ensures Enabled(p, DrainingOne(h)) ==> ChannelsClosed(p)
    ensures TakeCommand(p, h).hist == p.hist && DrainCommand(p, h).hist == p.hist
  {
  }

  lemma TakingLanes(s: Sys, h: HandleId)
    requires h in s.a.queues && |s.a.queues[h].cmds| > 0
    requires SysInv(s) && Enabled(s.a, Taking(h))
    ensures LanesOk(s.(a := TakeCommand(s.a, h)))
  {
    hide Inv, Single, WireOk, LanesOk, GoodbyeLast, Invisible, TakeCommand, DrainCommand;
    TakeReady(s.a, h);
    hide Enabled;
    HandleIdOk(s.a, h);
    TakeInvisible(s.a, s.ab, h);
    InvisibleKeeps(s, TakeCommand(s.a, h), s.ab, []);
  }

  lemma DrainingLanes(s: Sys, h: HandleId)
    requires h in s.a.queues && |s.a.queues[h].cmds| > 0
    requires SysInv(s) && Enabled(s.a, DrainingOne(h))
    ensures LanesOk(s.(a := DrainCommand(s.a, h)))
  {
    hide Inv, Single, WireOk, LanesOk, GoodbyeLast, Invisible, TakeCommand, DrainCommand;
    TakeReady(s.a, h);
    hide Enabled;
    HandleIdOk(s.a, h);
    TakeInvisible(s.a, s.ab, h);
    InvisibleKeeps(s, DrainCommand(s.a, h), s.ab, []);
  }

  lemma DrainedLanes(s: Sys)
    requires SysInv(s) && Enabled(s.a, DrainDone)
    ensures LanesOk(s.(a := FinishDrain(s.a)))
  {
    hide Inv, Single, WireOk, LanesOk, GoodbyeLast, EndOf, Path;
    var q := FinishDrain(s.a);
    MoveEnds(s.a, q);
    forall id | id != SESSION ensures Path(s.ab, q, id) == Path(s.ab, s.a, id) { TermPath(s.a, s.ab, id); }
    InvisibleKeeps(s, q, s.ab, []);
  }

  lemma FlushingLanes(s: Sys)
    requires SysInv(s) && Enabled(s.a, FlushingOne)
    ensures var e := FlushBacklog(s.a); LanesOk(s.(a := PeerRuns.Noted(e), ab := s.ab + OptFrame(e.frame)))
  {
    hide Inv, Single, WireOk, LanesOk, GoodbyeLast, EndOf, Path;
    var e := FlushBacklog(s.a);
    MoveEnds(s.a, PeerRuns.Noted(e));
    forall id | id != SESSION ensures Path(s.ab + OptFrame(e.frame), PeerRuns.Noted(e), id) == Path(s.ab, s.a, id) {
      FlushPath(s.a, s.ab, id);
    }
    InvisibleKeeps(s, PeerRuns.Noted(e), s.ab + OptFrame(e.frame), OptFrame(e.frame));
  }

  // ----- every lane at once -----

  lemma ClosingLanes(s: Sys, order: seq<StreamId>)
    requires KeyOrder(s.a.reg.owed, order)
    requires SysInv(s) && !s.a.drv.terminating && Enabled(s.a, Closing(order))
    ensures LanesOk(s.(a := BeginClose(s.a, order)))
  {
    hide Inv, Single, GoodbyeLast, EndOf, Path, StopReceiving, L.LaneInv, KeyOrder, Accounted;
    var q := BeginClose(s.a, order);
    NoBacklog(s.a);
    AtMostOneOwed(s.a);
    assert q.hist == s.a.hist && s.a.drv.pendingTerminate.None? && !ChannelsClosed(s.a);
    hide BeginClose, WireOk;
    forall id | id != SESSION ensures LaneOk(s.(a := q), id) && Accounted(q, id) {
      assert LaneOk(s, id) && Accounted(s.a, id);
      ClosePath(s.a, s.ab, order, id);
      ClosePath(s.a, s.a.hist.sent, order, id);
      SameAccount(s.a, q, id);
      StopKeeps(s, q, order, id);
    }
  }

  lemma SameAccount(p: Peer, q: Peer, id: StreamId)
    requires Accounted(p, id) && Path(q.hist.sent, q, id) == Path(p.hist.sent, p, id)
    requires q.hist.written == p.hist.written
    ensures Accounted(q, id)
  {
    hide Path, L.Bytes, Log;
  }

  lemma StopKeeps(s: Sys, q: Peer, order: seq<StreamId>, id: StreamId)
    requires LaneOk(s, id) && KeyOrder(s.a.reg.owed, order) && RegistryInHeap(s.a.reg) && q == BeginClose(s.a, order)
    requires Path(s.ab, q, id) == Path(s.ab, s.a, id)
    ensures LaneOk(s.(a := q), id)
  {
    StopView(s.a, order, id);
    hide EndOf, Path, BeginClose, L.LaneInv, L.Stops;
    QuietKeeps(EndOf(s.a, id), EndOf(q, id), EndOf(s.b, id), Path(s.ab, s.a, id), Path(s.ba, s.b, id));
  }

  lemma AtMostOneOwed(p: Peer)
    requires Inv(p)
    ensures |p.reg.owed| <= 1
  {
    hide RecordsOk, RegistryOk, HandlesOk, NoLeak, WaitersInactive, WaitersOpened, FinsTold, BudgetOk, QueuesOk;
  }

  // ----- deliveries -----

  lemma OnlyRest(link: seq<Frame>, id: StreamId)
    requires link != []
    ensures Only(link, id) == (if link[0].header.id == id then [link[0]] else []) + Only(link[1..], id)
  {
  }

  lemma PathRest(link: seq<Frame>, p: Peer, id: StreamId)
    requires link != []
    ensures link[0].header.id != id ==> Path(link[1..], p, id) == Path(link, p, id)
    ensures link[0].header.id == id ==> Path(link, p, id) != [] && Path(link, p, id)[0] == link[0]
                                        && Path(link[1..], p, id) == Path(link, p, id)[1..]
  {
    OnlyRest(link, id);
    hide Only, Waiting;
  }

  /** The front frame, seen as a step of its lane. */
  lemma FrameArrives(s: Sys, f: Frame)
    requires RegistryInHeap(s.a.reg) && s.ba != []
    requires SysInv(s) && !s.a.drv.terminating && s.ba[0] == f && Enabled(s.a, Receiving(f)) && Accepted(s.a, f)
    requires f.header.tag.Data? || f.header.tag.WindowUpdate?
    ensures var q, id := Receive(s.a, f), f.header.id;
            && OthersSame(s.a, q, id) && Waiting(q, id) == Waiting(s.a, id) && Path(s.ba, s.b, id) != []
            && Arrives(EndOf(s.a, id), EndOf(q, id), f, Path(s.ba, s.b, id))
  {
    hide Inv, Single, WireOk, GoodbyeLast, EndOf, Path, Receive, L.LaneInv, Accepted, Enabled, Arrives, OthersSame, Accounted;
    assert Sound(f);
    var id := f.header.id;
    assert LaneOk(s, id);
    PathRest(s.ba, s.b, id);
    FrontIsLaneFrame(s, id);
    hide LanesOk, PingsOk, AllSound;
    ReceiveView(s.a, f, Path(s.ba, s.b, id));
  }

  lemma ReceiveHistory(p: Peer, f: Frame)
    requires RegistryInHeap(p.reg)
    ensures Receive(p, f).hist == p.hist
  {
    hide OnFrame;
  }

  /** A stream frame arrives. */
  lemma FrameLanes(s: Sys, f: Frame)
    requires RegistryInHeap(s.a.reg) && s.ba != []
    requires SysInv(s) && !s.a.drv.terminating && s.ba[0] == f && Enabled(s.a, Receiving(f)) && Accepted(s.a, f)
    requires f.header.tag.Data? || f.header.tag.WindowUpdate?
    ensures LanesOk(s.(a := Receive(s.a, f), ba := s.ba[1..]))
  {
    hide OnFrame, React, Receive, SysInv, LaneOk, EndOf, Path,  L.LaneInv, Accepted, Enabled, Arrives, OthersSame, Accounted, Waiting;
    ReceiveHistory(s.a, f);
    var q := Receive(s.a, f);
    SystemLanes(s);
    FrameArrives(s, f);
    forall i | i != SESSION ensures LaneOk(s.(a := q, ba := s.ba[1..]), i) && Accounted(q, i) {
      assert LaneOk(s, i) && Accounted(s.a, i);
      FrameLane(s, q, f, i);
    }
  }

  lemma SystemLanes(s: Sys)
    requires SysInv(s)
    ensures LanesOk(s)
  {
  }

  lemma FrameLane(s: Sys, q: Peer, f: Frame, i: StreamId)
    requires LaneOk(s, i) && Accounted(s.a, i) && q.hist == s.a.hist && s.ba != [] && s.ba[0] == f && Path(s.ba, s.b, f.header.id) != []
    requires OthersSame(s.a, q, f.header.id) && Waiting(q, f.header.id) == Waiting(s.a, f.header.id)
    requires Arrives(EndOf(s.a, f.header.id), EndOf(q, f.header.id), f, Path(s.ba, s.b, f.header.id))
    ensures LaneOk(s.(a := q, ba := s.ba[1..]), i) && Accounted(q, i)
  {
    hide EndOf, Path, L.LaneInv, Arrives, OthersSame, Accounted, Waiting;
    PathRest(s.ba, s.b, i);
    if i == f.header.id {
      ArrivesKeeps(EndOf(s.a, i), EndOf(q, i), EndOf(s.b, i), Path(s.ab, s.a, i), Path(s.ba, s.b, i), f);
    } else {
      OtherView(s.a, q, f.header.id, i);
    }
    SamePath(s.a, q, s.ab, i);
    SamePath(s.a, q, s.a.hist.sent, i);
    SameAccount(s.a, q, i);
  }

  lemma FrontIsLaneFrame(s: Sys, id: StreamId)
    requires LaneOk(s, id) && Path(s.ba, s.b, id) != []
    ensures L.LaneFrame(Path(s.ba, s.b, id)[0])
  {
    hide EndOf, Path, L.EndOk, L.Delivery, L.Balance, L.SynOrder, L.Entry, L.EndOrder, L.Bounds, L.Started;
  }

  lemma SamePath(p: Peer, q: Peer, link: seq<Frame>, i: StreamId)
    requires Waiting(q, i) == Waiting(p, i)
    ensures Path(link, q, i) == Path(link, p, i)
  {
    hide Waiting, Only;
  }

  lemma OtherView(p: Peer, q: Peer, id: StreamId, i: StreamId)
    requires OthersSame(p, q, id) && i != id
    ensures EndOf(q, i) == EndOf(p, i) && Waiting(q, i) == Waiting(p, i)
  {
    hide EndOf, Waiting;
    assert SameView(p, q, i);
  }

  /** Pings and goodbyes belong to no stream. */
  lemma SessionLanes(s: Sys, f: Frame, q: Peer)
    requires LanesOk(s) && s.ba != [] && s.ba[0] == f && f.header.id == SESSION && q.hist == s.a.hist
    requires forall id :: id != SESSION ==> Waiting(q, id) == Waiting(s.a, id) && Quiet(EndOf(s.a, id), EndOf(q, id))
    ensures LanesOk(s.(a := q, ba := s.ba[1..]))
  {
    hide EndOf, Path, L.LaneInv, Quiet, Waiting, Accounted;
    var t := s.(a := q, ba := s.ba[1..]);
    forall i | i != SESSION ensures LaneOk(t, i) && Accounted(q, i) {
      assert LaneOk(s, i) && Accounted(s.a, i);
      PathRest(s.ba, s.b, i);
      SamePath(s.a, q, s.ab, i);
      SamePath(s.a, q, s.a.hist.sent, i);
      SameAccount(s.a, q, i);
      QuietKeeps(EndOf(s.a, i), EndOf(q, i), EndOf(s.b, i), Path(s.ab, s.a, i), Path(s.ba, s.b, i));
    }
  }

  lemma DroppingLanes(s: Sys)
    requires LanesOk(s) && s.ba != [] && s.a.drv.phase.Flushing?
    ensures LanesOk(s.(ba := s.ba[1..]))
  {
    hide L.LaneInv, Path, Only, Waiting, L.Discards, Accounted;
    var t := s.(ba := s.ba[1..]);
    var f := s.ba[0];
    forall i | i != SESSION ensures LaneOk(t, i) {
      assert LaneOk(s, i);
      PathRest(s.ba, s.b, i);
      if f.header.id == i {
        var x, y, P, Q := EndOf(s.a, i), EndOf(s.b, i), Path(s.ab, s.a, i), Path(s.ba, s.b, i);
        assert !x.sending;
        hide EndOf;
        DiscardKeeps(x, y, P, Q);
      }
    }
  }

  lemma DiscardKeeps(x: L.End, y: L.End, P: seq<Frame>, Q: seq<Frame>)
    requires L.LaneInv(x, y, P, Q) && Q != [] && !x.sending
    ensures L.LaneInv(x, y, P, Q[1..])
  {
    hide L.Dir, L.EndOk;
    L.DiscardsForward(x, x, y, P, Q, Q[0]);
    L.DiscardsBackward(x, x, y, P, Q, Q[0]);
  }
}
